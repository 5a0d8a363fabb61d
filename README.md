# BTC/HBAR whale-trade monitor: rolling trade window

A Dafny model of the one stateful part of the `btc-hbar-monitor` Flask
backend: the synthetic "whale trade" feed behind `/api/btc_trades` and
`/api/hbar_trades`. The backend keeps one process-wide list of records per
coin. On each poll it generates a batch of 5 to 10 records, appends the batch
to its coin's list, deletes from the front until at most `MAX_POINTS * 10` =
600 records remain, and serves the newest 30 (all of them while fewer
are held). The model covers three things:

- the size label of a record ("0-1" … "100+" for BTC, "0-1K" … "100K+" for
  HBAR), given by three ascending cut points per coin;
- the buy/sell label: "매도" (sell) when the receiving wallet is one of the
  three exchange wallets, "매수" (buy) otherwise;
- the batch generator loop and the append/trim/serve update of the two lists.

Modules:

- `Buckets` (`buckets.dfy`): the generic `if a < t1 … elif … else` rule over a
  list of cut points, a reference statement of which range each bucket
  covers, and lemmas showing the buckets partition the integers and grow
  monotonically with the amount.
- `Trades` (`trades.dfy`): coins, records and draws; the two label rules, with
  the label chains written exactly as in the source and proved equal to the
  threshold rule; and `GenerateMockTrades`, a loop building the batch.
- `Window` (`window.dfy`): the window as values. `Last` keeps the newest `n`
  elements; `AppendTrim` is one poll's update. The lemmas cover the capacity
  bound, FIFO eviction, and replaying any sequence of polls.
- `TradeApi` (`monitor.dfy`): a `Monitor` class whose two `seq` fields are the
  two module-level lists. `ApiBtcTrades` and `ApiHbarTrades` are the routes.
  Each updates its own list and proves that the other list is unchanged.

Amounts are integers in hundredths of a coin, because the generator rounds
to two decimal places. So the BTC cut points 1, 10 and 100 become 100, 1000
and 10000, and the HBAR cut points 1000, 10000 and 100000 become 100000,
1000000 and 10000000. The random draws become a caller-supplied `seq<Draw>`:
its length is the batch size, and each draw holds an amount, a sender and a
receiver. The preconditions pin these to the source's ranges: 5 to 10 draws;
amounts of 0.05 to 300 BTC or 0.05 to 300000 HBAR; wallets from the three
exchanges plus `user_wallet`. The clock reading becomes a `now: string`
parameter.

A poll serves the newest 30 records, or all of them while fewer are held.
The capacity is 600. The direction is derived from the receiver. Amounts are
at least 0.05.

## Model

| member | source | states |
|---|---|---|
| Buckets.Bucket | app.py:29-46 | the if/elif chain picks one of the buckets 0 to len(ts), one more than there are cut points |
| Buckets.BucketInRange | app.py:29-46 | the bucket the chain picks for an amount is the range containing that amount |
| Buckets.BucketRangesDisjoint | app.py:29-46 | with ascending cut points, no amount lies in two buckets |
| Buckets.BucketIff | app.py:29-46 | with ascending cut points, the chain picks bucket `i` exactly when the amount lies in range `i`, in both directions |
| Buckets.BucketMonotone | app.py:29-46 | a larger amount never gets a lower bucket |
| Trades.Thresholds | app.py:30-44 | each coin has three strictly ascending cut points |
| Trades.Labels | app.py:31-46 | each coin has four pairwise distinct labels |
| Trades.TypeLabelIsBucketLabel | app.py:29-46 | the literal chains of both coins equal the threshold rule over that coin's cut points |
| Trades.TypeLabelPartition | app.py:29-46 | every amount gets one of its coin's four labels, and label `i` exactly when the amount is in range `i` |
| Trades.TypeLabelMonotone | app.py:29-37 | the bucket index of the label is non-decreasing in the amount |
| Trades.BtcLabelExamples | app.py:38-46 | 0.99 BTC is "0-1", 1.00 BTC is "1-10", 100.00 BTC is "100+" |
| Trades.Direction | app.py:48-50 | the direction is always either sell or buy |
| Trades.DirectionIsSellIff | app.py:15-50 | sell exactly when the receiver is binance_wallet, upbit_wallet or coinbase_wallet; a transfer to user_wallet is a buy |
| Trades.DirectionOnlyFromReceiver | app.py:48-58 | records with the same receiver have the same direction, whatever the sender, amount, coin or time |
| Trades.BatchLength | app.py:26-59 | a batch has one record per draw |
| Trades.BatchAt | app.py:26-59 | record `i` of a batch is built from draw `i`, so records keep generation order |
| Trades.BatchSnoc | app.py:52-59 | each loop iteration appends exactly one record at the back |
| Trades.GenerateMockTrades | app.py:23-60 | the loop returns 5 to 10 records, one per draw, in order, all with the same time, each with the label of its amount and the direction of its receiver |
| Window.LastIsSuffix | app.py:128 | the newest-`n` view has min(n, length) elements and is a suffix of the window |
| Window.LastAt | app.py:127 | front deletion shifts indices: kept element `i` is old element `i + dropped` |
| Window.AppendTrimBound | app.py:125-127 | after append and trim the window holds at most the capacity; at or under capacity it is exactly old + batch; over it, exactly the last `cap` elements of old + batch |
| Window.AppendTrimEvictsOldest | app.py:125-127 | FIFO eviction: a batch no larger than the capacity is kept whole at the back after the newest part of the old window |
| Window.LastOfLast | app.py:128 | the newest 30 of the trimmed window are the newest 30 of the untrimmed one |
| Window.LastAppendLast | app.py:125-127 | trimming before the next append does not change the window after the next trim |
| Window.ReplayIsLastOfHistory | app.py:122-128 | after any sequence of polls from empty, the window equals the newest `cap` records ever appended, in their original order |
| Window.ReplayExample | app.py:125-127 | capacity 5, two batches of 3: the window is the last 5 of the 6 records |
| TradeApi.Served | app.py:128 | `lst[-30:]` returns min(30, length) records and equals the newest 30 of the list |
| TradeApi.KeptWellFormed | app.py:125-127 | when every record of the old list and of the batch is well-formed, every record of the appended and trimmed list is well-formed |
| TradeApi.ServedIsNewestOfHistory | app.py:122-128 | a poll serves the newest 30 records generated for that coin so far |
| TradeApi.Monitor.constructor | app.py:14 | both lists start empty |
| TradeApi.Monitor.ApiBtcTrades | app.py:122-128 | the BTC list becomes old + batch trimmed to 600; the view is its newest 30; the HBAR list is unchanged; the capacity and well-formedness invariant is kept |
| TradeApi.Monitor.ApiHbarTrades | app.py:130-136 | the HBAR list becomes old + batch trimmed to 600; the view is its newest 30; the BTC list is unchanged; the invariant is kept |
| TradeApi.PollBoth | app.py:122-136 | an example of three polls from a fresh start (BTC, HBAR, BTC): each list holds exactly its own coin's batches; the general fact that one route leaves the other list unchanged is in the two route contracts |

## Left out

- `api_price`, `api_news`, `api_economics` (app.py:66-120): HTTP and RSS pass-throughs to CoinGecko, Cointelegraph and TradingEconomics that read environment variables. They are foreign calls and I/O.
- `get_kst_time` (app.py:20-21): it reads the wall clock in the Asia/Seoul zone. The model takes the timestamp as an uninterpreted `now` string.
- `random.randint`, `random.uniform`, `random.choice`: these are replaced by the caller-supplied `draws`. The preconditions constrain the draws to the values the source can produce. The model does not capture the distribution.
- Float rounding (`round(..., 2)`): amounts are exact integers in hundredths. The label comparisons give the same answers on those values.
- Flask routing, `render_template`, `jsonify` and the server start (app.py:2, app.py:62-64, app.py:138-140). The served view is returned as a `seq<Trade>`, not serialised to JSON.
- Concurrency around the shared lists: the source has no locking, and requests are modelled as running one at a time.
- The `coin` argument of `generate_mock_trades` (app.py:23-44) is a string that defaults to `"btc"`; any value other than `"hbar"` takes the BTC amount range and labels. The model's two-value `Coin` type drops the default and this fallback. Nothing is lost for the two routes, which pass `"btc"` and `"hbar"` explicitly (app.py:124, app.py:132).
