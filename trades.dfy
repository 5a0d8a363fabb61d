/** Synthetic whale-trade records: the size label of an amount, the buy/sell
    label of a destination wallet, and the generator of one batch.
    Amounts are integers in hundredths of a coin (the generator rounds to two
    decimal places), so 1 BTC is 100 and 1000 HBAR is 100000. The random
    draws of the generator (batch size, amounts, wallets) and the clock are
    supplied by the caller. */
module Trades {
  import Buckets

  datatype Coin = Btc | Hbar

  /** One generated record; the fields are the keys "time", "from", "to",
      "amount", "type" and "direction" of the served JSON object. */
  datatype Trade = Trade(
    time: string,
    fromAddr: string,
    toAddr: string,
    amount: int,
    typeLabel: string,
    direction: string)

  /** The random choices behind one record. */
  datatype Draw = Draw(amount: int, fromAddr: string, toAddr: string)

  const ExchangeAddresses: set<string> := {"binance_wallet", "upbit_wallet", "coinbase_wallet"}
  const UserWallet: string := "user_wallet"
  /** Sender and receiver are both drawn from the exchanges plus the user wallet. */
  const Wallets: set<string> := ExchangeAddresses + {UserWallet}

  const Sell: string := "매도"
  const Buy: string := "매수"

  const MinBatch: nat := 5
  const MaxBatch: nat := 10

  /** Smallest and largest amount the generator draws, in hundredths:
      0.05 to 300 BTC, 0.05 to 300000 HBAR. */
  const MinAmount: int := 5
  function MaxAmount(coin: Coin): int {
    match coin
    case Btc => 30000
    case Hbar => 30000000
  }

  /** The three cut points of each coin, in hundredths: 1, 10, 100 BTC and
      1000, 10000, 100000 HBAR. */
  function Thresholds(coin: Coin): (ts: seq<int>)
    ensures |ts| == 3 && Buckets.Ascending(ts)
  {
    match coin
    case Btc => [100, 1000, 10000]
    case Hbar => [100000, 1000000, 10000000]
  }

  /** The four labels of each coin, lowest bucket first. */
  function Labels(coin: Coin): (ls: seq<string>)
    ensures |ls| == 4
    ensures forall i, j :: 0 <= i < j < 4 ==> ls[i] != ls[j]
  {
    match coin
    case Btc => ["0-1", "1-10", "10-100", "100+"]
    case Hbar => ["0-1K", "1K-10K", "10K-100K", "100K+"]
  }

  /** The size label, written as the generator's if/elif chains. */
  function TypeLabel(coin: Coin, amount: int): string {
    if coin == Hbar then
      if amount < 100000 then "0-1K"
      else if amount < 1000000 then "1K-10K"
      else if amount < 10000000 then "10K-100K"
      else "100K+"
    else
      if amount < 100 then "0-1"
      else if amount < 1000 then "1-10"
      else if amount < 10000 then "10-100"
      else "100+"
  }

  /** The chains are the threshold rule over the coin's cut points. */
  lemma TypeLabelIsBucketLabel(coin: Coin, amount: int)
    ensures TypeLabel(coin, amount) == Labels(coin)[Buckets.Bucket(Thresholds(coin), amount)]
  {
    var ts := Thresholds(coin);
    var t1, t2, t3 := ts[1..], ts[1..][1..], ts[1..][1..][1..];
    assert t1[0] == ts[1] && t2[0] == ts[2] && t3 == [];
    assert Buckets.Bucket(t3, amount) == 0;
    assert Buckets.Bucket(t2, amount) == if amount < ts[2] then 0 else 1;
    assert Buckets.Bucket(t1, amount) == if amount < ts[1] then 0 else if amount < ts[2] then 1 else 2;
  }

  /** Every amount gets exactly one of the four labels, the one whose range
      contains it. */
  lemma TypeLabelPartition(coin: Coin, amount: int, i: nat)
    requires i < 4
    ensures TypeLabel(coin, amount) in Labels(coin)
    ensures TypeLabel(coin, amount) == Labels(coin)[i] <==> Buckets.InBucket(Thresholds(coin), i, amount)
  {
    TypeLabelIsBucketLabel(coin, amount);
    Buckets.BucketIff(Thresholds(coin), i, amount);
  }

  /** The bucket index of the label never decreases as the amount grows. */
  lemma TypeLabelMonotone(coin: Coin, a: int, b: int)
    requires a <= b
    ensures exists i, j ::
      0 <= i <= j < 4 && TypeLabel(coin, a) == Labels(coin)[i] && TypeLabel(coin, b) == Labels(coin)[j]
  {
    var ts := Thresholds(coin);
    TypeLabelIsBucketLabel(coin, a);
    TypeLabelIsBucketLabel(coin, b);
    Buckets.BucketMonotone(ts, a, b);
    var i, j := Buckets.Bucket(ts, a), Buckets.Bucket(ts, b);
    assert TypeLabel(coin, a) == Labels(coin)[i] && TypeLabel(coin, b) == Labels(coin)[j];
  }

  /** The boundary cases of the BTC chain: 0.99, 1.00 and 100.00 BTC. */
  lemma BtcLabelExamples()
    ensures TypeLabel(Btc, 99) == "0-1"
    ensures TypeLabel(Btc, 100) == "1-10"
    ensures TypeLabel(Btc, 10000) == "100+"
  {
  }

  /** "Sell" when the receiver is an exchange wallet, "buy" otherwise. */
  function Direction(toAddr: string): (d: string)
    ensures d == Sell || d == Buy
  {
    if toAddr in ExchangeAddresses then Sell else Buy
  }

  /** The direction is a sell exactly for the three exchange wallets, and a
      transfer to the user wallet is a buy. */
  lemma DirectionIsSellIff(toAddr: string)
    ensures Direction(toAddr) == Sell <==>
      toAddr == "binance_wallet" || toAddr == "upbit_wallet" || toAddr == "coinbase_wallet"
    ensures Direction(UserWallet) == Buy
  {
  }

  /** A draw the generator can make for `coin`. */
  predicate ValidDraw(coin: Coin, d: Draw) {
    MinAmount <= d.amount <= MaxAmount(coin) && d.fromAddr in Wallets && d.toAddr in Wallets
  }

  /** The record built from one draw at time `now`. */
  function MakeTrade(coin: Coin, now: string, d: Draw): Trade {
    Trade(now, d.fromAddr, d.toAddr, d.amount, TypeLabel(coin, d.amount), Direction(d.toAddr))
  }

  /** A record of `coin` is consistent: its labels are those of its amount
      and receiver, and its amount and wallets are ones the generator draws. */
  predicate WellFormed(coin: Coin, t: Trade) {
    MinAmount <= t.amount <= MaxAmount(coin) &&
    t.fromAddr in Wallets && t.toAddr in Wallets &&
    t.typeLabel == TypeLabel(coin, t.amount) &&
    t.direction == Direction(t.toAddr)
  }

  /** The direction of a record depends on its receiver alone, not on the
      sender, the amount, the coin or the time. */
  lemma DirectionOnlyFromReceiver(coin: Coin, coin': Coin, now: string, now': string, d: Draw, d': Draw)
    requires d.toAddr == d'.toAddr
    ensures MakeTrade(coin, now, d).direction == MakeTrade(coin', now', d').direction
  {
  }

  /** The batch built from the draws, one record per draw, in draw order. */
  function Batch(coin: Coin, now: string, draws: seq<Draw>): seq<Trade> {
    if draws == [] then []
    else [MakeTrade(coin, now, draws[0])] + Batch(coin, now, draws[1..])
  }

  /** A batch has one record per draw. */
  lemma {:induction false} BatchLength(coin: Coin, now: string, draws: seq<Draw>)
    ensures |Batch(coin, now, draws)| == |draws|
  {
    if draws != [] {
      BatchLength(coin, now, draws[1..]);
    }
  }

  /** Record `i` of a batch is built from draw `i`. */
  lemma {:induction false} BatchAt(coin: Coin, now: string, draws: seq<Draw>, i: nat)
    requires i < |draws|
    ensures |Batch(coin, now, draws)| == |draws|
    ensures Batch(coin, now, draws)[i] == MakeTrade(coin, now, draws[i])
  {
    if i > 0 {
      BatchAt(coin, now, draws[1..], i - 1);
    } else if |draws| > 1 {
      BatchAt(coin, now, draws[1..], 0);
    }
  }

  /** The batch of a prefix grows by one record per further draw. */
  lemma {:induction false} BatchSnoc(coin: Coin, now: string, draws: seq<Draw>, d: Draw)
    ensures Batch(coin, now, draws + [d]) == Batch(coin, now, draws) + [MakeTrade(coin, now, d)]
  {
    if draws != [] {
      assert (draws + [d])[1..] == draws[1..] + [d];
      BatchSnoc(coin, now, draws[1..], d);
    }
  }

  /** The generator's loop: one record per draw, all stamped with the same
      time, in the order drawn, each well-formed. */
  method GenerateMockTrades(coin: Coin, now: string, draws: seq<Draw>) returns (trades: seq<Trade>)
    requires MinBatch <= |draws| <= MaxBatch
    requires forall k :: 0 <= k < |draws| ==> ValidDraw(coin, draws[k])
    ensures trades == Batch(coin, now, draws)
    ensures MinBatch <= |trades| <= MaxBatch && |trades| == |draws|
    ensures forall k :: 0 <= k < |trades| ==> trades[k] == MakeTrade(coin, now, draws[k])
    ensures forall k :: 0 <= k < |trades| ==> trades[k].time == now && WellFormed(coin, trades[k])
  {
    trades := [];
    var i := 0;
    while i < |draws|
      invariant 0 <= i <= |draws|
      invariant trades == Batch(coin, now, draws[..i])
      invariant |trades| == i
      invariant forall k :: 0 <= k < i ==> trades[k] == MakeTrade(coin, now, draws[k])
    {
      BatchSnoc(coin, now, draws[..i], draws[i]);
      assert draws[..i + 1] == draws[..i] + [draws[i]];
      trades := trades + [MakeTrade(coin, now, draws[i])];
      i := i + 1;
    }
    assert draws[..i] == draws;
  }
}
