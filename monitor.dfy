/** The two trade routes and the process-wide lists they share. The lists
    `btc_trades` and `hbar_trades` become the fields of one `Monitor` object;
    each route generates a batch, extends its own list, trims the front to
    `MAX_POINTS * 10` records and serves the newest 30. */
module TradeApi {
  import opened Trades
  import Window

  const MaxPoints: nat := 60
  /** The retained size of each list. */
  const Capacity: nat := MaxPoints * 10
  /** How many of the newest records a poll serves. */
  const RecentCount: nat := 30

  /** The draws a route may be given: a batch of 5 to 10 draws for its coin. */
  predicate ValidDraws(coin: Coin, draws: seq<Draw>) {
    MinBatch <= |draws| <= MaxBatch &&
    forall k :: 0 <= k < |draws| ==> ValidDraw(coin, draws[k])
  }

  /** The records a poll serves: Python's `lst[-30:]`, which starts at
      len - 30 or at 0 when the list is shorter. */
  function Served(trades: seq<Trade>): (view: seq<Trade>)
    ensures |view| == Window.Min(RecentCount, |trades|)
    ensures view == Window.Last(trades, RecentCount)
  {
    var start := if |trades| >= RecentCount then |trades| - RecentCount else 0;
    trades[start..]
  }

  class Monitor {
    var btcTrades: seq<Trade>
    var hbarTrades: seq<Trade>

    /** Both lists are within capacity and hold only consistent records of
        their own coin. */
    ghost predicate Valid()
      reads this
    {
      |btcTrades| <= Capacity && |hbarTrades| <= Capacity &&
      (forall k :: 0 <= k < |btcTrades| ==> WellFormed(Btc, btcTrades[k])) &&
      (forall k :: 0 <= k < |hbarTrades| ==> WellFormed(Hbar, hbarTrades[k]))
    }

    /** At process start both lists are empty. */
    constructor ()
      ensures Valid() && btcTrades == [] && hbarTrades == []
    {
      btcTrades, hbarTrades := [], [];
    }

    /** `/api/btc_trades`: only the BTC list changes; it becomes the newest
        `Capacity` records of the old list followed by the new batch, and the
        served view is its newest 30 records. */
    method ApiBtcTrades(now: string, draws: seq<Draw>) returns (view: seq<Trade>)
      requires Valid() && ValidDraws(Btc, draws)
      modifies this`btcTrades
      ensures Valid()
      ensures btcTrades == Window.AppendTrim(old(btcTrades), Batch(Btc, now, draws), Capacity)
      ensures hbarTrades == old(hbarTrades)
      ensures view == Window.Last(btcTrades, RecentCount)
    {
      var trades := GenerateMockTrades(Btc, now, draws);
      ghost var before := btcTrades;
      btcTrades := btcTrades + trades;
      if |btcTrades| > Capacity {
        btcTrades := btcTrades[|btcTrades| - Capacity..];
      }
      KeptWellFormed(Btc, before, trades);
      view := Served(btcTrades);
    }

    /** `/api/hbar_trades`: the same update on the HBAR list alone. */
    method ApiHbarTrades(now: string, draws: seq<Draw>) returns (view: seq<Trade>)
      requires Valid() && ValidDraws(Hbar, draws)
      modifies this`hbarTrades
      ensures Valid()
      ensures hbarTrades == Window.AppendTrim(old(hbarTrades), Batch(Hbar, now, draws), Capacity)
      ensures btcTrades == old(btcTrades)
      ensures view == Window.Last(hbarTrades, RecentCount)
    {
      var trades := GenerateMockTrades(Hbar, now, draws);
      ghost var before := hbarTrades;
      hbarTrades := hbarTrades + trades;
      if |hbarTrades| > Capacity {
        hbarTrades := hbarTrades[|hbarTrades| - Capacity..];
      }
      KeptWellFormed(Hbar, before, trades);
      view := Served(hbarTrades);
    }
  }

  /** Appending and trimming keeps only records taken from the old window or
      the batch, so consistency of both carries over to the result. */
  lemma KeptWellFormed(coin: Coin, window: seq<Trade>, batch: seq<Trade>)
    requires forall k :: 0 <= k < |window| ==> WellFormed(coin, window[k])
    requires forall k :: 0 <= k < |batch| ==> WellFormed(coin, batch[k])
    ensures forall k :: 0 <= k < |Window.AppendTrim(window, batch, Capacity)| ==>
      WellFormed(coin, Window.AppendTrim(window, batch, Capacity)[k])
  {
  }

  /** The served view of a window is the newest 30 records of everything
      polled so far. */
  lemma ServedIsNewestOfHistory(batches: seq<seq<Trade>>)
    ensures Served(Window.Replay(batches, Capacity)) == Window.Last(Window.Flatten(batches), RecentCount)
  {
    Window.ReplayIsLastOfHistory(batches, Capacity);
    Window.LastOfLast(Window.Flatten(batches), Capacity, RecentCount);
  }

  /** A client of the two routes: polling BTC twice and HBAR once from a
      fresh start leaves each list holding exactly the batches of its coin. */
  method PollBoth(now: string, b1: seq<Draw>, b2: seq<Draw>, h: seq<Draw>) returns (m: Monitor)
    requires ValidDraws(Btc, b1) && ValidDraws(Btc, b2) && ValidDraws(Hbar, h)
    ensures m.Valid()
    ensures m.btcTrades == Batch(Btc, now, b1) + Batch(Btc, now, b2)
    ensures m.hbarTrades == Batch(Hbar, now, h)
  {
    m := new Monitor();
    var v1 := m.ApiBtcTrades(now, b1);
    var v2 := m.ApiHbarTrades(now, h);
    var v3 := m.ApiBtcTrades(now, b2);
    BatchLength(Btc, now, b1);
    BatchLength(Btc, now, b2);
    BatchLength(Hbar, now, h);
  }
}
