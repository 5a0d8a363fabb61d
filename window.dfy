/** The rolling trade window as values: a capped, insertion-ordered sequence
    that grows at the back and is trimmed at the front. */
module Window {

  function Min(a: int, b: int): int { if a <= b then a else b }

  /** The newest `n` elements of `s` (all of `s` when it is shorter), in
      their order in `s`. */
  function Last<T>(s: seq<T>, n: nat): seq<T> {
    if |s| <= n then s else s[|s| - n..]
  }

  /** `Last` keeps min(n, |s|) elements and they are a suffix of `s`:
      what it drops is a prefix. */
  lemma LastIsSuffix<T>(s: seq<T>, n: nat)
    ensures |Last(s, n)| == Min(n, |s|)
    ensures s == s[..|s| - |Last(s, n)|] + Last(s, n)
  {
  }

  /** Element `i` of the kept part is element `i + dropped` of `s`. */
  lemma LastAt<T>(s: seq<T>, n: nat, i: nat)
    requires i < |Last(s, n)|
    ensures Last(s, n)[i] == s[|s| - |Last(s, n)| + i]
  {
  }

  /** One poll's update of a window: append the batch, then trim the front
      back to `cap`. */
  function AppendTrim<T>(window: seq<T>, batch: seq<T>, cap: nat): seq<T> {
    Last(window + batch, cap)
  }

  /** The window never exceeds its capacity; below capacity nothing is
      evicted, above it exactly the newest `cap` elements remain. */
  lemma AppendTrimBound<T>(window: seq<T>, batch: seq<T>, cap: nat)
    ensures |AppendTrim(window, batch, cap)| <= cap
    ensures |window| + |batch| <= cap ==> AppendTrim(window, batch, cap) == window + batch
    ensures |window| + |batch| > cap ==>
      |AppendTrim(window, batch, cap)| == cap &&
      AppendTrim(window, batch, cap) == (window + batch)[|window| + |batch| - cap..]
  {
  }

  /** FIFO eviction: a batch no larger than the capacity is kept whole at the
      back, and only the oldest part of the previous window is dropped. */
  lemma AppendTrimEvictsOldest<T>(window: seq<T>, batch: seq<T>, cap: nat)
    requires |batch| <= cap
    ensures AppendTrim(window, batch, cap) == Last(window, cap - |batch|) + batch
  {
  }

  /** Reading the newest `n` of the newest `m >= n` is reading the newest `n`. */
  lemma LastOfLast<T>(s: seq<T>, m: nat, n: nat)
    requires n <= m
    ensures Last(Last(s, m), n) == Last(s, n)
  {
  }

  /** Trimming before appending more changes nothing once the result is
      trimmed again. */
  lemma LastAppendLast<T>(s: seq<T>, b: seq<T>, cap: nat)
    ensures Last(Last(s, cap) + b, cap) == Last(s + b, cap)
  {
  }

  /** Everything appended so far, oldest batch first. */
  function Flatten<T>(batches: seq<seq<T>>): seq<T> {
    if batches == [] then []
    else Flatten(batches[..|batches| - 1]) + batches[|batches| - 1]
  }

  /** The window after polling the batches one by one, from empty. */
  function Replay<T>(batches: seq<seq<T>>, cap: nat): seq<T> {
    if batches == [] then []
    else AppendTrim(Replay(batches[..|batches| - 1], cap), batches[|batches| - 1], cap)
  }

  /** Over any sequence of polls the window is exactly the newest `cap`
      records ever appended, in their original order. */
  lemma {:induction false} ReplayIsLastOfHistory<T>(batches: seq<seq<T>>, cap: nat)
    ensures Replay(batches, cap) == Last(Flatten(batches), cap)
  {
    if batches != [] {
      var init, b := batches[..|batches| - 1], batches[|batches| - 1];
      ReplayIsLastOfHistory(init, cap);
      LastAppendLast(Flatten(init), b, cap);
    }
  }

  /** Capacity 5, two batches of 3: the window holds the last 5 of the 6
      records, the first one dropped. */
  lemma ReplayExample<T>(r1: T, r2: T, r3: T, r4: T, r5: T, r6: T)
    ensures Replay([[r1, r2, r3], [r4, r5, r6]], 5) == [r2, r3, r4, r5, r6]
  {
  }
}
