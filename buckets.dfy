/** The threshold rule behind the trade size labels.
    A list of cut points `ts` splits the integers into |ts| + 1 buckets; an
    amount falls into the first bucket whose upper cut point it is below,
    exactly as an `if amount < t1 ... elif amount < t2 ... else` chain does. */
module Buckets {

  /** The cut points are strictly ascending. */
  predicate Ascending(ts: seq<int>) {
    forall i, j :: 0 <= i < j < |ts| ==> ts[i] < ts[j]
  }

  /** Bucket `i` is the half-open range [ts[i-1], ts[i]), open below for
      the first bucket and open above for the last one. */
  predicate InBucket(ts: seq<int>, i: nat, a: int)
    requires i <= |ts|
  {
    (i == 0 || ts[i - 1] <= a) && (i == |ts| || a < ts[i])
  }

  /** The if/elif chain: the index of the first cut point above `a`, or |ts|
      when `a` is at or above all of them. */
  function Bucket(ts: seq<int>, a: int): (b: nat)
    ensures b <= |ts|
  {
    if ts == [] then 0
    else if a < ts[0] then 0
    else 1 + Bucket(ts[1..], a)
  }

  /** Every amount lands in the bucket whose range contains it. */
  lemma {:induction false} BucketInRange(ts: seq<int>, a: int)
    ensures InBucket(ts, Bucket(ts, a), a)
  {
    if ts != [] && a >= ts[0] {
      BucketInRange(ts[1..], a);
    }
  }

  /** With ascending cut points the ranges do not overlap. */
  lemma BucketRangesDisjoint(ts: seq<int>, i: nat, j: nat, a: int)
    requires Ascending(ts) && i <= |ts| && j <= |ts|
    requires InBucket(ts, i, a) && InBucket(ts, j, a)
    ensures i == j
  {
  }

  /** Partition: with ascending cut points an amount is in bucket `i` exactly
      when the chain picks `i`, so every amount gets exactly one bucket. */
  lemma BucketIff(ts: seq<int>, i: nat, a: int)
    requires Ascending(ts) && i <= |ts|
    ensures Bucket(ts, a) == i <==> InBucket(ts, i, a)
  {
    BucketInRange(ts, a);
    if InBucket(ts, i, a) {
      BucketRangesDisjoint(ts, i, Bucket(ts, a), a);
    }
  }

  /** A larger amount never lands in a lower bucket. */
  lemma {:induction false} BucketMonotone(ts: seq<int>, a: int, b: int)
    requires a <= b
    ensures Bucket(ts, a) <= Bucket(ts, b)
  {
    if ts != [] && a >= ts[0] {
      BucketMonotone(ts[1..], a, b);
    }
  }
}
