/**
 * The nearest-sample lookup the replay page runs when the chart is clicked:
 * a linear scan over the sample timestamps (milliseconds since the epoch)
 * that keeps the first sample whose distance to the clicked time is smallest.
 */
module Nearest {

  /** Distance between two instants, `Math.abs(a - b)` on millisecond values. */
  function Dist(a: int, b: int): (d: nat)
    ensures d == a - b || d == b - a
  {
    if a >= b then a - b else b - a
  }

  /**
   * `k` is the first index of `ts` whose timestamp is closest to `target`:
   * no sample is strictly closer, and every earlier sample is strictly farther.
   */
  predicate IsClosest(ts: seq<int>, target: int, k: int)
  {
    0 <= k < |ts| &&
    (forall i :: 0 <= i < |ts| ==> Dist(target, ts[k]) <= Dist(target, ts[i])) &&
    (forall i :: 0 <= i < k ==> Dist(target, ts[k]) < Dist(target, ts[i]))
  }

  /**
   * Reference definition, by recursion on the tail: the head wins when it is
   * at least as close as the best sample of the tail.
   */
  function Closest(ts: seq<int>, target: int): (k: nat)
    requires |ts| > 0
    ensures IsClosest(ts, target, k)
    decreases |ts|
  {
    if |ts| == 1 then 0
    else
      var j := 1 + Closest(ts[1..], target);
      assert forall i :: 1 <= i < |ts| ==> ts[i] == ts[1..][i - 1];
      if Dist(target, ts[0]) <= Dist(target, ts[j]) then 0 else j
  }

  /** At most one index is the first closest one. */
  lemma ClosestIsUnique(ts: seq<int>, target: int, k1: int, k2: int)
    requires IsClosest(ts, target, k1) && IsClosest(ts, target, k2)
    ensures k1 == k2
  {
    // each is at least as close as the other, so neither can lie strictly before the other
    assert Dist(target, ts[k1]) == Dist(target, ts[k2]);
  }

  /** The value `findClosestTimestampIndex` returns, as a function: -1 when there is no sample. */
  function ClosestTimestampIndex(ts: seq<int>, target: int): (r: int)
    ensures r == -1 <==> |ts| == 0
    ensures |ts| > 0 ==> IsClosest(ts, target, r)
  {
    if |ts| == 0 then -1 else Closest(ts, target)
  }

  /**
   * `findClosestTimestampIndex`: -1 for an empty series, otherwise the first
   * index whose timestamp is nearest to `target` (a later sample replaces the
   * current best only when it is strictly closer).
   */
  method FindClosestTimestampIndex(ts: seq<int>, target: int) returns (r: int)
    ensures r == -1 <==> |ts| == 0
    ensures |ts| > 0 ==> IsClosest(ts, target, r)
    ensures r == ClosestTimestampIndex(ts, target)
  {
    if |ts| == 0 {
      return -1;
    }
    var closestIndex := 0;
    var minDiff := Dist(target, ts[0]);
    var i := 1;
    while i < |ts|
      invariant 1 <= i <= |ts|
      invariant 0 <= closestIndex < i
      invariant minDiff == Dist(target, ts[closestIndex])
      invariant forall j :: 0 <= j < i ==> minDiff <= Dist(target, ts[j])
      invariant forall j :: 0 <= j < closestIndex ==> minDiff < Dist(target, ts[j])
    {
      var diff := Dist(target, ts[i]);
      if diff < minDiff {
        minDiff := diff;
        closestIndex := i;
      }
      i := i + 1;
    }
    r := closestIndex;
    ClosestIsUnique(ts, target, r, Closest(ts, target));
  }

  /** A click exactly halfway between two samples selects the earlier one. */
  lemma {:induction false} MidpointGoesToEarlier(ts: seq<int>, i: nat, j: nat)
    requires i < j < |ts|
    requires ts[i] < ts[j] && (ts[i] + ts[j]) % 2 == 0
    requires forall k :: 0 <= k < |ts| ==> k == i || k == j || Dist((ts[i] + ts[j]) / 2, ts[k]) > (ts[j] - ts[i]) / 2
    ensures Closest(ts, (ts[i] + ts[j]) / 2) == i
  {
    var m := (ts[i] + ts[j]) / 2;
    var k := Closest(ts, m);
    assert Dist(m, ts[i]) == Dist(m, ts[j]) == (ts[j] - ts[i]) / 2;
    assert Dist(m, ts[k]) <= Dist(m, ts[i]);
  }
}
