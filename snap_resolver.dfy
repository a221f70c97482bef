/** The velocity-aware snap resolver, findNearestSnapPoint (BottomSheet.js, lines 65-87):
    a left-to-right scan for the nearest snap point, then a one-step bias when the release
    velocity is significant. */
module SnapResolver {

  function Abs(x: real): real { if x < 0.0 then -x else x }

  /** Distance between a position and a snap point, |a - b|. */
  function Dist(a: real, b: real): real { Abs(a - b) }

  /** Release speeds above this magnitude bias the result by one snap point. */
  const VelocityThreshold: real := 0.5

  /** The index the scan holds after examining points[..i]: a later point replaces the
      current one only when it is STRICTLY nearer, so the first of equally near points stays. */
  function NearestAmong(points: seq<real>, pos: real, i: nat): (k: nat)
    requires 0 < i <= |points|
    ensures k < i
  {
    if i == 1 then 0
    else
      var k := NearestAmong(points, pos, i - 1);
      if Dist(pos, points[i - 1]) < Dist(pos, points[k]) then i - 1 else k
  }

  /** The nearest snap point to `pos`, as the whole scan finds it. */
  function NearestIndex(points: seq<real>, pos: real): nat
    requires |points| > 0
  {
    NearestAmong(points, pos, |points|)
  }

  /** `k` is the lowest index among those of points[..i] at minimal distance from `pos`. */
  ghost predicate IsLowestNearest(points: seq<real>, pos: real, i: nat, k: nat)
    requires i <= |points|
  {
    k < i
    && (forall j :: 0 <= j < i ==> Dist(pos, points[k]) <= Dist(pos, points[j]))
    && (forall j :: 0 <= j < k ==> Dist(pos, points[k]) < Dist(pos, points[j]))
  }

  /** The one-step velocity bias: a significant positive velocity (a release moving toward
      the closed edge) moves one index toward 0, a significant negative one moves one index
      toward the last; at either end the index stays. */
  function BiasByVelocity(nearest: nat, velocity: real, n: nat): (r: nat)
    requires nearest < n
    ensures r < n
  {
    if Abs(velocity) > VelocityThreshold then
      if velocity > 0.0 && nearest > 0 then nearest - 1
      else if velocity < 0.0 && nearest < n - 1 then nearest + 1
      else nearest
    else nearest
  }

  /** The snap point a release at `pos` with `velocity` settles at. */
  function Resolve(points: seq<real>, pos: real, velocity: real): (r: nat)
    requires |points| > 0
    ensures r < |points|
  {
    BiasByVelocity(NearestIndex(points, pos), velocity, |points|)
  }

  /** findNearestSnapPoint itself: the scan loop and the bias, computed in place. */
  method FindNearestSnapPoint(points: seq<real>, currentPos: real, velocity: real) returns (nearestIndex: nat)
    requires |points| > 0
    ensures nearestIndex < |points|
    ensures nearestIndex == Resolve(points, currentPos, velocity)
  {
    nearestIndex := 0;
    var minDistance := Dist(currentPos, points[0]);
    var i := 1;
    while i < |points|
      invariant 1 <= i <= |points|
      invariant nearestIndex == NearestAmong(points, currentPos, i)
      invariant minDistance == Dist(currentPos, points[nearestIndex])
    {
      var distance := Dist(currentPos, points[i]);
      if distance < minDistance {
        minDistance := distance;
        nearestIndex := i;
      }
      i := i + 1;
    }
    if Abs(velocity) > VelocityThreshold {
      if velocity > 0.0 && nearestIndex > 0 {
        nearestIndex := nearestIndex - 1;
      } else if velocity < 0.0 && nearestIndex < |points| - 1 {
        nearestIndex := nearestIndex + 1;
      }
    }
  }

  /** The scan finds the lowest index among the nearest snap points. */
  lemma {:induction false} NearestAmongIsLowestNearest(points: seq<real>, pos: real, i: nat)
    requires 0 < i <= |points|
    ensures IsLowestNearest(points, pos, i, NearestAmong(points, pos, i))
  {
    if i > 1 {
      NearestAmongIsLowestNearest(points, pos, i - 1);
    }
  }

  /** Being the lowest nearest index characterises the scan's result exactly. */
  lemma NearestIndexCharacterised(points: seq<real>, pos: real, k: nat)
    requires |points| > 0
    ensures IsLowestNearest(points, pos, |points|, k) <==> k == NearestIndex(points, pos)
  {
    NearestAmongIsLowestNearest(points, pos, |points|);
  }

  /** Without a significant velocity the result is the lowest nearest snap point. */
  lemma SlowReleaseTakesNearest(points: seq<real>, pos: real, velocity: real)
    requires |points| > 0
    requires Abs(velocity) <= VelocityThreshold
    ensures IsLowestNearest(points, pos, |points|, Resolve(points, pos, velocity))
  {
    NearestAmongIsLowestNearest(points, pos, |points|);
  }

  /** The three cases of the velocity bias, relative to the unbiased nearest index. */
  lemma VelocityBias(points: seq<real>, pos: real, velocity: real)
    requires |points| > 0
    ensures var n := NearestIndex(points, pos);
      var r := Resolve(points, pos, velocity);
      (velocity > VelocityThreshold ==> r == if n == 0 then 0 else n - 1)
      && (velocity < -VelocityThreshold ==> r == if n == |points| - 1 then n else n + 1)
      && (-VelocityThreshold <= velocity <= VelocityThreshold ==> r == n)
  {
  }

  /** A significant positive velocity never moves the result above the nearest index,
      and a significant negative one never below it. */
  lemma BiasDirection(points: seq<real>, pos: real, velocity: real)
    requires |points| > 0
    ensures velocity > VelocityThreshold ==> Resolve(points, pos, velocity) <= NearestIndex(points, pos)
    ensures velocity < -VelocityThreshold ==> Resolve(points, pos, velocity) >= NearestIndex(points, pos)
  {
  }

  /** A release exactly on a snap point with no significant velocity settles there,
      provided the snap points are pairwise distinct. */
  lemma ExactMatchWins(points: seq<real>, i: nat, velocity: real)
    requires i < |points|
    requires forall a, b :: 0 <= a < b < |points| ==> points[a] != points[b]
    requires Abs(velocity) <= VelocityThreshold
    ensures Resolve(points, points[i], velocity) == i
  {
    var k := NearestIndex(points, points[i]);
    NearestAmongIsLowestNearest(points, points[i], |points|);
    assert Dist(points[i], points[k]) <= Dist(points[i], points[i]) == 0.0;
  }
}
