/**
 * Choosing which missile to track. The agent orders every enemy missile by
 * squared distance (a stable sort) and takes the first one strictly inside the
 * search radius. `NearestIndex` is an independent definition of the intended
 * choice (the earliest missile at minimal distance), and `SearchForTarget` is
 * proved to agree with it.
 */
module Targeting {

  import opened Wrappers
  import opened Geometry

  const SEARCH_RADIUS: real := 6.0

  /**
   * An enemy missile as the agent sees it: where it is, and the heading in
   * degrees, in [0, 360), of its rotating child object when it has one.
   */
  datatype Missile = Missile(position: Point, childHeading: Option<real>)

  predicate ValidMissile(m: Missile) {
    m.childHeading.Some? ==> 0.0 <= m.childHeading.value < 360.0
  }

  /** Squared distance from the agent at `origin` to missile `m`. */
  function DistanceSqr(origin: Point, m: Missile): (d: real)
    ensures d >= 0.0
    ensures m.position == origin ==> d == 0.0
  {
    SqrDistance(m.position, origin)
  }

  /** The strict in-range test of the search: inside the circle, not on it. */
  predicate InRange(origin: Point, m: Missile)
    ensures InRange(origin, m) ==>
      && -SEARCH_RADIUS < m.position.x - origin.x < SEARCH_RADIUS
      && -SEARCH_RADIUS < m.position.y - origin.y < SEARCH_RADIUS
  {
    if DistanceSqr(origin, m) < SEARCH_RADIUS * SEARCH_RADIUS then
      AxisOffsetsWithinRadius(m.position, origin, SEARCH_RADIUS);
      true
    else
      false
  }

  predicate Sorted(origin: Point, s: seq<Missile>) {
    forall i, j :: 0 <= i < j < |s| ==> DistanceSqr(origin, s[i]) <= DistanceSqr(origin, s[j])
  }

  predicate AllAtLeast(origin: Point, bound: real, s: seq<Missile>) {
    forall i :: 0 <= i < |s| ==> bound <= DistanceSqr(origin, s[i])
  }

  /**
   * Inserts `m` into `sorted` ahead of every missile that is not nearer, so
   * that `m` stays ahead of later missiles at the same distance.
   */
  function InsertByDistance(origin: Point, m: Missile, sorted: seq<Missile>): (r: seq<Missile>)
    ensures |r| == |sorted| + 1
    ensures multiset(r) == multiset(sorted) + multiset{m}
  {
    if sorted == [] || DistanceSqr(origin, m) <= DistanceSqr(origin, sorted[0]) then
      [m] + sorted
    else
      assert sorted == [sorted[0]] + sorted[1..];
      [sorted[0]] + InsertByDistance(origin, m, sorted[1..])
  }

  /** LINQ's `OrderBy` on squared distance: a stable insertion sort. */
  function OrderByDistance(origin: Point, missiles: seq<Missile>): (r: seq<Missile>)
    ensures |r| == |missiles|
    ensures multiset(r) == multiset(missiles)
  {
    if missiles == [] then []
    else
      assert missiles == [missiles[0]] + missiles[1..];
      InsertByDistance(origin, missiles[0], OrderByDistance(origin, missiles[1..]))
  }

  /** LINQ's `FirstOrDefault` with the in-range test: the first in-range element, if any. */
  function FirstInRange(origin: Point, s: seq<Missile>): (r: Option<Missile>)
    ensures r.None? <==> forall i :: 0 <= i < |s| ==> !InRange(origin, s[i])
    ensures r.Some? ==> r.value in s && InRange(origin, r.value)
  {
    if s == [] then None
    else if InRange(origin, s[0]) then Some(s[0])
    else FirstInRange(origin, s[1..])
  }

  /** What `FirstInRange` finds is in range and every element before it is not. */
  lemma {:induction false} FirstInRangeIsFirst(origin: Point, s: seq<Missile>)
    requires FirstInRange(origin, s).Some?
    ensures exists i :: 0 <= i < |s| && s[i] == FirstInRange(origin, s).value
              && forall j :: 0 <= j < i ==> !InRange(origin, s[j])
  {
    if !InRange(origin, s[0]) {
      FirstInRangeIsFirst(origin, s[1..]);
      var i :| 0 <= i < |s[1..]| && s[1..][i] == FirstInRange(origin, s[1..]).value
               && forall j :: 0 <= j < i ==> !InRange(origin, s[1..][j]);
      assert s[i + 1] == FirstInRange(origin, s).value;
      forall j | 0 <= j < i + 1
        ensures !InRange(origin, s[j])
      {
        if j > 0 {
          assert s[j] == s[1..][j - 1];
        }
      }
    } else {
      assert s[0] == FirstInRange(origin, s).value;
    }
  }

  /**
   * Reference definition of the intended target: the index of the earliest
   * missile at minimal squared distance.
   */
  function NearestIndex(origin: Point, missiles: seq<Missile>): (i: nat)
    requires missiles != []
    ensures i < |missiles|
    ensures forall j :: 0 <= j < |missiles| ==> DistanceSqr(origin, missiles[i]) <= DistanceSqr(origin, missiles[j])
    ensures forall j :: 0 <= j < i ==> DistanceSqr(origin, missiles[i]) < DistanceSqr(origin, missiles[j])
  {
    if |missiles| == 1 then 0
    else
      var k := NearestIndex(origin, missiles[1..]);
      if DistanceSqr(origin, missiles[0]) <= DistanceSqr(origin, missiles[1 + k]) then 0 else 1 + k
  }

  /** The element that the sort puts first is the earliest nearest missile. */
  lemma {:induction false} OrderByDistanceHead(origin: Point, missiles: seq<Missile>)
    requires missiles != []
    ensures OrderByDistance(origin, missiles)[0] == missiles[NearestIndex(origin, missiles)]
  {
    if |missiles| > 1 {
      OrderByDistanceHead(origin, missiles[1..]);
    }
  }

  lemma {:induction false} InsertKeepsLowerBound(origin: Point, bound: real, m: Missile, sorted: seq<Missile>)
    requires bound <= DistanceSqr(origin, m) && AllAtLeast(origin, bound, sorted)
    ensures AllAtLeast(origin, bound, InsertByDistance(origin, m, sorted))
  {
    if sorted != [] && DistanceSqr(origin, m) > DistanceSqr(origin, sorted[0]) {
      InsertKeepsLowerBound(origin, bound, m, sorted[1..]);
    }
  }

  lemma {:induction false} InsertKeepsSorted(origin: Point, m: Missile, sorted: seq<Missile>)
    requires Sorted(origin, sorted)
    ensures Sorted(origin, InsertByDistance(origin, m, sorted))
  {
    if sorted != [] && DistanceSqr(origin, m) > DistanceSqr(origin, sorted[0]) {
      InsertKeepsSorted(origin, m, sorted[1..]);
      InsertKeepsLowerBound(origin, DistanceSqr(origin, sorted[0]), m, sorted[1..]);
    }
  }

  /** `OrderByDistance` returns its input in ascending order of squared distance. */
  lemma {:induction false} OrderByDistanceSorted(origin: Point, missiles: seq<Missile>)
    ensures Sorted(origin, OrderByDistance(origin, missiles))
  {
    if missiles != [] {
      OrderByDistanceSorted(origin, missiles[1..]);
      InsertKeepsSorted(origin, missiles[0], OrderByDistance(origin, missiles[1..]));
    }
  }

  /**
   * The missile to track: the nearest one ahead in sort order that is
   * strictly inside the search radius, or none.
   */
  function SearchForTarget(origin: Point, missiles: seq<Missile>): (r: Option<Missile>)
    ensures r.None? <==> forall i :: 0 <= i < |missiles| ==> !InRange(origin, missiles[i])
    ensures r.Some? ==> missiles != [] && r.value == missiles[NearestIndex(origin, missiles)]
    ensures r.Some? ==> InRange(origin, r.value)
  {
    var sorted := OrderByDistance(origin, missiles);
    var r := FirstInRange(origin, sorted);
    if missiles != [] then
      OrderByDistanceHead(origin, missiles);
      OrderByDistanceSorted(origin, missiles);
      assert r.Some? ==> r.value == sorted[0];
      SameElementsInRange(origin, sorted, missiles);
      r
    else
      r
  }

  lemma SameElementsInRange(origin: Point, a: seq<Missile>, b: seq<Missile>)
    requires multiset(a) == multiset(b)
    ensures (exists i :: 0 <= i < |a| && InRange(origin, a[i]))
        <==> (exists i :: 0 <= i < |b| && InRange(origin, b[i]))
  {
    if i :| 0 <= i < |a| && InRange(origin, a[i]) {
      assert a[i] in multiset(b);
    }
    if i :| 0 <= i < |b| && InRange(origin, b[i]) {
      assert b[i] in multiset(a);
    }
  }
}
