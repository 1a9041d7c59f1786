/**
 * Coordinates and the distance accumulated between consecutive samples.
 *
 * The journey page adds the haversine great-circle distance (in km, on a sphere
 * of radius 6 371 000 m) between each pair of consecutive samples. The model
 * does not compute it: the distance is a function value `dist` of which only
 * two facts are assumed, that it is never negative and that it is 0 between a
 * point and itself (both hold of the haversine formula, whose central angle is
 * 2·atan2(√a, √(1−a)) with a ≥ 0, and a = 0 when Δφ = Δλ = 0).
 */
module Geo {
  import opened Wrappers

  /** A (latitude, longitude) pair as delivered by the position watch. */
  datatype Coord = Coord(lat: real, lng: real)

  /** The distance in km between two samples. */
  type Distance = (Coord, Coord) -> real

  ghost predicate IsDistance(dist: Distance) {
    forall a, b :: dist(a, b) >= 0.0 && (a == b ==> dist(a, b) == 0.0)
  }

  /** Sum of the distances between neighbouring points of `ps`. */
  function PathLength(dist: Distance, ps: seq<Coord>): real {
    if |ps| < 2 then 0.0 else dist(ps[0], ps[1]) + PathLength(dist, ps[1..])
  }

  /**
   * Distance accumulated when the samples `ps` arrive one after another and
   * `last` is the previously recorded point (`None`: nothing is added for the
   * first sample).
   */
  function Travelled(dist: Distance, last: Option<Coord>, ps: seq<Coord>): real
    decreases |ps|
  {
    if ps == [] then 0.0
    else
      (if last.Some? then dist(last.value, ps[0]) else 0.0) + Travelled(dist, Some(ps[0]), ps[1..])
  }

  lemma {:induction false} TravelledNonNegative(dist: Distance, last: Option<Coord>, ps: seq<Coord>)
    requires IsDistance(dist)
    ensures Travelled(dist, last, ps) >= 0.0
    decreases |ps|
  {
    if ps != [] {
      TravelledNonNegative(dist, Some(ps[0]), ps[1..]);
    }
  }

  /** Starting from a recorded point `p0`, the accumulated distance is the length of the path `p0, ps`. */
  lemma {:induction false} TravelledFrom(dist: Distance, p0: Coord, ps: seq<Coord>)
    ensures Travelled(dist, Some(p0), ps) == PathLength(dist, [p0] + ps)
    decreases |ps|
  {
    if ps != [] {
      TravelledFrom(dist, ps[0], ps[1..]);
      assert [ps[0]] + ps[1..] == ps;
      assert ([p0] + ps)[1..] == ps;
    }
  }

  /** With no recorded point the first sample only becomes the recorded point. */
  lemma TravelledFromNothing(dist: Distance, p: Coord, ps: seq<Coord>)
    ensures Travelled(dist, None, [p] + ps) == PathLength(dist, [p] + ps)
  {
    assert ([p] + ps)[1..] == ps;
    TravelledFrom(dist, p, ps);
  }

  /** A run of identical samples adds nothing. */
  lemma {:induction false} StandingStillAddsNothing(dist: Distance, p: Coord, n: nat)
    requires IsDistance(dist)
    ensures Travelled(dist, Some(p), seq(n, _ => p)) == 0.0
  {
    if n > 0 {
      assert seq(n, _ => p)[1..] == seq(n - 1, _ => p);
      StandingStillAddsNothing(dist, p, n - 1);
    }
  }
}
