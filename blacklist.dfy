/** `MobBlacklist`: map positions to ignore for a few seconds after they proved
    to be ghosts or unreachable (script.py:136-155). */
module Blacklist {
  import opened Util

  /** A zone matches a query point closer than this. */
  const IgnoreRadius: int := 15
  /** Bounds of the random fade time drawn by `add_ignore`. */
  const MinFade: real := 8.0
  const MaxFade: real := 10.0

  datatype Zone = Zone(dx: int, dy: int, expire: real)

  /** `math.sqrt((tx - zx)**2 + (ty - zy)**2) < 15`, on squared integers. */
  predicate Near(z: Zone, dx: int, dy: int)
    ensures dx == z.dx && dy == z.dy ==> Near(z, dx, dy)
  {
    DistSq(dx - z.dx, dy - z.dy) < Sq(IgnoreRadius)
  }

  /** An offset of 15 or more along one axis alone puts a point out of radius. */
  lemma SquareOutside(e: int)
    ensures e * e >= 0
    ensures e >= IgnoreRadius || e <= -IgnoreRadius ==> e * e >= Sq(IgnoreRadius)
  {
    if e >= IgnoreRadius {
      assert e * e >= IgnoreRadius * e;
    } else if e <= -IgnoreRadius {
      assert e * e >= -IgnoreRadius * e;
    } else if e < 0 {
      assert e * e == (-e) * (-e);
    }
  }

  /** A near zone lies within 15 of the point along each axis. */
  lemma NearIsWithinRadius(z: Zone, dx: int, dy: int)
    requires Near(z, dx, dy)
    ensures -IgnoreRadius < dx - z.dx < IgnoreRadius && -IgnoreRadius < dy - z.dy < IgnoreRadius
  {
    SquareOutside(dx - z.dx);
    SquareOutside(dy - z.dy);
  }

  /** The loop of `is_ignored` over the surviving zones answers whether some
      zone is near the point, in whatever order the zones are kept. */
  predicate AnyNear(zones: seq<Zone>, dx: int, dy: int)
    ensures AnyNear(zones, dx, dy) <==> exists z :: z in zones && Near(z, dx, dy)
  {
    exists i :: 0 <= i < |zones| && Near(zones[i], dx, dy)
  }

  /** The cleanup comprehension of `is_ignored`: the zones that have not expired. */
  function Survivors(zones: seq<Zone>, now: real): (r: seq<Zone>)
    ensures |r| <= |zones|
    ensures forall z :: z in r <==> z in zones && z.expire > now
  {
    if zones == [] then []
    else (if zones[0].expire > now then [zones[0]] else []) + Survivors(zones[1..], now)
  }

  /** The cleanup keeps the surviving zones in their original order. */
  lemma {:induction false} SurvivorsKeepOrder(a: seq<Zone>, b: seq<Zone>, now: real)
    ensures Survivors(a + b, now) == Survivors(a, now) + Survivors(b, now)
  {
    if a != [] {
      assert (a + b)[1..] == a[1..] + b;
      SurvivorsKeepOrder(a[1..], b, now);
    } else {
      assert a + b == b;
    }
  }

  /** Cleaning up twice at the same time removes nothing more. */
  lemma {:induction false} SurvivorsIdempotent(zones: seq<Zone>, now: real)
    ensures Survivors(Survivors(zones, now), now) == Survivors(zones, now)
  {
    if zones != [] {
      SurvivorsIdempotent(zones[1..], now);
      var head := if zones[0].expire > now then [zones[0]] else [];
      SurvivorsKeepOrder(head, Survivors(zones[1..], now), now);
    }
  }

  /** Every query made less than `MinFade` seconds after `now` ignores (dx, dy). */
  ghost predicate StaysIgnored(zones: seq<Zone>, dx: int, dy: int, now: real) {
    forall later :: later < now + MinFade ==> AnyNear(Survivors(zones, later), dx, dy)
  }

  /** A zone added at `now` (it expires 8 to 10 s later) matches its own
      position in every query made less than 8 s later. */
  lemma AddedZoneIsIgnored(zones: seq<Zone>, dx: int, dy: int, now: real, fade: real)
    requires MinFade <= fade <= MaxFade
    ensures StaysIgnored(zones + [Zone(dx, dy, now + fade)], dx, dy, now)
  {
    var z := Zone(dx, dy, now + fade);
    forall later | later < now + MinFade
      ensures AnyNear(Survivors(zones + [z], later), dx, dy)
    {
      var r := Survivors(zones + [z], later);
      assert z in r;
      var i :| 0 <= i < |r| && r[i] == z;
      assert Near(r[i], dx, dy);
    }
  }

  /** Once every zone near a point has expired, the point is no longer ignored. */
  lemma ExpiredZonesAreForgotten(zones: seq<Zone>, dx: int, dy: int, now: real)
    requires forall z :: z in zones && Near(z, dx, dy) ==> z.expire <= now
    ensures !AnyNear(Survivors(zones, now), dx, dy)
  {
    var r := Survivors(zones, now);
    forall i | 0 <= i < |r| ensures !Near(r[i], dx, dy) {
      assert r[i] in r;
    }
  }

  class MobBlacklist {
    var ignoredZones: seq<Zone>

    constructor ()
      ensures ignoredZones == []
    {
      ignoredZones := [];
    }

    /** `add_ignore`: `fade` is the `random.uniform(8.0, 10.0)` draw. */
    method AddIgnore(dx: int, dy: int, now: real, fade: real)
      requires MinFade <= fade <= MaxFade
      modifies this
      ensures ignoredZones == old(ignoredZones) + [Zone(dx, dy, now + fade)]
    {
      ignoredZones := ignoredZones + [Zone(dx, dy, now + fade)];
    }

    /** `is_ignored`: drop the expired zones, then look for one near the point. */
    method IsIgnored(dx: int, dy: int, now: real) returns (ignored: bool)
      modifies this
      ensures ignoredZones == Survivors(old(ignoredZones), now)
      ensures ignored == AnyNear(ignoredZones, dx, dy)
    {
      ignoredZones := Survivors(ignoredZones, now);
      var i := 0;
      while i < |ignoredZones|
        invariant 0 <= i <= |ignoredZones|
        invariant forall j :: 0 <= j < i ==> !Near(ignoredZones[j], dx, dy)
      {
        var zone := ignoredZones[i];
        var dist := DistSq(dx - zone.dx, dy - zone.dy);
        if dist < Sq(IgnoreRadius) {
          return true;
        }
        i := i + 1;
      }
      return false;
    }
  }
}
