/** Target selection: the nearest-candidate loops of `get_map_target` and
    `get_screen_target`, the screen-over-map priority, and the keys that
    pursue the chosen target (script.py:26-33, 263-332, 412-427, 464-533). */
module Targeting {
  import opened Util
  import opened Keys
  import opened Blacklist

  /** "Nothing found" distance, and the bound below which a detection counts. */
  const Sentinel: int := 9999
  const PresentBelow: int := 9000
  /** Offsets within this many pixels on an axis do not move the bot on that axis. */
  const DeadZone: int := 5

  const ScreenCombatRange: int := 80
  const ScreenAnchorRange: int := 35
  const MapCombatRange: int := 12
  const MapAnchorRange: int := 6

  /** A candidate's offset from the detector's centre. */
  datatype Offset = Offset(dx: int, dy: int)

  /** What a detector returns: the offset and squared distance of the chosen
      candidate, or `NoDetection`. */
  datatype Detection = Detection(dx: int, dy: int, distSq: int) {
    predicate Present()
      ensures Present() ==> this != NoDetection && distSq < Sq(Sentinel)
    {
      distSq < Sq(PresentBelow)
    }
  }

  const NoDetection: Detection := Detection(0, 0, Sq(Sentinel))

  function OffsetDistSq(c: Offset): int {
    DistSq(c.dx, c.dy)
  }

  /** The candidate the selection loop keeps, taking the candidates in order:
      one strictly nearer than the best so far (initially the sentinel)
      replaces it. */
  function Nearest(cands: seq<Offset>): (r: Detection)
    ensures r == NoDetection ||
            (Offset(r.dx, r.dy) in cands && r.distSq == DistSq(r.dx, r.dy) < Sq(Sentinel))
  {
    if cands == [] then NoDetection
    else
      var prefix := cands[..|cands| - 1];
      var prev := Nearest(prefix);
      var c := cands[|cands| - 1];
      assert cands == prefix + [c];
      if OffsetDistSq(c) < prev.distSq then Detection(c.dx, c.dy, OffsetDistSq(c))
      else prev
  }

  lemma NearestExtend(prefix: seq<Offset>, c: Offset)
    ensures Nearest(prefix + [c]) ==
              if OffsetDistSq(c) < Nearest(prefix).distSq then Detection(c.dx, c.dy, OffsetDistSq(c))
              else Nearest(prefix)
  {
    assert (prefix + [c])[..|prefix|] == prefix;
  }

  /** No candidate is nearer than the one kept (nor than the sentinel, when
      none is kept). */
  lemma {:induction false} NearestIsClosest(cands: seq<Offset>)
    ensures forall c :: c in cands ==> Nearest(cands).distSq <= OffsetDistSq(c)
  {
    if cands != [] {
      var prefix := cands[..|cands| - 1];
      var last := cands[|cands| - 1];
      NearestIsClosest(prefix);
      assert cands == prefix + [last];
      NearestExtend(prefix, last);
      var r := Nearest(cands);
      assert r.distSq <= Nearest(prefix).distSq && r.distSq <= OffsetDistSq(last);
      forall c | c in cands ensures r.distSq <= OffsetDistSq(c) {
        if c != last {
          assert c in prefix;
        }
      }
    }
  }

  /** Among equally near candidates the first one is kept. */
  lemma {:induction false} NearestIsFirst(cands: seq<Offset>)
    requires Nearest(cands) != NoDetection
    ensures exists i :: 0 <= i < |cands| && cands[i] == Offset(Nearest(cands).dx, Nearest(cands).dy) &&
              forall j :: 0 <= j < i ==> OffsetDistSq(cands[j]) > Nearest(cands).distSq
  {
    var prefix := cands[..|cands| - 1];
    var c := cands[|cands| - 1];
    assert cands == prefix + [c];
    NearestExtend(prefix, c);
    var r := Nearest(cands);
    if OffsetDistSq(c) < Nearest(prefix).distSq {
      NearestIsClosest(prefix);
      var i := |cands| - 1;
      forall j | 0 <= j < i ensures OffsetDistSq(cands[j]) > r.distSq {
        assert cands[j] in prefix;
      }
    } else {
      NearestIsFirst(prefix);
      var i :| 0 <= i < |prefix| && prefix[i] == Offset(r.dx, r.dy) &&
               forall j :: 0 <= j < i ==> OffsetDistSq(prefix[j]) > r.distSq;
      assert cands[i] == prefix[i];
    }
  }

  /** The map candidates that no zone of `zones` is near, in their order. */
  function Unignored(cands: seq<Offset>, zones: seq<Zone>): (r: seq<Offset>)
    ensures |r| <= |cands|
  {
    if cands == [] then []
    else
      var prefix := cands[..|cands| - 1];
      var c := cands[|cands| - 1];
      assert cands == prefix + [c];
      Unignored(prefix, zones) + (if AnyNear(zones, c.dx, c.dy) then [] else [c])
  }

  /** Exactly the candidates away from every zone survive the filter. */
  lemma {:induction false} UnignoredMembers(cands: seq<Offset>, zones: seq<Zone>)
    ensures forall c :: c in Unignored(cands, zones) <==> c in cands && !AnyNear(zones, c.dx, c.dy)
  {
    if cands != [] {
      var prefix := cands[..|cands| - 1];
      UnignoredMembers(prefix, zones);
      assert cands == prefix + [cands[|cands| - 1]];
    }
  }

  /** A map candidate inside a live zone is never the one chosen. */
  lemma IgnoredCandidateIsNotChosen(cands: seq<Offset>, zones: seq<Zone>, dx: int, dy: int)
    requires AnyNear(zones, dx, dy)
    ensures Nearest(Unignored(cands, zones)) == NoDetection ||
            Offset(Nearest(Unignored(cands, zones)).dx, Nearest(Unignored(cands, zones)).dy) != Offset(dx, dy)
  {
    UnignoredMembers(cands, zones);
  }

  lemma UnignoredExtend(prefix: seq<Offset>, c: Offset, zones: seq<Zone>)
    ensures Unignored(prefix + [c], zones) ==
              Unignored(prefix, zones) + (if AnyNear(zones, c.dx, c.dy) then [] else [c])
  {
    assert (prefix + [c])[..|prefix|] == prefix;
  }

  /** One pass of the `get_map_target` loop: an ignored candidate leaves the
      choice as it was, any other one is weighed like a screen candidate. */
  lemma MapStep(prefix: seq<Offset>, c: Offset, zones: seq<Zone>)
    ensures Nearest(Unignored(prefix + [c], zones)) ==
              if AnyNear(zones, c.dx, c.dy) then Nearest(Unignored(prefix, zones))
              else if OffsetDistSq(c) < Nearest(Unignored(prefix, zones)).distSq then Detection(c.dx, c.dy, OffsetDistSq(c))
              else Nearest(Unignored(prefix, zones))
  {
    var kept := Unignored(prefix, zones);
    UnignoredExtend(prefix, c, zones);
    if AnyNear(zones, c.dx, c.dy) {
      assert Unignored(prefix + [c], zones) == kept;
    } else {
      assert Unignored(prefix + [c], zones) == kept + [c];
      NearestExtend(kept, c);
    }
  }

  /** The loop of `get_screen_target` over the candidates left by the contour
      filters (script.py:309-332). */
  method GetScreenTarget(cands: seq<Offset>) returns (det: Detection)
    ensures det == Nearest(cands)
  {
    var closestDx, closestDy := 0, 0;
    var minDist := Sq(Sentinel);
    var found := false;
    var i := 0;
    while i < |cands|
      invariant 0 <= i <= |cands|
      invariant Nearest(cands[..i]) == Detection(closestDx, closestDy, minDist)
      invariant found <==> minDist < Sq(Sentinel)
    {
      assert cands[..i + 1] == cands[..i] + [cands[i]];
      NearestExtend(cands[..i], cands[i]);
      var c := cands[i];
      var dist := DistSq(c.dx, c.dy);
      if dist < minDist {
        minDist := dist;
        closestDx := c.dx;
        closestDy := c.dy;
        found := true;
      }
      i := i + 1;
    }
    assert cands[..i] == cands;
    if found {
      det := Detection(closestDx, closestDy, minDist);
    } else {
      det := NoDetection;
    }
  }

  /** The loop of `get_map_target` (script.py:263-287): every candidate is
      first checked against the blacklist, which purges expired zones as a
      side effect of each query. */
  method GetMapTarget(cands: seq<Offset>, blacklist: MobBlacklist, now: real) returns (det: Detection)
    modifies blacklist
    ensures det == Nearest(Unignored(cands, Survivors(old(blacklist.ignoredZones), now)))
    ensures blacklist.ignoredZones ==
              if cands == [] then old(blacklist.ignoredZones)
              else Survivors(old(blacklist.ignoredZones), now)
  {
    ghost var live := Survivors(blacklist.ignoredZones, now);
    SurvivorsIdempotent(blacklist.ignoredZones, now);
    var closestDx, closestDy := 0, 0;
    var minDist := Sq(Sentinel);
    var found := false;
    var i := 0;
    while i < |cands|
      invariant 0 <= i <= |cands|
      invariant i == 0 ==> blacklist.ignoredZones == old(blacklist.ignoredZones)
      invariant i > 0 ==> blacklist.ignoredZones == live
      invariant Survivors(blacklist.ignoredZones, now) == live
      invariant Nearest(Unignored(cands[..i], live)) == Detection(closestDx, closestDy, minDist)
      invariant found <==> minDist < Sq(Sentinel)
    {
      assert cands[..i + 1] == cands[..i] + [cands[i]];
      var c := cands[i];
      MapStep(cands[..i], c, live);
      var ignored := blacklist.IsIgnored(c.dx, c.dy, now);
      if !ignored {
        var dist := DistSq(c.dx, c.dy);
        if dist < minDist {
          minDist := dist;
          closestDx := c.dx;
          closestDy := c.dy;
          found := true;
        }
      }
      i := i + 1;
    }
    assert cands[..i] == cands;
    if found {
      det := Detection(closestDx, closestDy, minDist);
    } else {
      det := NoDetection;
    }
  }

  // ---------------------------------------------------------------------
  // Priority between the two detectors

  /** `PANTALLA`, `MAPA` and `NADA` in the source's telemetry labels. */
  datatype Source = Screen | Map | Nada

  datatype Target = Target(source: Source, dx: int, dy: int, distSq: int)

  /** `combat_range` of each source (script.py:420,426). The anchor range lies
      inside it, so a target close enough to attack in place is also close
      enough to attack while steering; screen pixels are the larger scale. */
  function CombatRange(s: Source): (r: int)
    ensures s != Nada ==> r > AnchorRange(s)
    ensures s == Screen ==> r > MapCombatRange
  {
    match s
    case Screen => ScreenCombatRange
    case Map => MapCombatRange
    case Nada => 0
  }

  /** `anchor_range` of each source (script.py:421,427): positive, so a target
      at distance 0 is always attacked in place. */
  function AnchorRange(s: Source): (r: int)
    ensures s != Nada ==> r > 0
    ensures s == Screen ==> r > MapAnchorRange
  {
    match s
    case Screen => ScreenAnchorRange
    case Map => MapAnchorRange
    case Nada => 0
  }

  /** Screen detection first, map detection as fallback, else no target. */
  function SelectTarget(scr: Detection, mp: Detection): (t: Target)
    ensures t.source == Screen <==> scr.Present()
    ensures t.source == Map <==> !scr.Present() && mp.Present()
    ensures t.source == Screen ==> (t.dx, t.dy, t.distSq) == (scr.dx, scr.dy, scr.distSq)
    ensures t.source == Map ==> (t.dx, t.dy, t.distSq) == (mp.dx, mp.dy, mp.distSq)
    ensures t.source == Nada ==> t == Target(Nada, 0, 0, Sq(Sentinel))
  {
    if scr.Present() then Target(Screen, scr.dx, scr.dy, scr.distSq)
    else if mp.Present() then Target(Map, mp.dx, mp.dy, mp.distSq)
    else Target(Nada, 0, 0, Sq(Sentinel))
  }

  /** Whenever the screen detector sees something, the map detection is irrelevant. */
  lemma ScreenDetectionWins(scr: Detection, mp1: Detection, mp2: Detection)
    requires scr.Present()
    ensures SelectTarget(scr, mp1) == SelectTarget(scr, mp2)
    ensures SelectTarget(scr, mp1).source == Screen
  {
  }

  // ---------------------------------------------------------------------
  // Pursuit keys

  /** Steering toward an offset: up or down by the sign of `dy` beyond the dead
      zone, and independently left or right by the sign of `dx`. */
  function DirectionKeys(dx: int, dy: int): (r: seq<Key>)
    ensures W in r <==> dy < -DeadZone
    ensures S in r <==> dy > DeadZone
    ensures A in r <==> dx < -DeadZone
    ensures D in r <==> dx > DeadZone
    ensures Space !in r && |r| <= 2 && NoOpposingKeys(r)
  {
    (if dy < -DeadZone then [W] else if dy > DeadZone then [S] else [])
    + (if dx < -DeadZone then [A] else if dx > DeadZone then [D] else [])
  }

  datatype Approach = AtkStatic | Combat | Chasing

  datatype Pursuit = Pursuit(approach: Approach, keys: seq<Key>, attacking: bool)

  /** The pursuit branch (script.py:514-533): inside the anchor range attack in
      place; inside four times the combat range steer and attack only within
      the combat range; farther out only steer. */
  function Pursue(t: Target): (p: Pursuit)
    ensures p.approach == AtkStatic <==> t.distSq < Sq(AnchorRange(t.source))
    ensures p.approach == Chasing <==>
              t.distSq >= Sq(AnchorRange(t.source)) && t.distSq > Sq(4 * CombatRange(t.source))
    ensures p.approach == AtkStatic ==> p.keys == [Space] && p.attacking
    ensures p.approach == Combat ==> (p.attacking <==> t.distSq <= Sq(CombatRange(t.source)))
    ensures p.approach == Chasing ==> !p.attacking
    ensures p.attacking <==> Space in p.keys
    ensures p.approach != AtkStatic ==>
              forall k :: IsMovement(k) ==> (k in p.keys <==> k in DirectionKeys(t.dx, t.dy))
    ensures NoOpposingKeys(p.keys)
  {
    if t.distSq < Sq(AnchorRange(t.source)) then
      Pursuit(AtkStatic, [Space], true)
    else if t.distSq <= Sq(CombatRange(t.source) * 4) then
      var attacking := t.distSq <= Sq(CombatRange(t.source));
      Pursuit(Combat, (if attacking then [Space] else []) + DirectionKeys(t.dx, t.dy), attacking)
    else
      Pursuit(Chasing, DirectionKeys(t.dx, t.dy), false)
  }

  /** The keys the FIX_ORBIT branch intends before correcting them
      (script.py:465-472): attack in place inside the anchor range, otherwise
      steer, and attack within the combat range. */
  function OrbitIntent(t: Target): (r: seq<Key>)
    ensures Space in r <==> t.distSq < Sq(AnchorRange(t.source)) || t.distSq <= Sq(CombatRange(t.source))
    ensures t.distSq < Sq(AnchorRange(t.source)) ==> r == [Space]
    ensures t.distSq >= Sq(AnchorRange(t.source)) ==>
              forall k :: IsMovement(k) ==> (k in r <==> k in DirectionKeys(t.dx, t.dy))
  {
    if t.distSq < Sq(AnchorRange(t.source)) then [Space]
    else DirectionKeys(t.dx, t.dy) + (if t.distSq <= Sq(CombatRange(t.source)) then [Space] else [])
  }

  /** Inside the approach band the orbit-fix intent holds the same keys as
      the COMBAT branch, so both are recorded under the same label. */
  lemma OrbitIntentMatchesCombat(t: Target)
    requires Pursue(t).approach == Combat
    ensures multiset(OrbitIntent(t)) == multiset(Pursue(t).keys)
    ensures Label(OrbitIntent(t)) == Label(Pursue(t).keys)
  {
    var dir := DirectionKeys(t.dx, t.dy);
    var sp: seq<Key> := if t.distSq <= Sq(CombatRange(t.source)) then [Space] else [];
    assert OrbitIntent(t) == dir + sp;
    assert Pursue(t).keys == sp + dir;
    assert multiset(dir + sp) == multiset(sp + dir);
    LabelIgnoresOrder(OrbitIntent(t), Pursue(t).keys);
  }

  /** A map target ten pixels to the right with the map's 12/6 ranges: COMBAT,
      holding right and attack. */
  lemma MapCombatScenario()
    ensures Pursue(Target(Map, 10, 0, 100)).approach == Combat
    ensures D in Pursue(Target(Map, 10, 0, 100)).keys
    ensures Space in Pursue(Target(Map, 10, 0, 100)).keys
  {
  }
}
