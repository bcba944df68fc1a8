/** The decision part of `manage_status`: the coarse health window that flags
    a damage drop, and the potion cooldowns (script.py:62-65, 221-245). */
module Status {
  import opened Util

  datatype Resource = Hp | Sp

  const HpPotionBelow: int := 70
  const SpPotionBelow: int := 20
  const HpCooldown: real := 1.0
  const SpCooldown: real := 1.5
  /** Capacity of the coarse health window. */
  const RecentSamples: nat := 4
  /** A drop of more than this many points below the recent peak is damage. */
  const DropTolerance: int := 3
  /** Seconds since `last_hp_check_time` after which a reading is recorded. */
  const SampleSpacing: real := 0.5

  function MaxOf(s: seq<int>): (m: int)
    requires |s| > 0
    ensures m in s
    ensures forall x :: x in s ==> x <= m
  {
    if |s| == 1 then s[0]
    else
      var rest := MaxOf(s[1..]);
      assert s == [s[0]] + s[1..];
      if s[0] > rest then s[0] else rest
  }

  /** `hp_pct < max(hp_history) - 3` on a non-empty window (script.py:232-235). */
  function TakingDamage(hp: int, recent: seq<int>): (r: bool)
    ensures r <==> exists x :: x in recent && hp < x - DropTolerance
  {
    |recent| > 0 && hp < MaxOf(recent) - DropTolerance
  }

  class StatusTracker {
    /** Earliest time each potion may be used again (`potion_timers`). */
    var potionTimers: map<Resource, real>
    /** The coarse health window (`hp_history`, a module global). */
    var hpHistory: seq<int>
    /** `last_hp_check_time`: set once when the module loads, never updated. */
    const lastHpCheckTime: real

    ghost predicate Valid()
      reads this
    {
      Hp in potionTimers && Sp in potionTimers && |hpHistory| <= RecentSamples
    }

    constructor (loadTime: real)
      ensures Valid()
      ensures potionTimers == map[Hp := 0.0, Sp := 0.0] && hpHistory == []
      ensures lastHpCheckTime == loadTime
    {
      potionTimers := map[Hp := 0.0, Sp := 0.0];
      hpHistory := [];
      lastHpCheckTime := loadTime;
    }

    /** One call of `manage_status` on the readings `hpPct` and `spPct` at time
        `now`; `pressHp` and `pressSp` say whether F1 and F2 are pressed. */
    method ManageStatus(hpPct: int, spPct: int, now: real)
      returns (takingDamage: bool, pressHp: bool, pressSp: bool)
      requires Valid()
      modifies this
      ensures Valid()
      ensures hpHistory == if now - lastHpCheckTime > SampleSpacing
                           then KeepLast(old(hpHistory) + [hpPct], RecentSamples)
                           else old(hpHistory)
      ensures takingDamage == TakingDamage(hpPct, hpHistory)
      ensures pressHp <==> hpPct < HpPotionBelow && now > old(potionTimers[Hp])
      ensures pressSp <==> spPct < SpPotionBelow && now > old(potionTimers[Sp])
      ensures potionTimers == old(potionTimers)
                [Hp := if pressHp then now + HpCooldown else old(potionTimers[Hp])]
                [Sp := if pressSp then now + SpCooldown else old(potionTimers[Sp])]
    {
      if now - lastHpCheckTime > SampleSpacing {
        KeepLastPush(hpHistory, hpPct, RecentSamples);
        hpHistory := hpHistory + [hpPct];
        if |hpHistory| > RecentSamples {
          hpHistory := hpHistory[1..];
        }
      }
      takingDamage := false;
      if |hpHistory| > 0 {
        var maxRecentHp := MaxOf(hpHistory);
        if hpPct < maxRecentHp - DropTolerance {
          takingDamage := true;
        }
      }
      pressHp, pressSp := false, false;
      if hpPct < HpPotionBelow && now > potionTimers[Hp] {
        pressHp := true;
        potionTimers := potionTimers[Hp := now + HpCooldown];
      }
      if spPct < SpPotionBelow && now > potionTimers[Sp] {
        pressSp := true;
        potionTimers := potionTimers[Sp := now + SpCooldown];
      }
    }
  }

  /** Health readings 80, 80, 79, 80 (mana 50) fed to a fresh tracker one
      second apart, after the first half second since load: no cycle flags a
      damage drop and no cycle presses either potion. */
  method SteadyHealthScenario() returns (damage: bool, potion: bool)
    ensures !damage && !potion
  {
    var tracker := new StatusTracker(0.0);
    var d1, h1, s1 := tracker.ManageStatus(80, 50, 1.0);
    assert tracker.hpHistory == [80];
    var d2, h2, s2 := tracker.ManageStatus(80, 50, 2.0);
    assert tracker.hpHistory == [80, 80];
    var d3, h3, s3 := tracker.ManageStatus(79, 50, 3.0);
    assert tracker.hpHistory == [80, 80, 79];
    var d4, h4, s4 := tracker.ManageStatus(80, 50, 4.0);
    assert tracker.hpHistory == [80, 80, 79, 80];
    damage := d1 || d2 || d3 || d4;
    potion := h1 || s1 || h2 || s2 || h3 || s3 || h4 || s4;
  }
}
