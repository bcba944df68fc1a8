/** One cycle of the main loop of `process_bot` (script.py:367-546): perceive,
    update the combat bookkeeping, check for an orbit, blacklist ghosts, pick
    the first matching behaviour, record its keys and hold them. */
module Bot {
  import opened Util
  import opened Keys
  import opened Orbit
  import opened Blacklist
  import opened Health
  import opened Status
  import opened Targeting
  import opened Actuation

  /** Health variance above this counts as taking damage. */
  const VarianceThreshold: real := 2.0
  /** Seconds of attacking without a visible hit after which a map target is a ghost. */
  const GhostAfter: real := 5.0
  /** Seconds the bot searches elsewhere after abandoning a ghost. */
  const EscapeDuration: real := 1.5
  /** Seconds a panic direction is kept before a new one is drawn. */
  const PanicHold: real := 0.4
  /** Seconds of monitoring before the stuck routine starts waiting. */
  const StuckMonitorPeriod: real := 4.0
  /** Chance of strafing left while defending blind. */
  const BlindStrafeChance: real := 0.3

  /** The directions the SEARCHING branch draws from. */
  const PanicDirections: seq<seq<Key>> := [[A], [D], [W, A], [S]]

  /** What the vision and bar readers deliver in one cycle: the two bar
      percentages, whether yellow damage numbers are visible, and the offsets
      of the candidate blobs that passed the contour filters, in contour order. */
  datatype Perception = Perception(
    hpPct: int,
    spPct: int,
    dealingDamage: bool,
    mapCandidates: seq<Offset>,
    screenCandidates: seq<Offset>)

  /** The random draws a cycle may use (`random.uniform`, `random.random`,
      `random.choice`). */
  datatype Choices = Choices(
    ghostFade: real,
    stuckWait: real,
    stuckRun: real,
    stuckDir: Key,
    strafeDraw: real,
    panicChoice: nat,
    exploreWindow: real,
    exploreDir: Key)

  /** The draws lie in the ranges the source draws from (script.py:142, 481,
      486-487, 499, 508, 539-540); every direction drawn is a well-formed
      direction for the routine that holds it. */
  predicate ValidChoices(c: Choices)
    ensures ValidChoices(c) ==>
              OneMoveOrNothing([c.stuckDir]) && OneMoveOrNothing([c.exploreDir]) &&
              c.panicChoice < |PanicDirections| && NoOpposingKeys(PanicDirections[c.panicChoice])
  {
    MinFade <= c.ghostFade <= MaxFade &&
    1.0 <= c.stuckWait <= 1.5 &&
    3.0 <= c.stuckRun <= 5.0 &&
    IsMovement(c.stuckDir) &&
    0.0 <= c.strafeDraw < 1.0 &&
    c.panicChoice < |PanicDirections| &&
    2.0 <= c.exploreWindow <= 3.0 &&
    IsMovement(c.exploreDir)
  }

  /** `current_action_label`. */
  datatype Activity =
    | Idle
    | FixOrbit
    | WaitStuck
    | RunStuck
    | BlindDefense
    | Searching
    | Pursuing(approach: Approach, source: Source)
    | Exploring

  /** What one cycle decided and observed. */
  datatype Report = Report(
    activity: Activity,
    keys: seq<Key>,
    hp: real,
    target: Target,
    takingDamage: bool,
    orbit: bool,
    ghosted: bool,
    pressHp: bool,
    pressSp: bool)

  /** A direction held by the stuck or the exploring routine: one movement key, or nothing yet. */
  predicate OneMoveOrNothing(keys: seq<Key>) {
    keys == [] || (|keys| == 1 && IsMovement(keys[0]))
  }

  lemma PanicDirectionsHaveNoOpposingKeys(i: nat)
    requires i < |PanicDirections|
    ensures NoOpposingKeys(PanicDirections[i])
  {
  }

  // ---------------------------------------------------------------------
  // The behaviour chain as functions of the state it starts from

  /** The fields of the stuck routine: its phase, when the current phase
      ends, the direction it runs in, and when monitoring started. */
  datatype StuckRoutine = StuckRoutine(phase: nat, endTime: real, runDirection: seq<Key>, monitorStart: real)

  /** One cycle of the stuck routine (script.py:477-493): phase 1 monitors for
      4 s and then waits, phase 2 waits out its drawn 1-1.5 s and then runs,
      phase 3 runs its drawn direction for 3-5 s and then returns to 0.
      No step ever enters phase 1, so from phase 0 the routine never starts. */
  function StuckAdvance(s: StuckRoutine, now: real, rng: Choices): (r: StuckRoutine)
    ensures r.phase == 1 ==> s.phase == 1
    ensures s.phase == 0 ==> r == s
    ensures s.phase <= 3 ==> r.phase <= 3
    ensures r.phase == s.phase || r.phase == (s.phase + 1) % 4
    ensures r.phase == 3 && s.phase == 2 ==> r.runDirection == [rng.stuckDir] && r.endTime == now + rng.stuckRun
    ensures r.phase == s.phase ==> r.endTime == s.endTime && r.runDirection == s.runDirection
  {
    if s.phase == 1 then
      if now - s.monitorStart > StuckMonitorPeriod then s.(phase := 2, endTime := now + rng.stuckWait) else s
    else if s.phase == 2 then
      if now > s.endTime then s.(phase := 3, endTime := now + rng.stuckRun, runDirection := [rng.stuckDir]) else s
    else if s.phase == 3 then
      if now > s.endTime then s.(phase := 0, monitorStart := now) else s
    else s
  }

  /** The label of the stuck branch in each phase. */
  function StuckActivity(phase: nat): (a: Activity)
    ensures a == Idle || a == WaitStuck || a == RunStuck
    ensures a == RunStuck ==> phase == 3
  {
    if phase == 2 then WaitStuck else if phase == 3 then RunStuck else Idle
  }

  /** The label the branches after the orbit fix pick (script.py:477-542),
      from the stuck phase, the target, the real-damage signal and whether
      the bot is escaping a ghost. */
  function Behaviour(stuckPhase: nat, t: Target, taking: bool, escaping: bool): (a: Activity)
    ensures stuckPhase > 0 <==> a == Idle || a == WaitStuck || a == RunStuck
    ensures a == BlindDefense <==> stuckPhase == 0 && taking && t.source == Nada
    ensures a == Exploring <==> stuckPhase == 0 && !taking && t.source == Nada
    ensures a == Searching <==> stuckPhase == 0 && t.source != Nada && escaping
    ensures a.Pursuing? <==> stuckPhase == 0 && t.source != Nada && !escaping
    ensures a.Pursuing? ==> a == Pursuing(Pursue(t).approach, t.source)
  {
    if stuckPhase > 0 then StuckActivity(stuckPhase)
    else if taking && t.source == Nada then BlindDefense
    else if t.source != Nada then
      if escaping then Searching else Pursuing(Pursue(t).approach, t.source)
    else Exploring
  }

  /** A direction held since `changedAt`, replaced by `drawn` (and the change
      time by `now`) once more than `hold` seconds have passed. */
  function Redrawn(dir: seq<Key>, changedAt: real, drawn: seq<Key>, hold: real, now: real): (r: (seq<Key>, real))
    ensures r == (dir, changedAt) || r == (drawn, now)
    ensures now - changedAt <= hold ==> r == (dir, changedAt)
  {
    if now - changedAt > hold then (drawn, now) else (dir, changedAt)
  }

  /** A freshly drawn direction is held through every later cycle that comes
      within the hold time of that cycle, whatever is drawn meanwhile. */
  lemma RedrawnIsHeld(dir: seq<Key>, changedAt: real, drawn: seq<Key>, hold: real, now: real,
                      other: seq<Key>, hold2: real, later: real)
    requires now - changedAt > hold
    requires later - now <= hold2
    ensures var (d, c) := Redrawn(dir, changedAt, drawn, hold, now);
            Redrawn(d, c, other, hold2, later) == (drawn, now)
  {
  }

  /** The keys each label holds (script.py:462-542), given the directions the
      routines hold at the end of the cycle. */
  function KeysFor(a: Activity, t: Target, rng: Choices,
                   panicDir: seq<Key>, exploreDir: seq<Key>, runDir: seq<Key>): (r: seq<Key>)
    ensures ((panicDir == [] || panicDir in PanicDirections) &&
             OneMoveOrNothing(exploreDir) && OneMoveOrNothing(runDir)) ==> NoOpposingKeys(r)
    ensures a == BlindDefense ==> Space in r && (A in r <==> rng.strafeDraw < BlindStrafeChance)
    ensures a == Idle || a == WaitStuck ==> r == []
  {
    CorrectionHasNoOpposingKeys(OrbitIntent(t));
    match a
    case FixOrbit => CorrectionKeys(OrbitIntent(t))
    case BlindDefense => [Space] + (if rng.strafeDraw < BlindStrafeChance then [A] else [])
    case Searching => panicDir
    case Exploring => exploreDir
    case Pursuing(_, _) => Pursue(t).keys
    case RunStuck => runDir
    case Idle => []
    case WaitStuck => []
  }

  /** Whether the bot is attacking after a cycle with label `a`: blind
      defence attacks, searching and exploring stop, pursuit attacks as its
      band says, and the orbit fix and the stuck routine leave it as it was. */
  function AttackingAfter(a: Activity, t: Target, was: bool): (r: bool)
    ensures a.Pursuing? ==> (r <==> Space in Pursue(t).keys)
    ensures a == Searching || a == Exploring ==> !r
    ensures a == BlindDefense ==> r
    ensures a == FixOrbit || a == Idle || a == WaitStuck || a == RunStuck ==> r == was
  {
    match a
    case BlindDefense => true
    case Searching => false
    case Exploring => false
    case Pursuing(_, _) => Pursue(t).attacking
    case _ => was
  }

  /** Whether the bot is exploring after a cycle with label `a`, starting from `was`. */
  function ExploringAfter(a: Activity, was: bool): (r: bool)
    ensures a == Exploring ==> r
    ensures a == Searching || a.Pursuing? ==> !r
    ensures a != Exploring && a != Searching && !a.Pursuing? ==> r == was
  {
    if a == Exploring then true else if a == Searching || a.Pursuing? then false else was
  }

  class Bot {
    const memory: MovementMemory
    const blacklist: MobBlacklist
    const gameState: GameState
    const status: StatusTracker
    const keyboard: Keyboard

    var isAttacking: bool
    var escapeMode: bool
    var escapeEndTime: real
    var lastSuccessfulHitTime: real
    var noHitDuration: real
    var lastCombatActivityTime: real
    var stuckPhase: nat
    var stuckMonitorStart: real
    var stuckPhaseEndTime: real
    var stuckRunDirection: seq<Key>
    var exploringMode: bool
    var exploreDirChangeTime: real
    var exploreCurrentDir: seq<Key>
    /** `current_panic_dir` and `panic_dir_change_time`, module globals in the source. */
    var currentPanicDir: seq<Key>
    var panicDirChangeTime: real

    ghost predicate Valid()
      reads this, memory, gameState, status
    {
      memory.Valid() && gameState.Valid() && status.Valid() && DirectionsValid()
    }

    /** The bot's own routine state is well formed. */
    ghost predicate DirectionsValid()
      reads this
    {
      stuckPhase <= 3 &&
      OneMoveOrNothing(stuckRunDirection) &&
      OneMoveOrNothing(exploreCurrentDir) &&
      (currentPanicDir == [] || currentPanicDir in PanicDirections)
    }

    /** The stuck routine's fields. */
    function Stuck(): StuckRoutine
      reads this`stuckPhase, this`stuckPhaseEndTime, this`stuckRunDirection, this`stuckMonitorStart
    {
      StuckRoutine(stuckPhase, stuckPhaseEndTime, stuckRunDirection, stuckMonitorStart)
    }

    /** The state `process_bot` starts its loop in; `loadTime` is when the
        module was loaded (`last_hp_check_time`), `startTime` when the loop starts. */
    constructor (loadTime: real, startTime: real)
      ensures Valid()
      ensures stuckPhase == 0 && !isAttacking && !escapeMode && !exploringMode
      ensures lastSuccessfulHitTime == startTime && stuckMonitorStart == startTime
      ensures status.lastHpCheckTime == loadTime
      ensures memory.keyHistory == [] && !memory.lockedMode
      ensures blacklist.ignoredZones == [] && gameState.hpHistory == [] && keyboard.held == {}
      ensures fresh(memory) && fresh(blacklist) && fresh(gameState) && fresh(status) && fresh(keyboard)
      ensures status.potionTimers == map[Hp := 0.0, Sp := 0.0] && status.hpHistory == []
      ensures gameState.maxHpSeen == 0
      ensures memory.lockEndTime == 0.0 && memory.lockKeys == []
      ensures escapeEndTime == 0.0 && noHitDuration == 0.0 && lastCombatActivityTime == 0.0
      ensures stuckPhaseEndTime == 0.0 && exploreDirChangeTime == 0.0 && panicDirChangeTime == 0.0
      ensures stuckRunDirection == [] && exploreCurrentDir == [] && currentPanicDir == []
    {
      memory := new MovementMemory();
      blacklist := new MobBlacklist();
      gameState := new GameState();
      status := new StatusTracker(loadTime);
      keyboard := new Keyboard();
      isAttacking := false;
      escapeMode := false;
      escapeEndTime := 0.0;
      lastSuccessfulHitTime := startTime;
      noHitDuration := 0.0;
      lastCombatActivityTime := 0.0;
      stuckPhase := 0;
      stuckMonitorStart := startTime;
      stuckPhaseEndTime := 0.0;
      stuckRunDirection := [];
      exploringMode := false;
      exploreDirChangeTime := 0.0;
      exploreCurrentDir := [];
      currentPanicDir := [];
      panicDirChangeTime := 0.0;
    }

    /** Combat bookkeeping (script.py:435-448): any real damage or visible hit
        resets the no-hit timer and cancels stuck, escape and exploring modes;
        the no-hit time then grows only while attacking without a hit. */
    method RefreshCombat(taking: bool, hitting: bool, now: real)
      modifies this`lastCombatActivityTime, this`lastSuccessfulHitTime, this`noHitDuration,
               this`stuckPhase, this`escapeMode, this`exploringMode
      ensures taking || hitting ==>
                lastCombatActivityTime == now && lastSuccessfulHitTime == now &&
                stuckPhase == 0 && !escapeMode && !exploringMode
      ensures !(taking || hitting) ==>
                lastCombatActivityTime == old(lastCombatActivityTime) &&
                lastSuccessfulHitTime == old(lastSuccessfulHitTime) &&
                stuckPhase == old(stuckPhase) && escapeMode == old(escapeMode) &&
                exploringMode == old(exploringMode)
      ensures noHitDuration == if isAttacking && !hitting then now - lastSuccessfulHitTime else 0.0
      ensures hitting ==> noHitDuration == 0.0
    {
      if taking || hitting {
        lastCombatActivityTime := now;
        lastSuccessfulHitTime := now;
        noHitDuration := 0.0;
        stuckPhase := 0;
        escapeMode := false;
        exploringMode := false;
      }
      if isAttacking && !hitting {
        noHitDuration := now - lastSuccessfulHitTime;
      } else {
        noHitDuration := 0.0;
      }
    }

    /** Ghost detection (script.py:454-459): a map target attacked for more
        than five seconds without a visible hit is blacklisted, and the bot
        escapes for a while. */
    method DetectGhost(t: Target, now: real, fade: real) returns (ghosted: bool)
      requires MinFade <= fade <= MaxFade
      modifies this`escapeMode, this`escapeEndTime, this`lastSuccessfulHitTime, blacklist
      ensures ghosted <==> noHitDuration > GhostAfter && t.source == Map
      ensures ghosted ==>
                blacklist.ignoredZones == old(blacklist.ignoredZones) + [Zone(t.dx, t.dy, now + fade)] &&
                escapeMode && escapeEndTime == now + EscapeDuration && lastSuccessfulHitTime == now
      ensures !ghosted ==>
                blacklist.ignoredZones == old(blacklist.ignoredZones) &&
                escapeMode == old(escapeMode) && escapeEndTime == old(escapeEndTime) &&
                lastSuccessfulHitTime == old(lastSuccessfulHitTime)
      ensures ghosted ==> StaysIgnored(blacklist.ignoredZones, t.dx, t.dy, now)
    {
      ghosted := noHitDuration > GhostAfter && t.source == Map;
      if ghosted {
        AddedZoneIsIgnored(blacklist.ignoredZones, t.dx, t.dy, now, fade);
        blacklist.AddIgnore(t.dx, t.dy, now, fade);
        escapeMode := true;
        escapeEndTime := now + EscapeDuration;
        lastSuccessfulHitTime := now;
      }
    }

    /** The stuck routine (script.py:477-493): one step of `StuckAdvance`. */
    method StuckStep(now: real, rng: Choices) returns (activity: Activity, keys: seq<Key>)
      requires 0 < stuckPhase <= 3 && ValidChoices(rng) && OneMoveOrNothing(stuckRunDirection)
      modifies this`stuckPhase, this`stuckPhaseEndTime, this`stuckRunDirection, this`stuckMonitorStart
      ensures Stuck() == StuckAdvance(old(Stuck()), now, rng)
      ensures activity == StuckActivity(old(stuckPhase))
      ensures keys == if old(stuckPhase) == 3 then old(stuckRunDirection) else []
      ensures stuckPhase <= 3 && OneMoveOrNothing(stuckRunDirection) && OneMoveOrNothing(keys)
    {
      activity, keys := Idle, [];
      if stuckPhase == 1 {
        if now - stuckMonitorStart > StuckMonitorPeriod {
          stuckPhase := 2;
          stuckPhaseEndTime := now + rng.stuckWait;
        }
      } else if stuckPhase == 2 {
        activity := WaitStuck;
        if now > stuckPhaseEndTime {
          stuckPhase := 3;
          stuckPhaseEndTime := now + rng.stuckRun;
          stuckRunDirection := [rng.stuckDir];
        }
      } else {
        activity := RunStuck;
        keys := stuckRunDirection;
        if now > stuckPhaseEndTime {
          stuckPhase := 0;
          stuckMonitorStart := now;
        }
      }
    }

    /** The SEARCHING branch (script.py:503-511): run in a panic direction,
        redrawn at most every 0.4 s, until the escape time has passed. */
    method SearchStep(now: real, rng: Choices) returns (keys: seq<Key>)
      requires ValidChoices(rng)
      requires currentPanicDir == [] || currentPanicDir in PanicDirections
      modifies this`isAttacking, this`currentPanicDir, this`panicDirChangeTime, this`escapeMode
      ensures !isAttacking
      ensures (currentPanicDir, panicDirChangeTime) ==
                Redrawn(old(currentPanicDir), old(panicDirChangeTime), PanicDirections[rng.panicChoice], PanicHold, now)
      ensures currentPanicDir == [] || currentPanicDir in PanicDirections
      ensures keys == currentPanicDir && NoOpposingKeys(keys)
      ensures escapeMode == (old(escapeMode) && !(now > escapeEndTime))
    {
      isAttacking := false;
      if now - panicDirChangeTime > PanicHold {
        currentPanicDir := PanicDirections[rng.panicChoice];
        panicDirChangeTime := now;
      }
      keys := currentPanicDir;
      if now > escapeEndTime {
        escapeMode := false;
      }
    }

    /** The EXPLORING branch (script.py:535-542): wander in a random straight
        direction, redrawn after a window drawn anew each cycle from 2-3 s. */
    method ExploreStep(now: real, rng: Choices) returns (keys: seq<Key>)
      requires ValidChoices(rng)
      modifies this`isAttacking, this`exploringMode, this`exploreCurrentDir, this`exploreDirChangeTime
      ensures !isAttacking && exploringMode
      ensures (exploreCurrentDir, exploreDirChangeTime) ==
                Redrawn(old(exploreCurrentDir), old(exploreDirChangeTime), [rng.exploreDir], rng.exploreWindow, now)
      ensures keys == exploreCurrentDir
    {
      isAttacking := false;
      exploringMode := true;
      if now - exploreDirChangeTime > rng.exploreWindow {
        exploreCurrentDir := [rng.exploreDir];
        exploreDirChangeTime := now;
      }
      keys := exploreCurrentDir;
    }

    /** A target is in sight (script.py:499-533): search elsewhere while
        escaping a ghost, otherwise pursue the target. */
    method EngageStep(t: Target, now: real, rng: Choices) returns (activity: Activity, keys: seq<Key>)
      requires ValidChoices(rng)
      requires currentPanicDir == [] || currentPanicDir in PanicDirections
      modifies this`isAttacking, this`exploringMode, this`currentPanicDir, this`panicDirChangeTime, this`escapeMode
      ensures currentPanicDir == [] || currentPanicDir in PanicDirections
      ensures !exploringMode && NoOpposingKeys(keys)
      ensures old(escapeMode) ==>
                activity == Searching && !isAttacking && keys == currentPanicDir &&
                (currentPanicDir, panicDirChangeTime) ==
                  Redrawn(old(currentPanicDir), old(panicDirChangeTime), PanicDirections[rng.panicChoice], PanicHold, now) &&
                (escapeMode <==> !(now > escapeEndTime))
      ensures !old(escapeMode) ==>
                activity == Pursuing(Pursue(t).approach, t.source) && keys == Pursue(t).keys &&
                isAttacking == Pursue(t).attacking && !escapeMode &&
                currentPanicDir == old(currentPanicDir) && panicDirChangeTime == old(panicDirChangeTime)
    {
      exploringMode := false;
      if escapeMode {
        activity := Searching;
        keys := SearchStep(now, rng);
      } else {
        var p := Pursue(t);
        keys := p.keys;
        isAttacking := p.attacking;
        activity := Pursuing(p.approach, t.source);
      }
    }

    /** The branches after the orbit fix (script.py:474-542): the stuck
        routine, blind defence, engaging a target, or exploring. */
    method Behave(t: Target, taking: bool, now: real, rng: Choices)
      returns (activity: Activity, keys: seq<Key>)
      requires DirectionsValid() && ValidChoices(rng)
      modifies this`isAttacking, this`escapeMode, this`exploringMode,
               this`stuckPhase, this`stuckPhaseEndTime, this`stuckRunDirection, this`stuckMonitorStart,
               this`currentPanicDir, this`panicDirChangeTime, this`exploreCurrentDir, this`exploreDirChangeTime
      ensures DirectionsValid()
      ensures NoOpposingKeys(keys)
      ensures activity == Behaviour(old(stuckPhase), t, taking, old(escapeMode))
      ensures keys == KeysFor(activity, t, rng, currentPanicDir, exploreCurrentDir, stuckRunDirection)
      ensures isAttacking == AttackingAfter(activity, t, old(isAttacking))
      ensures Stuck() == StuckAdvance(old(Stuck()), now, rng)
      ensures (currentPanicDir, panicDirChangeTime) ==
                if activity == Searching
                then Redrawn(old(currentPanicDir), old(panicDirChangeTime), PanicDirections[rng.panicChoice], PanicHold, now)
                else (old(currentPanicDir), old(panicDirChangeTime))
      ensures (exploreCurrentDir, exploreDirChangeTime) ==
                if activity == Exploring
                then Redrawn(old(exploreCurrentDir), old(exploreDirChangeTime), [rng.exploreDir], rng.exploreWindow, now)
                else (old(exploreCurrentDir), old(exploreDirChangeTime))
      ensures escapeMode == (old(escapeMode) && !(activity == Searching && now > escapeEndTime))
      ensures exploringMode == ExploringAfter(activity, old(exploringMode))
    {
      if stuckPhase > 0 {
        activity, keys := StuckStep(now, rng);
      } else if taking && t.source == Nada {
        isAttacking := true;
        activity := BlindDefense;
        keys := [Space];
        if rng.strafeDraw < BlindStrafeChance {
          keys := keys + [A];
        }
      } else if t.source != Nada {
        activity, keys := EngageStep(t, now, rng);
      } else {
        activity := Exploring;
        keys := ExploreStep(now, rng);
      }
    }

    /** The first-match branch chain (script.py:462-542): an orbit with a
        target in sight is corrected first, otherwise `Behave` decides. */
    method Decide(orbit: bool, t: Target, taking: bool, now: real, rng: Choices)
      returns (activity: Activity, keys: seq<Key>)
      requires Valid() && ValidChoices(rng)
      modifies this`isAttacking, this`escapeMode, this`exploringMode,
               this`stuckPhase, this`stuckPhaseEndTime, this`stuckRunDirection, this`stuckMonitorStart,
               this`currentPanicDir, this`panicDirChangeTime, this`exploreCurrentDir, this`exploreDirChangeTime,
               memory`lockedMode, memory`lockEndTime, memory`lockKeys
      ensures Valid()
      ensures NoOpposingKeys(keys)
      ensures activity == if orbit && t.source != Nada then FixOrbit
                          else Behaviour(old(stuckPhase), t, taking, old(escapeMode))
      ensures keys == KeysFor(activity, t, rng, currentPanicDir, exploreCurrentDir, stuckRunDirection)
      ensures isAttacking == AttackingAfter(activity, t, old(isAttacking))
      ensures Stuck() == if activity == FixOrbit then old(Stuck()) else StuckAdvance(old(Stuck()), now, rng)
      ensures (currentPanicDir, panicDirChangeTime) ==
                if activity == Searching
                then Redrawn(old(currentPanicDir), old(panicDirChangeTime), PanicDirections[rng.panicChoice], PanicHold, now)
                else (old(currentPanicDir), old(panicDirChangeTime))
      ensures (exploreCurrentDir, exploreDirChangeTime) ==
                if activity == Exploring
                then Redrawn(old(exploreCurrentDir), old(exploreDirChangeTime), [rng.exploreDir], rng.exploreWindow, now)
                else (old(exploreCurrentDir), old(exploreDirChangeTime))
      ensures escapeMode == (old(escapeMode) && !(activity == Searching && now > escapeEndTime))
      ensures exploringMode == ExploringAfter(activity, old(exploringMode))
      ensures memory.lockedMode == (activity == FixOrbit || old(memory.lockedMode))
      ensures memory.lockEndTime == if activity == FixOrbit then now + LockDuration else old(memory.lockEndTime)
      ensures memory.lockKeys == if activity == FixOrbit then keys else old(memory.lockKeys)
    {
      if orbit && t.source != Nada {
        var intended := OrbitIntent(t);
        keys := memory.ActivateCorrection(intended, now);
        activity := FixOrbit;
      } else {
        activity, keys := Behave(t, taking, now, rng);
      }
    }

    /** The perception layer and the health statistics (script.py:405-431):
        potions and the coarse damage flag, both detectors, the screen-over-map
        choice, and the sanitised health with its variance. */
    method Perceive(p: Perception, now: real)
      returns (t: Target, hp: real, taking: bool, pressHp: bool, pressSp: bool)
      requires Valid()
      modifies status, blacklist, gameState
      ensures Valid()
      ensures t == SelectTarget(
                Nearest(p.screenCandidates),
                Nearest(Unignored(p.mapCandidates, Survivors(old(blacklist.ignoredZones), now))))
      ensures blacklist.ignoredZones ==
                if p.mapCandidates == [] then old(blacklist.ignoredZones)
                else Survivors(old(blacklist.ignoredZones), now)
      // potions and the coarse window
      ensures pressHp <==> p.hpPct < HpPotionBelow && now > old(status.potionTimers[Hp])
      ensures pressSp <==> p.spPct < SpPotionBelow && now > old(status.potionTimers[Sp])
      ensures status.potionTimers == old(status.potionTimers)
                [Hp := if pressHp then now + HpCooldown else old(status.potionTimers[Hp])]
                [Sp := if pressSp then now + SpCooldown else old(status.potionTimers[Sp])]
      ensures status.hpHistory ==
                if now - status.lastHpCheckTime > SampleSpacing
                then KeepLast(old(status.hpHistory) + [p.hpPct], RecentSamples)
                else old(status.hpHistory)
      // health
      ensures taking <==>
                TakingDamage(p.hpPct, status.hpHistory) ||
                (|gameState.hpHistory| > MinVarianceSamples && Variance(gameState.hpHistory) > VarianceThreshold)
      ensures gameState.maxHpSeen == if p.hpPct > old(gameState.maxHpSeen) then p.hpPct else old(gameState.maxHpSeen)
      ensures hp == Sanitized(p.hpPct, gameState.maxHpSeen, old(gameState.hpHistory))
      ensures gameState.hpHistory == KeepLast(old(gameState.hpHistory) + [hp], WindowSize)
      ensures p.hpPct >= 0 && InPercentRange(old(gameState.hpHistory)) ==>
                0.0 <= hp <= 100.0 && InPercentRange(gameState.hpHistory)
    {
      var damageFlag;
      damageFlag, pressHp, pressSp := status.ManageStatus(p.hpPct, p.spPct, now);
      var mapDet := GetMapTarget(p.mapCandidates, blacklist, now);
      var scrDet := GetScreenTarget(p.screenCandidates);
      t := SelectTarget(scrDet, mapDet);
      hp := gameState.SanitizeHp(p.hpPct);
      var variance := gameState.CalculateMetrics(hp);
      taking := damageFlag || variance > VarianceThreshold;
    }

    /** Combat bookkeeping, the orbit check and ghost detection
        (script.py:435-459), in the source's order. */
    method Assess(hitting: bool, t: Target, taking: bool, now: real, fade: real)
      returns (orbit: bool, ghosted: bool)
      requires Valid() && MinFade <= fade <= MaxFade
      modifies this`lastCombatActivityTime, this`lastSuccessfulHitTime, this`noHitDuration,
               this`stuckPhase, this`escapeMode, this`exploringMode, this`escapeEndTime,
               memory`keyHistory, memory`lockedMode, blacklist
      ensures Valid()
      // the orbit check
      ensures orbit == OrbitVerdict(old(memory.keyHistory), old(memory.lockedMode), hitting)
      ensures memory.keyHistory ==
                if hitting || (old(memory.lockedMode) && now > old(memory.lockEndTime)) then []
                else old(memory.keyHistory)
      ensures memory.lockedMode == (old(memory.lockedMode) && !hitting && !(now > old(memory.lockEndTime)))
      // ghosts
      ensures ghosted <==>
                t.source == Map && old(isAttacking) && !hitting &&
                now - (if taking then now else old(lastSuccessfulHitTime)) > GhostAfter
      ensures blacklist.ignoredZones ==
                if ghosted then old(blacklist.ignoredZones) + [Zone(t.dx, t.dy, now + fade)]
                else old(blacklist.ignoredZones)
      // timers and modes
      ensures lastCombatActivityTime == if taking || hitting then now else old(lastCombatActivityTime)
      ensures lastSuccessfulHitTime == if ghosted || taking || hitting then now else old(lastSuccessfulHitTime)
      ensures noHitDuration ==
                if old(isAttacking) && !hitting then now - (if taking then now else old(lastSuccessfulHitTime))
                else 0.0
      ensures stuckPhase == if taking || hitting then 0 else old(stuckPhase)
      ensures escapeMode == (ghosted || (old(escapeMode) && !(taking || hitting)))
      ensures escapeEndTime == if ghosted then now + EscapeDuration else old(escapeEndTime)
      ensures exploringMode == (old(exploringMode) && !(taking || hitting))
    {
      RefreshCombat(taking, hitting, now);
      orbit := memory.CheckOrbitDance(hitting, now);
      ghosted := DetectGhost(t, now, fade);
    }

    /** Register the cycle's keys for the orbit analysis, then hold them
        (script.py:545-546). */
    method Record(keys: seq<Key>)
      requires Valid()
      modifies memory`keyHistory, keyboard
      ensures Valid()
      ensures memory.keyHistory == KeepLast(old(memory.keyHistory) + [Label(keys)], HistoryCapacity)
      ensures |memory.keyHistory| > 0 && memory.keyHistory[|memory.keyHistory| - 1] == Label(keys)
      ensures keyboard.held == set k | k in keys
    {
      memory.LogKeys(keys);
      keyboard.UpdateKeys(keys);
    }

    /** The branch chain, then recording and holding its keys (script.py:462-546). */
    method Respond(orbit: bool, t: Target, taking: bool, now: real, rng: Choices)
      returns (activity: Activity, keys: seq<Key>)
      requires Valid() && ValidChoices(rng)
      modifies this`isAttacking, this`escapeMode, this`exploringMode,
               this`stuckPhase, this`stuckPhaseEndTime, this`stuckRunDirection, this`stuckMonitorStart,
               this`currentPanicDir, this`panicDirChangeTime, this`exploreCurrentDir, this`exploreDirChangeTime,
               memory`keyHistory, memory`lockedMode, memory`lockEndTime, memory`lockKeys, keyboard
      ensures Valid()
      ensures unchanged(this`lastCombatActivityTime, this`lastSuccessfulHitTime, this`noHitDuration,
                        this`escapeEndTime, blacklist)
      ensures NoOpposingKeys(keys)
      ensures activity == if orbit && t.source != Nada then FixOrbit
                          else Behaviour(old(stuckPhase), t, taking, old(escapeMode))
      ensures keys == KeysFor(activity, t, rng, currentPanicDir, exploreCurrentDir, stuckRunDirection)
      ensures isAttacking == AttackingAfter(activity, t, old(isAttacking))
      ensures Stuck() == if activity == FixOrbit then old(Stuck()) else StuckAdvance(old(Stuck()), now, rng)
      ensures (currentPanicDir, panicDirChangeTime) ==
                if activity == Searching
                then Redrawn(old(currentPanicDir), old(panicDirChangeTime), PanicDirections[rng.panicChoice], PanicHold, now)
                else (old(currentPanicDir), old(panicDirChangeTime))
      ensures (exploreCurrentDir, exploreDirChangeTime) ==
                if activity == Exploring
                then Redrawn(old(exploreCurrentDir), old(exploreDirChangeTime), [rng.exploreDir], rng.exploreWindow, now)
                else (old(exploreCurrentDir), old(exploreDirChangeTime))
      ensures escapeMode == (old(escapeMode) && !(activity == Searching && now > escapeEndTime))
      ensures exploringMode == ExploringAfter(activity, old(exploringMode))
      ensures memory.keyHistory == KeepLast(old(memory.keyHistory) + [Label(keys)], HistoryCapacity)
      ensures memory.lockedMode == (activity == FixOrbit || old(memory.lockedMode))
      ensures memory.lockEndTime == if activity == FixOrbit then now + LockDuration else old(memory.lockEndTime)
      ensures memory.lockKeys == if activity == FixOrbit then keys else old(memory.lockKeys)
      ensures keyboard.held == set k | k in keys
    {
      activity, keys := Decide(orbit, t, taking, now, rng);
      assert unchanged(this`lastCombatActivityTime, this`lastSuccessfulHitTime, this`noHitDuration,
                       this`escapeEndTime, blacklist);
      label decided:
      Record(keys);
      assert unchanged@decided(this, memory`lockedMode, memory`lockEndTime, memory`lockKeys);
    }

    /** Everything after perception (script.py:435-546): the bookkeeping, the
        orbit check and ghost detection, the branch chain, and recording. */
    method Act(hitting: bool, t: Target, taking: bool, now: real, rng: Choices)
      returns (orbit: bool, ghosted: bool, activity: Activity, keys: seq<Key>)
      requires Valid() && ValidChoices(rng)
      modifies this, memory`keyHistory, memory`lockedMode, memory`lockEndTime, memory`lockKeys,
               blacklist, keyboard
      ensures Valid()
      ensures activity ==
                if orbit && t.source != Nada then FixOrbit
                else Behaviour(if taking || hitting then 0 else old(stuckPhase), t, taking,
                               ghosted || (old(escapeMode) && !(taking || hitting)))
      ensures var s := if taking || hitting then old(Stuck()).(phase := 0) else old(Stuck());
              Stuck() == if activity == FixOrbit then s else StuckAdvance(s, now, rng)
      ensures (currentPanicDir, panicDirChangeTime) ==
                if activity == Searching
                then Redrawn(old(currentPanicDir), old(panicDirChangeTime), PanicDirections[rng.panicChoice], PanicHold, now)
                else (old(currentPanicDir), old(panicDirChangeTime))
      // the orbit check and its correction
      ensures orbit == OrbitVerdict(old(memory.keyHistory), old(memory.lockedMode), hitting)
      ensures memory.keyHistory ==
                KeepLast((if hitting || (old(memory.lockedMode) && now > old(memory.lockEndTime)) then []
                          else old(memory.keyHistory)) + [Label(keys)], HistoryCapacity)
      ensures memory.lockedMode ==
                (activity == FixOrbit || (old(memory.lockedMode) && !hitting && !(now > old(memory.lockEndTime))))
      ensures memory.lockEndTime == if activity == FixOrbit then now + LockDuration else old(memory.lockEndTime)
      ensures memory.lockKeys == if activity == FixOrbit then keys else old(memory.lockKeys)
      // ghosts
      ensures ghosted <==>
                t.source == Map && old(isAttacking) && !hitting &&
                now - (if taking then now else old(lastSuccessfulHitTime)) > GhostAfter
      ensures blacklist.ignoredZones ==
                if ghosted then old(blacklist.ignoredZones) + [Zone(t.dx, t.dy, now + rng.ghostFade)]
                else old(blacklist.ignoredZones)
      // timers
      ensures lastCombatActivityTime == if taking || hitting then now else old(lastCombatActivityTime)
      ensures lastSuccessfulHitTime == if ghosted || taking || hitting then now else old(lastSuccessfulHitTime)
      ensures noHitDuration ==
                if old(isAttacking) && !hitting then now - (if taking then now else old(lastSuccessfulHitTime))
                else 0.0
      ensures escapeEndTime == if ghosted then now + EscapeDuration else old(escapeEndTime)
      // the branch chain
      ensures keys == KeysFor(activity, t, rng, currentPanicDir, exploreCurrentDir, stuckRunDirection)
      ensures NoOpposingKeys(keys)
      ensures isAttacking == AttackingAfter(activity, t, old(isAttacking))
      ensures (exploreCurrentDir, exploreDirChangeTime) ==
                if activity == Exploring
                then Redrawn(old(exploreCurrentDir), old(exploreDirChangeTime), [rng.exploreDir], rng.exploreWindow, now)
                else (old(exploreCurrentDir), old(exploreDirChangeTime))
      ensures escapeMode ==
                ((ghosted || (old(escapeMode) && !(taking || hitting))) && !(activity == Searching && now > escapeEndTime))
      ensures exploringMode == ExploringAfter(activity, old(exploringMode) && !(taking || hitting))
      ensures keyboard.held == set k | k in keys
    {
      ghost var stuck0 := Stuck();
      ghost var panic0 := (currentPanicDir, panicDirChangeTime);
      ghost var explore0 := (exploreCurrentDir, exploreDirChangeTime);
      orbit, ghosted := Assess(hitting, t, taking, now, rng.ghostFade);
      ghost var stuck1 := Stuck();
      ghost var phase1, escape1, attacking1 := stuckPhase, escapeMode, isAttacking;
      assert stuck1 == if taking || hitting then stuck0.(phase := 0) else stuck0;
      assert phase1 == if taking || hitting then 0 else old(stuckPhase);
      assert escape1 == (ghosted || (old(escapeMode) && !(taking || hitting)));
      assert attacking1 == old(isAttacking);
      assert (currentPanicDir, panicDirChangeTime) == panic0;
      assert (exploreCurrentDir, exploreDirChangeTime) == explore0;
      label assessed:
      activity, keys := Respond(orbit, t, taking, now, rng);
      assert activity == if orbit && t.source != Nada then FixOrbit else Behaviour(phase1, t, taking, escape1);
      assert isAttacking == AttackingAfter(activity, t, attacking1);
      assert Stuck() == if activity == FixOrbit then stuck1 else StuckAdvance(stuck1, now, rng);
    }

    /** One pass of the main loop at time `now`. */
    method Cycle(p: Perception, now: real, rng: Choices) returns (r: Report)
      requires Valid() && ValidChoices(rng)
      modifies this, memory, blacklist, gameState, status, keyboard
      ensures Valid()
      // perception: target, potions, damage signal, health
      ensures r.target == SelectTarget(
                Nearest(p.screenCandidates),
                Nearest(Unignored(p.mapCandidates, Survivors(old(blacklist.ignoredZones), now))))
      ensures r.pressHp <==> p.hpPct < HpPotionBelow && now > old(status.potionTimers[Hp])
      ensures r.pressSp <==> p.spPct < SpPotionBelow && now > old(status.potionTimers[Sp])
      ensures status.potionTimers == old(status.potionTimers)
                [Hp := if r.pressHp then now + HpCooldown else old(status.potionTimers[Hp])]
                [Sp := if r.pressSp then now + SpCooldown else old(status.potionTimers[Sp])]
      ensures status.hpHistory ==
                if now - status.lastHpCheckTime > SampleSpacing
                then KeepLast(old(status.hpHistory) + [p.hpPct], RecentSamples)
                else old(status.hpHistory)
      ensures r.takingDamage <==>
                TakingDamage(p.hpPct, status.hpHistory) ||
                (|gameState.hpHistory| > MinVarianceSamples && Variance(gameState.hpHistory) > VarianceThreshold)
      ensures gameState.maxHpSeen == if p.hpPct > old(gameState.maxHpSeen) then p.hpPct else old(gameState.maxHpSeen)
      ensures r.hp == Sanitized(p.hpPct, gameState.maxHpSeen, old(gameState.hpHistory))
      ensures gameState.hpHistory == KeepLast(old(gameState.hpHistory) + [r.hp], WindowSize)
      ensures p.hpPct >= 0 && InPercentRange(old(gameState.hpHistory)) ==>
                0.0 <= r.hp <= 100.0 && InPercentRange(gameState.hpHistory)
      // the orbit check and its correction
      ensures r.orbit == OrbitVerdict(old(memory.keyHistory), old(memory.lockedMode), p.dealingDamage)
      ensures memory.keyHistory ==
                KeepLast((if p.dealingDamage || (old(memory.lockedMode) && now > old(memory.lockEndTime)) then []
                          else old(memory.keyHistory)) + [Label(r.keys)], HistoryCapacity)
      ensures memory.lockedMode ==
                (r.activity == FixOrbit ||
                 (old(memory.lockedMode) && !p.dealingDamage && !(now > old(memory.lockEndTime))))
      ensures memory.lockEndTime == if r.activity == FixOrbit then now + LockDuration else old(memory.lockEndTime)
      ensures memory.lockKeys == if r.activity == FixOrbit then r.keys else old(memory.lockKeys)
      ensures old(memory.lockedMode) && !p.dealingDamage && r.target.source != Nada ==>
                r.activity == FixOrbit && memory.lockedMode
      // ghosts
      ensures r.ghosted <==>
                r.target.source == Map && old(isAttacking) && !p.dealingDamage &&
                now - (if r.takingDamage then now else old(lastSuccessfulHitTime)) > GhostAfter
      ensures var zones := if p.mapCandidates == [] then old(blacklist.ignoredZones)
                           else Survivors(old(blacklist.ignoredZones), now);
              blacklist.ignoredZones ==
                if r.ghosted then zones + [Zone(r.target.dx, r.target.dy, now + rng.ghostFade)] else zones
      // timers
      ensures lastCombatActivityTime ==
                if r.takingDamage || p.dealingDamage then now else old(lastCombatActivityTime)
      ensures lastSuccessfulHitTime ==
                if r.ghosted || r.takingDamage || p.dealingDamage then now else old(lastSuccessfulHitTime)
      ensures noHitDuration ==
                if old(isAttacking) && !p.dealingDamage
                then now - (if r.takingDamage then now else old(lastSuccessfulHitTime))
                else 0.0
      ensures escapeEndTime == if r.ghosted then now + EscapeDuration else old(escapeEndTime)
      // the branch chain
      ensures var contact := r.takingDamage || p.dealingDamage;
              r.activity ==
                if r.orbit && r.target.source != Nada then FixOrbit
                else Behaviour(if contact then 0 else old(stuckPhase), r.target, r.takingDamage,
                               r.ghosted || (old(escapeMode) && !contact))
      ensures r.keys == KeysFor(r.activity, r.target, rng, currentPanicDir, exploreCurrentDir, stuckRunDirection)
      ensures NoOpposingKeys(r.keys)
      ensures isAttacking == AttackingAfter(r.activity, r.target, old(isAttacking))
      ensures var s := if r.takingDamage || p.dealingDamage then old(Stuck()).(phase := 0) else old(Stuck());
              Stuck() == if r.activity == FixOrbit then s else StuckAdvance(s, now, rng)
      ensures stuckPhase == 1 ==> old(stuckPhase) == 1
      ensures old(stuckPhase) == 0 ==> stuckPhase == 0 && r.activity != WaitStuck && r.activity != RunStuck
      ensures (currentPanicDir, panicDirChangeTime) ==
                if r.activity == Searching
                then Redrawn(old(currentPanicDir), old(panicDirChangeTime), PanicDirections[rng.panicChoice], PanicHold, now)
                else (old(currentPanicDir), old(panicDirChangeTime))
      ensures (exploreCurrentDir, exploreDirChangeTime) ==
                if r.activity == Exploring
                then Redrawn(old(exploreCurrentDir), old(exploreDirChangeTime), [rng.exploreDir], rng.exploreWindow, now)
                else (old(exploreCurrentDir), old(exploreDirChangeTime))
      ensures escapeMode ==
                ((r.ghosted || (old(escapeMode) && !(r.takingDamage || p.dealingDamage))) &&
                 !(r.activity == Searching && now > escapeEndTime))
      ensures exploringMode == ExploringAfter(r.activity, old(exploringMode) && !(r.takingDamage || p.dealingDamage))
      ensures r.ghosted && old(stuckPhase) == 0 && !r.orbit ==> r.activity == Searching
      ensures p.dealingDamage ==> !r.ghosted && !escapeMode && stuckPhase == 0 && r.activity != Searching
      // actuation
      ensures keyboard.held == set k | k in r.keys
    {
      var t, hp, taking, pressHp, pressSp := Perceive(p, now);
      var orbit, ghosted, activity, keys := Act(p.dealingDamage, t, taking, now, rng);
      r := Report(activity, keys, hp, t, taking, orbit, ghosted, pressHp, pressSp);
    }
  }

  /** Two passes of `process_bot` from the initial state: the stuck routine,
      which only a phase above 0 enters, is never reached, since nothing
      raises the phase from 0. */
  method FreshBotNeverGetsStuck(p1: Perception, t1: real, rng1: Choices,
                                p2: Perception, t2: real, rng2: Choices)
    returns (first: Activity, second: Activity, phase: nat)
    requires ValidChoices(rng1) && ValidChoices(rng2)
    ensures first != Idle && first != WaitStuck && first != RunStuck
    ensures second != Idle && second != WaitStuck && second != RunStuck
    ensures phase == 0
  {
    var bot := new Bot(0.0, 0.0);
    var r1 := bot.Cycle(p1, t1, rng1);
    var r2 := bot.Cycle(p2, t2, rng2);
    first, second, phase := r1.activity, r2.activity, bot.stuckPhase;
  }
}
