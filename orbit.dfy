/** Orbit detection: `MovementMemory` remembers the last cycles' key labels,
    declares an orbit when diagonal strafing dominates without landing hits,
    and then locks a straight-line correction for a while (script.py:74-134). */
module Orbit {
  import opened Util
  import opened Keys

  const HistoryCapacity: nat := 60
  /** Fewer entries than this are not enough to judge. */
  const MinHistory: nat := 40
  /** More diagonal entries than this mean an orbit. */
  const DiagonalLimit: nat := 30
  /** Seconds a correction stays locked once activated. */
  const LockDuration: real := 1.5

  /** Number of diagonal entries in a history. */
  function CountDiagonal(h: seq<string>): (n: nat)
    ensures n <= |h|
  {
    if h == [] then 0
    else CountDiagonal(h[..|h| - 1]) + (if IsDiagonal(h[|h| - 1]) then 1 else 0)
  }

  /** The answer of `check_orbit_dance` given the state it starts from: never
      an orbit while a hit lands, always one while a lock is held, and
      otherwise only on a history of at least 40 entries, more than 30 of
      them diagonal. */
  function OrbitVerdict(history: seq<string>, locked: bool, isHitting: bool): (r: bool)
    ensures r ==> !isHitting
    ensures !isHitting && locked ==> r
    ensures r && !locked ==> |history| >= MinHistory && CountDiagonal(history) > DiagonalLimit
  {
    if isHitting then false
    else if locked then true
    else |history| >= MinHistory && CountDiagonal(history) > DiagonalLimit
  }

  /** Where the correction looks first: up, down, left, right. */
  function Priority(k: Key): nat {
    match k
    case W => 0
    case S => 1
    case A => 2
    case D => 3
    case Space => 4
  }

  /** The forced key list of `activate_correction` (script.py:123-131): at most
      one movement key, the intended one that comes first in the order
      w, s, a, d, followed by the attack key if it was intended. */
  function CorrectionKeys(intended: seq<Key>): (r: seq<Key>)
    ensures |r| <= 2
    ensures Space in r <==> Space in intended
    ensures Space in r ==> r[|r| - 1] == Space
    ensures (exists k :: k in intended && IsMovement(k)) <==> (|r| > 0 && IsMovement(r[0]))
    ensures forall k :: k in r && IsMovement(k) ==>
              k == r[0] && k in intended &&
              forall j :: j in intended && IsMovement(j) ==> Priority(k) <= Priority(j)
  {
    var move :=
      if W in intended then [W]
      else if S in intended then [S]
      else if A in intended then [A]
      else if D in intended then [D]
      else [];
    move + (if Space in intended then [Space] else [])
  }

  /** A forced correction is never itself recorded as diagonal movement. */
  lemma CorrectionIsNotDiagonal(intended: seq<Key>)
    ensures !IsDiagonal(Label(CorrectionKeys(intended)))
  {
    var r := CorrectionKeys(intended);
    DiagonalLabel(r);
    if |r| == 2 {
      assert r[1] == Space;
    }
  }

  /** A correction holds at most one movement key, so never two opposite ones. */
  lemma CorrectionHasNoOpposingKeys(intended: seq<Key>)
    ensures NoOpposingKeys(CorrectionKeys(intended))
  {
  }

  lemma {:induction false} AllDiagonalCount(h: seq<string>)
    requires forall i :: 0 <= i < |h| ==> IsDiagonal(h[i])
    ensures CountDiagonal(h) == |h|
  {
    if h != [] {
      AllDiagonalCount(h[..|h| - 1]);
    }
  }

  /** A history of 40 or more entries, each recording a diagonal key list
      without the attack key, is judged an orbit when no hit lands. */
  lemma DiagonalStrafingIsOrbit(h: seq<string>, keyLists: seq<seq<Key>>)
    requires |h| == |keyLists| >= MinHistory
    requires forall i :: 0 <= i < |h| ==>
               h[i] == Label(keyLists[i]) && |keyLists[i]| >= 2 && Space !in keyLists[i]
    ensures OrbitVerdict(h, false, false)
  {
    forall i | 0 <= i < |h| ensures IsDiagonal(h[i]) {
      DiagonalLabel(keyLists[i]);
    }
    AllDiagonalCount(h);
  }

  class MovementMemory {
    var keyHistory: seq<string>
    var lockedMode: bool
    var lockEndTime: real
    var lockKeys: seq<Key>

    ghost predicate Valid()
      reads this
    {
      |keyHistory| <= HistoryCapacity
    }

    constructor ()
      ensures Valid()
      ensures keyHistory == [] && !lockedMode && lockEndTime == 0.0 && lockKeys == []
    {
      keyHistory := [];
      lockedMode := false;
      lockEndTime := 0.0;
      lockKeys := [];
    }

    /** `log_keys`: record this cycle's label, dropping the oldest entry when full. */
    method LogKeys(keys: seq<Key>)
      requires Valid()
      modifies this`keyHistory
      ensures Valid()
      ensures keyHistory == KeepLast(old(keyHistory) + [Label(keys)], HistoryCapacity)
      ensures keyHistory[|keyHistory| - 1] == Label(keys)
    {
      var entry := Label(keys);
      KeepLastPush(keyHistory, entry, HistoryCapacity);
      if |keyHistory| == HistoryCapacity {
        keyHistory := keyHistory[1..] + [entry];
      } else {
        keyHistory := keyHistory + [entry];
      }
    }

    /** `check_orbit_dance`: a hit clears everything; an active lock keeps
        answering true and is released (with the history) once `now` passes
        its end; otherwise a full enough history dominated by diagonal
        entries is an orbit. */
    method CheckOrbitDance(isHitting: bool, now: real) returns (orbit: bool)
      requires Valid()
      modifies this`keyHistory, this`lockedMode
      ensures Valid()
      ensures orbit == OrbitVerdict(old(keyHistory), old(lockedMode), isHitting)
      ensures isHitting ==> keyHistory == [] && !lockedMode
      ensures !isHitting && old(lockedMode) && now > lockEndTime ==> keyHistory == [] && !lockedMode
      ensures !isHitting && !(old(lockedMode) && now > lockEndTime) ==>
                keyHistory == old(keyHistory) && lockedMode == old(lockedMode)
    {
      if isHitting {
        keyHistory := [];
        lockedMode := false;
        return false;
      }
      if lockedMode {
        if now > lockEndTime {
          lockedMode := false;
          keyHistory := [];
        }
        return true;
      }
      if |keyHistory| < MinHistory {
        return false;
      }
      var diagCount := 0;
      var i := 0;
      while i < |keyHistory|
        invariant 0 <= i <= |keyHistory|
        invariant diagCount == CountDiagonal(keyHistory[..i])
      {
        assert keyHistory[..i + 1][..i] == keyHistory[..i];
        if IsDiagonal(keyHistory[i]) {
          diagCount := diagCount + 1;
        }
        i := i + 1;
      }
      assert keyHistory[..i] == keyHistory;
      return diagCount > DiagonalLimit;
    }

    /** `activate_correction`: lock for `LockDuration` seconds from `now` and
        force the straight-line keys of `CorrectionKeys`. */
    method ActivateCorrection(intended: seq<Key>, now: real) returns (newKeys: seq<Key>)
      requires Valid()
      modifies this`lockedMode, this`lockEndTime, this`lockKeys
      ensures Valid()
      ensures lockedMode && lockEndTime == now + LockDuration
      ensures newKeys == CorrectionKeys(intended) && lockKeys == newKeys
    {
      lockedMode := true;
      lockEndTime := now + LockDuration;
      newKeys := CorrectionKeys(intended);
      lockKeys := newKeys;
    }
  }
}
