/** `GameState`: health-bar sanitising and the variance window (script.py:168-188). */
module Health {
  import opened Util

  /** Capacity of the normalised-health window. */
  const WindowSize: nat := 40
  /** The variance is reported only with more samples than this. */
  const MinVarianceSamples: nat := 5

  /** `round(x, 1)` taken half-up on exact reals. */
  function Round1(x: real): (r: real)
    ensures x - 0.05 < r <= x + 0.05
    ensures 0.0 <= x <= 100.0 ==> 0.0 <= r <= 100.0
  {
    ((x * 10.0 + 0.5).Floor as real) / 10.0
  }

  /** `round((raw / max(1, ceiling)) * 100, 1)`: a bar reading as a percentage of the ceiling. */
  function Normalize(raw: int, ceiling: int): (r: real)
    ensures 0 <= raw <= ceiling ==> 0.0 <= r <= 100.0
    ensures raw == ceiling >= 1 ==> r == 100.0
  {
    var d := if ceiling > 1 then ceiling else 1;
    var q := raw as real / d as real;
    assert 0 <= raw <= ceiling ==> 0.0 <= q <= 1.0 by {
      if 0 <= raw <= ceiling {
        assert q * d as real == raw as real;
      }
    }
    assert raw == ceiling >= 1 ==> Round1(q * 100.0) == 100.0 by {
      if raw == ceiling >= 1 {
        assert q == 1.0;
        assert (100.0 * 10.0 + 0.5).Floor == 1000;
      }
    }
    Round1(q * 100.0)
  }

  predicate InPercentRange(h: seq<real>) {
    forall i :: 0 <= i < |h| ==> 0.0 <= h[i] <= 100.0
  }

  /** The value `sanitize_hp` returns once the ceiling has been raised to
      `ceiling`, given the window `history` (script.py:176-182). */
  function Sanitized(raw: int, ceiling: int, history: seq<real>): (r: real)
    ensures 0 <= raw <= ceiling && InPercentRange(history) ==> 0.0 <= r <= 100.0
  {
    if ceiling == 0 then raw as real
    else if |history| > 0 && AbsReal(raw as real - history[|history| - 1]) <= 1.0 && raw < ceiling
    then history[|history| - 1]
    else Normalize(raw, ceiling)
  }

  /** Feeding the same reading again, right after its sanitised value has
      been recorded, gives that value again: repeated readings are stable. */
  lemma RepeatedReadingIsStable(raw: int, ceiling: int, history: seq<real>, later: seq<real>)
    requires raw <= ceiling
    requires |later| > 0 && later[|later| - 1] == Sanitized(raw, ceiling, history)
    ensures Sanitized(raw, ceiling, later) == Sanitized(raw, ceiling, history)
  {
  }

  function Sum(s: seq<real>): real {
    if s == [] then 0.0 else Sum(s[..|s| - 1]) + s[|s| - 1]
  }

  function SumSquaredDeviation(s: seq<real>, mean: real): (r: real)
    ensures r >= 0.0
  {
    if s == [] then 0.0
    else
      var dev := s[|s| - 1] - mean;
      SumSquaredDeviation(s[..|s| - 1], mean) + dev * dev
  }

  /** Population variance `np.var` of a non-empty window. */
  function Variance(s: seq<real>): (v: real)
    requires |s| > 0
    ensures v >= 0.0
  {
    SumSquaredDeviation(s, Sum(s) / |s| as real) / |s| as real
  }

  lemma {:induction false} SumOfConstant(s: seq<real>, c: real)
    requires forall i :: 0 <= i < |s| ==> s[i] == c
    ensures Sum(s) == |s| as real * c
  {
    if s != [] {
      SumOfConstant(s[..|s| - 1], c);
    }
  }

  lemma {:induction false} NoDeviationFromConstant(s: seq<real>, c: real)
    requires forall i :: 0 <= i < |s| ==> s[i] == c
    ensures SumSquaredDeviation(s, c) == 0.0
  {
    if s != [] {
      NoDeviationFromConstant(s[..|s| - 1], c);
    }
  }

  /** A steady health reading has no variance. */
  lemma ConstantWindowHasNoVariance(s: seq<real>, c: real)
    requires |s| > 0
    requires forall i :: 0 <= i < |s| ==> s[i] == c
    ensures Variance(s) == 0.0
  {
    SumOfConstant(s, c);
    assert Sum(s) / |s| as real == c;
    NoDeviationFromConstant(s, c);
  }

  class GameState {
    var hpHistory: seq<real>
    var maxHpSeen: int

    ghost predicate Valid()
      reads this
    {
      |hpHistory| <= WindowSize && maxHpSeen >= 0
    }

    constructor ()
      ensures Valid() && hpHistory == [] && maxHpSeen == 0
    {
      hpHistory := [];
      maxHpSeen := 0;
    }

    /** `sanitize_hp`: raise the ceiling to the reading if needed, then smooth
        one-point flickers below the ceiling and normalise to a percentage. */
    method SanitizeHp(raw: int) returns (hp: real)
      requires Valid()
      modifies this`maxHpSeen
      ensures Valid()
      ensures maxHpSeen >= old(maxHpSeen) && maxHpSeen >= raw
      ensures maxHpSeen == old(maxHpSeen) || maxHpSeen == raw
      ensures hp == Sanitized(raw, maxHpSeen, hpHistory)
      ensures raw >= 0 && InPercentRange(hpHistory) ==> 0.0 <= hp <= 100.0
    {
      if raw > maxHpSeen {
        maxHpSeen := raw;
      }
      if maxHpSeen == 0 {
        return raw as real;
      }
      if |hpHistory| > 0 && AbsReal(raw as real - hpHistory[|hpHistory| - 1]) <= 1.0 && raw < maxHpSeen {
        return hpHistory[|hpHistory| - 1];
      }
      return Normalize(raw, maxHpSeen);
    }

    /** `calculate_metrics`: record the sample in the 40-entry window and
        report its variance once it holds more than five samples. */
    method CalculateMetrics(currentHp: real) returns (variance: real)
      requires Valid()
      modifies this`hpHistory
      ensures Valid()
      ensures hpHistory == KeepLast(old(hpHistory) + [currentHp], WindowSize)
      ensures variance == if |hpHistory| > MinVarianceSamples then Variance(hpHistory) else 0.0
      ensures variance >= 0.0
      ensures 0.0 <= currentHp <= 100.0 && InPercentRange(old(hpHistory)) ==> InPercentRange(hpHistory)
    {
      KeepLastPush(hpHistory, currentHp, WindowSize);
      if |hpHistory| == WindowSize {
        hpHistory := hpHistory[1..] + [currentHp];
      } else {
        hpHistory := hpHistory + [currentHp];
      }
      if |hpHistory| > MinVarianceSamples {
        variance := Variance(hpHistory);
      } else {
        variance := 0.0;
      }
    }
  }
}
