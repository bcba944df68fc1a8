/** The keys the bot holds, and the canonical text label that
    `MovementMemory.log_keys` records for one cycle's key list. */
module Keys {

  /** The five managed keys: the four movement keys and the attack key. */
  datatype Key = W | S | A | D | Space

  /** The key's name as the input library spells it. */
  function Name(k: Key): string {
    match k
    case W => "w"
    case S => "s"
    case A => "a"
    case D => "d"
    case Space => "space"
  }

  predicate IsMovement(k: Key) {
    k != Space
  }

  /** A key list never holds two opposite movement keys at once. */
  predicate NoOpposingKeys(keys: seq<Key>) {
    !(W in keys && S in keys) && !(A in keys && D in keys)
  }

  // ---------------------------------------------------------------------
  // Sorting by name

  /** Position of each name in string order: "a" < "d" < "s" < "space" < "w". */
  function Rank(k: Key): nat {
    match k
    case A => 0
    case D => 1
    case S => 2
    case Space => 3
    case W => 4
  }

  /** Lexicographic order on strings, the order in which `sorted` puts `str` values. */
  predicate StrLess(a: string, b: string) {
    if |a| == 0 then |b| > 0
    else if |b| == 0 then false
    else if a[0] != b[0] then a[0] < b[0]
    else StrLess(a[1..], b[1..])
  }

  /** Ordering keys by `Rank` is ordering them by their names. */
  lemma RankIsStringOrder(j: Key, k: Key)
    ensures Rank(j) < Rank(k) <==> StrLess(Name(j), Name(k))
  {
    assert StrLess("s", "space") && !StrLess("space", "s");
  }

  predicate Sorted(s: seq<Key>) {
    forall i, j :: 0 <= i < j < |s| ==> Rank(s[i]) <= Rank(s[j])
  }

  function Insert(k: Key, s: seq<Key>): (r: seq<Key>)
    ensures multiset(r) == multiset(s) + multiset{k}
  {
    if s == [] || Rank(k) <= Rank(s[0]) then [k] + s
    else
      assert s == [s[0]] + s[1..];
      [s[0]] + Insert(k, s[1..])
  }

  lemma SortedCons(x: Key, t: seq<Key>)
    requires Sorted(t)
    requires forall i :: 0 <= i < |t| ==> Rank(x) <= Rank(t[i])
    ensures Sorted([x] + t)
  {
  }

  lemma {:induction false} InsertSorted(k: Key, s: seq<Key>)
    requires Sorted(s)
    ensures Sorted(Insert(k, s))
    decreases |s|
  {
    if s == [] || Rank(k) <= Rank(s[0]) {
      SortedCons(k, s);
    } else {
      var rest := Insert(k, s[1..]);
      InsertSorted(k, s[1..]);
      forall i | 0 <= i < |rest| ensures Rank(s[0]) <= Rank(rest[i]) {
        assert rest[i] in multiset(rest);
        if rest[i] != k {
          assert rest[i] in multiset(s[1..]);
          var j :| 0 <= j < |s[1..]| && s[1..][j] == rest[i];
          assert s[j + 1] == rest[i];
        }
      }
      SortedCons(s[0], rest);
    }
  }

  /** The keys in name order (`sorted(keys)`). */
  function SortKeys(s: seq<Key>): (r: seq<Key>)
    ensures Sorted(r)
    ensures multiset(r) == multiset(s)
  {
    if s == [] then []
    else
      assert s == [s[0]] + s[1..];
      InsertSorted(s[0], SortKeys(s[1..]));
      Insert(s[0], SortKeys(s[1..]))
  }

  lemma SortedHeadIsLeast(a: seq<Key>, x: Key)
    requires Sorted(a) && x in multiset(a)
    ensures Rank(a[0]) <= Rank(x)
  {
    var i :| 0 <= i < |a| && a[i] == x;
  }

  lemma {:induction false} SortedUnique(a: seq<Key>, b: seq<Key>)
    requires Sorted(a) && Sorted(b)
    requires multiset(a) == multiset(b)
    ensures a == b
    decreases |a|
  {
    assert |a| == |multiset(a)| == |multiset(b)| == |b|;
    if a != [] {
      SortedHeadIsLeast(a, b[0]);
      SortedHeadIsLeast(b, a[0]);
      assert a[0] == b[0];
      assert a == [a[0]] + a[1..];
      assert b == [b[0]] + b[1..];
      assert multiset(a[1..]) == multiset(a) - multiset{a[0]};
      assert multiset(b[1..]) == multiset(b) - multiset{b[0]};
      SortedUnique(a[1..], b[1..]);
    }
  }

  // ---------------------------------------------------------------------
  // Labels

  /** `"+".join` of the key names: it starts with the first name, and it holds
      a separator exactly when it joins two or more names. */
  function Joined(ks: seq<Key>): (r: string)
    ensures |ks| > 0 ==> |r| > 0 && r[0] == Name(ks[0])[0]
    ensures '+' in r <==> |ks| >= 2
    decreases |ks|
  {
    if |ks| == 0 then ""
    else if |ks| == 1 then Name(ks[0])
    else
      var r := Name(ks[0]) + "+" + Joined(ks[1..]);
      assert r[|Name(ks[0])|] == '+';
      r
  }

  const NoKeysLabel: string := "none"

  /** The entry `log_keys` appends for a cycle's key list (script.py:82-87):
      "none" exactly for the empty list, and otherwise a label that holds a
      separator exactly when two or more keys were held. */
  function Label(keys: seq<Key>): (r: string)
    ensures r == NoKeysLabel <==> |keys| == 0
    ensures |keys| > 0 ==> ('+' in r <==> |keys| >= 2)
  {
    if |keys| == 0 then NoKeysLabel
    else
      var sorted := SortKeys(keys);
      assert |sorted| == |multiset(sorted)| == |multiset(keys)| == |keys|;
      assert NoKeysLabel[0] == 'n';
      Joined(sorted)
  }

  /** Python's `p in s` for strings: `p` occurs in `s` as a contiguous piece. */
  predicate Contains(s: string, p: string)
    ensures Contains(s, p) ==> |p| <= |s|
    decreases |s|
  {
    if |p| > |s| then false
    else s[..|p|] == p || Contains(s[1..], p)
  }

  /** `p` occurs in `s` starting at index `i`. */
  predicate OccursAt(s: string, p: string, i: int) {
    0 <= i && i + |p| <= |s| && s[i..i + |p|] == p
  }

  /** `Contains` is the substring test: `p` occurs at some index of `s`. */
  lemma {:induction false} ContainsIsSubstring(s: string, p: string)
    ensures Contains(s, p) <==> exists i :: OccursAt(s, p, i)
    decreases |s|
  {
    if |p| <= |s| {
      if s[..|p|] == p {
        assert OccursAt(s, p, 0);
      } else {
        assert |s| > 0;
        ContainsIsSubstring(s[1..], p);
        if Contains(s[1..], p) {
          var j :| OccursAt(s[1..], p, j);
          assert s[1..][j..j + |p|] == s[j + 1..j + 1 + |p|];
          assert OccursAt(s, p, j + 1);
        }
        if i :| OccursAt(s, p, i) {
          assert i != 0;
          assert s[1..][i - 1..i - 1 + |p|] == s[i..i + |p|];
          assert OccursAt(s[1..], p, i - 1);
        }
      }
    }
  }

  /** The test `"+" in k and "space" not in k` of `check_orbit_dance`: the entry
      records two or more keys held together, none of them the attack key.
      Such an entry holds a separator, so it is never the no-keys label. */
  predicate IsDiagonal(entry: string)
    ensures IsDiagonal(entry) ==> '+' in entry && entry != NoKeysLabel
  {
    ContainsOneChar(entry, '+');
    assert '+' !in NoKeysLabel;
    Contains(entry, "+") && !Contains(entry, "space")
  }

  /** Any reordering of a key list is recorded under the same label. */
  lemma LabelIgnoresOrder(k1: seq<Key>, k2: seq<Key>)
    requires multiset(k1) == multiset(k2)
    ensures Label(k1) == Label(k2)
  {
    assert |k1| == |multiset(k1)| == |multiset(k2)| == |k2|;
    SortedUnique(SortKeys(k1), SortKeys(k2));
  }

  lemma {:induction false} ContainsOneChar(s: string, c: char)
    ensures Contains(s, [c]) <==> c in s
    decreases |s|
  {
    if |s| > 0 {
      ContainsOneChar(s[1..], c);
      assert s == [s[0]] + s[1..];
    }
  }

  lemma {:induction false} ContainsNeedsChar(s: string, p: string, c: char)
    requires c in p && c !in s
    ensures !Contains(s, p)
    decreases |s|
  {
    if |p| <= |s| {
      var i :| 0 <= i < |p| && p[i] == c;
      assert s[..|p|][i] == s[i] != c;
      assert s == [s[0]] + s[1..];
      ContainsNeedsChar(s[1..], p, c);
    }
  }

  lemma {:induction false} ContainsPrepend(x: string, s: string, p: string)
    requires Contains(s, p)
    ensures Contains(x + s, p)
    decreases |x|
  {
    assert |p| <= |s|;
    if |x| > 0 {
      ContainsPrepend(x[1..], s, p);
      assert (x + s)[1..] == x[1..] + s;
      assert Contains((x + s)[1..], p);
    } else {
      assert x + s == s;
    }
  }

  /** The letter 'p' of a label can only come from the name "space". */
  lemma {:induction false} LetterPInJoined(ks: seq<Key>)
    requires 'p' in Joined(ks)
    ensures Space in ks
    decreases |ks|
  {
    if |ks| >= 2 {
      if ks[0] != Space {
        assert 'p' !in Name(ks[0]) + "+";
        assert Joined(ks) == (Name(ks[0]) + "+") + Joined(ks[1..]);
        LetterPInJoined(ks[1..]);
      }
    }
  }

  lemma {:induction false} SpaceInJoined(ks: seq<Key>)
    requires Space in ks
    ensures Contains(Joined(ks), "space")
    decreases |ks|
  {
    if ks[0] == Space {
      assert Joined(ks)[..5] == "space";
    } else {
      assert |ks| >= 2;
      SpaceInJoined(ks[1..]);
      assert Joined(ks) == (Name(ks[0]) + "+") + Joined(ks[1..]);
      ContainsPrepend(Name(ks[0]) + "+", Joined(ks[1..]), "space");
    }
  }

  /** A recorded entry counts as diagonal exactly when the cycle held two or
      more keys and none of them was the attack key. */
  lemma DiagonalLabel(keys: seq<Key>)
    ensures IsDiagonal(Label(keys)) <==> |keys| >= 2 && Space !in keys
  {
    assert "space"[1] == 'p';
    if |keys| == 0 {
      ContainsOneChar(NoKeysLabel, '+');
    } else {
      var sorted := SortKeys(keys);
      assert |sorted| == |multiset(sorted)| == |multiset(keys)| == |keys|;
      assert Space in sorted <==> Space in keys by {
        assert Space in sorted <==> Space in multiset(sorted);
      }
      ContainsOneChar(Joined(sorted), '+');
      if Space in sorted {
        SpaceInJoined(sorted);
      } else {
        if 'p' in Joined(sorted) {
          LetterPInJoined(sorted);
        }
        ContainsNeedsChar(Joined(sorted), "space", 'p');
      }
    }
  }
}
