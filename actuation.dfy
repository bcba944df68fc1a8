/** `update_keys` (script.py:361-365): the cycle's key list is pressed and
    every other managed key is released.  The input device is modelled by the
    set of keys it currently holds down. */
module Actuation {
  import opened Keys

  /** `all_keys` in the order the source releases them. */
  const ManagedKeys: seq<Key> := [W, S, A, D, Space]

  /** Every key the bot can press is one of the managed keys. */
  lemma EveryKeyIsManaged(k: Key)
    ensures k in ManagedKeys
  {
    match k
    case W => assert ManagedKeys[0] == W;
    case S => assert ManagedKeys[1] == S;
    case A => assert ManagedKeys[2] == A;
    case D => assert ManagedKeys[3] == D;
    case Space => assert ManagedKeys[4] == Space;
  }

  class Keyboard {
    /** The keys currently held down. */
    var held: set<Key>

    constructor ()
      ensures held == {}
    {
      held := {};
    }

    /** Press every key of `keys`, then release each managed key not in `keys`:
        afterwards exactly the listed keys are held, whatever was held before. */
    method UpdateKeys(keys: seq<Key>)
      modifies this
      ensures held == set k | k in keys
    {
      var i := 0;
      while i < |keys|
        invariant 0 <= i <= |keys|
        invariant forall k :: k in keys[..i] ==> k in held
        invariant forall k :: k in held ==> k in old(held) || k in keys
      {
        held := held + {keys[i]};
        i := i + 1;
      }
      var j := 0;
      while j < |ManagedKeys|
        invariant 0 <= j <= |ManagedKeys|
        invariant forall k :: k in keys ==> k in held
        invariant forall k :: k in held ==> k in old(held) || k in keys
        invariant forall k :: k in ManagedKeys[..j] && k !in keys ==> k !in held
      {
        var k := ManagedKeys[j];
        if k !in keys {
          held := held - {k};
        }
        j := j + 1;
      }
      forall k | k in held ensures k in keys {
        EveryKeyIsManaged(k);
        assert k in ManagedKeys[..j];
      }
    }
  }
}
