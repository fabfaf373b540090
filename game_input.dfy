/** The set of currently held keys, changed in place by keyboard and touch events. */
module GameInput {

  class HeldKeys {
    var keys: set<string>

    constructor ()
      ensures keys == {}
    {
      keys := {};
    }

    predicate Has(key: string)
      reads this
    {
      key in keys
    }

    /** A key press is recorded only while the input is active. */
    method KeyDown(key: string, isActive: bool)
      modifies this
      ensures keys == if isActive then old(keys) + {key} else old(keys)
      ensures isActive ==> key in keys
      ensures key in old(keys) ==> keys == old(keys)
    {
      if !isActive {
        return;
      }
      keys := keys + {key};
    }

    /** A key release is recorded whether or not the input is active. */
    method KeyUp(key: string)
      modifies this
      ensures keys == old(keys) - {key}
      ensures key !in old(keys) ==> keys == old(keys)
    {
      keys := keys - {key};
    }

    /** A touch button pressed: its key is held, and no other key changes. */
    method AddKey(key: string)
      modifies this
      ensures keys == old(keys) + {key}
      ensures forall k :: k != key ==> (k in keys <==> k in old(keys))
    {
      keys := keys + {key};
    }

    /** A touch button released: its key is no longer held, and no other key changes. */
    method RemoveKey(key: string)
      modifies this
      ensures keys == old(keys) - {key}
      ensures forall k :: k != key ==> (k in keys <==> k in old(keys))
    {
      keys := keys - {key};
    }

    method Clear()
      modifies this
      ensures keys == {}
    {
      keys := {};
    }
  }
}
