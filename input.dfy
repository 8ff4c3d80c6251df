/**
 * Keyboard state of the voxel demo: the `keys` dictionary that the
 * keydown/keyup listeners overwrite and that the physics step reads.
 */
module Input {

  /** A key identifier, already lower-cased by the listener. */
  type Key = string

  /**
   * Whether a key counts as held. A key never seen has no entry, which in
   * the source reads as `undefined` and so as "not held".
   */
  predicate Pressed(keys: map<Key, bool>, k: Key)
    ensures Pressed(keys, k) ==> k in keys
  {
    k in keys && keys[k]
  }

  /** The dictionary of key states, starting empty. */
  class KeyState {
    var keys: map<Key, bool>

    constructor ()
      ensures keys == map[]
      ensures forall k :: !Pressed(keys, k)
    {
      keys := map[];
    }

    /** keydown: the key reads as held from now on. */
    method KeyDown(k: Key)
      modifies this
      ensures keys == old(keys)[k := true]
      ensures Pressed(keys, k)
      ensures forall j :: j != k ==> (Pressed(keys, j) <==> Pressed(old(keys), j))
    {
      keys := keys[k := true];
    }

    /** keyup: the key reads as released from now on. */
    method KeyUp(k: Key)
      modifies this
      ensures keys == old(keys)[k := false]
      ensures !Pressed(keys, k)
      ensures forall j :: j != k ==> (Pressed(keys, j) <==> Pressed(old(keys), j))
    {
      keys := keys[k := false];
    }
  }

  /** After a keyup, a keydown of the same key restores "held", and vice versa. */
  lemma ReleaseThenPress(keys: map<Key, bool>, k: Key, j: Key)
    ensures Pressed(keys[k := false][k := true], j) <==> (j == k || Pressed(keys, j))
    ensures Pressed(keys[k := true][k := false], j) <==> (j != k && Pressed(keys, j))
  {
  }
}
