/** `KeyCombination`: the immutable floor + two-key value. The third and
    fourth keys of earlier revisions are gone: a combination holds exactly
    two. Being a datatype, it cannot change after construction. */
module Combination {
  import opened Domain
  import opened Util

  datatype KeyCombination = KeyCombination(floorName: FloorName, key1: Key, key2: Key) {

    /** The keys in the order the player has to press them. */
    function Keys(): (ks: seq<Key>)
      ensures |ks| == 2
    {
      [key1, key2]
    }
  }

  /** The constructor keeps its arguments verbatim and in argument order. */
  lemma ConstructorStoresArguments(f: FloorName, k1: Key, k2: Key)
    ensures KeyCombination(f, k1, k2).floorName == f
    ensures KeyCombination(f, k1, k2).Keys() == [k1, k2]
  {
  }

  /** A combination is rebuilt from its floor and its key sequence. */
  lemma KeysRoundTrip(c: KeyCombination)
    ensures KeyCombination(c.floorName, c.Keys()[0], c.Keys()[1]) == c
  {
  }

  /** The key-sequence hash of a combination, in closed form. */
  lemma CombinationHash(c: KeyCombination)
    ensures KeySequenceHash(c.Keys()) == 468_007 + 31 * Ord(c.key1) + Ord(c.key2)
  {
    TwoKeyHash(c.key1, c.key2);
  }

  /** Two combinations whose key sequences hash alike need the same two keys
      in the same order. */
  lemma SameHashSameKeys(c: KeyCombination, d: KeyCombination)
    requires KeySequenceHash(c.Keys()) == KeySequenceHash(d.Keys())
    ensures c.key1 == d.key1 && c.key2 == d.key2
  {
    HashInjective(c.Keys(), d.Keys());
    assert c.Keys()[0] == d.Keys()[0] && c.Keys()[1] == d.Keys()[1];
  }
}
