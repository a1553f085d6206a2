/** The process-wide response cache (a NodeCache instance created once at
    start-up): a mapping from string keys to serialized responses with no
    expiry and no eviction.  Values are opaque strings. */
module Caching {
  import opened Common

  class NodeCache {
    /** Everything currently cached. */
    var entries: map<string, string>

    /** `new NodeCache()`: an empty cache. */
    constructor ()
      ensures entries == map[]
    {
      entries := map[];
    }

    /** `cache.has(key)`: present, whatever the value. */
    predicate Has(key: string)
      reads this
      ensures Has(key) <==> Get(key).Some?
    {
      key in entries
    }

    /** `cache.get(key)`: the stored value, or `undefined` for a missing key. */
    function Get(key: string): (r: Option<string>)
      reads this
      ensures r.Some? <==> key in entries
      ensures r.Some? ==> r.value == entries[key]
    {
      if key in entries then Some(entries[key]) else None
    }

    /** `if (cache.get(key))`: a hit needs a present and non-empty value,
        so a cached empty string counts as a miss. */
    predicate GetIsTruthy(key: string)
      reads this
      ensures GetIsTruthy(key) <==> key in entries && entries[key] != ""
    {
      TruthyText(Get(key))
    }

    /** `cache.set(key, value)`: stores or overwrites one entry. */
    method Set(key: string, value: string)
      modifies this
      ensures entries == old(entries)[key := value]
      ensures Get(key) == Some(value)
    {
      entries := entries[key := value];
    }

    /** `cache.del(keys)`: removes every listed key; a key that is not
        present is skipped, never an error. */
    method Del(keys: seq<string>)
      modifies this
      ensures entries == old(entries) - KeySet(keys)
    {
      var i := 0;
      while i < |keys|
        invariant 0 <= i <= |keys|
        invariant entries == old(entries) - KeySet(keys[..i])
      {
        assert KeySet(keys[..i + 1]) == KeySet(keys[..i]) + {keys[i]} by {
          assert keys[..i + 1] == keys[..i] + [keys[i]];
        }
        entries := entries - {keys[i]};
        i := i + 1;
      }
      assert keys[..i] == keys;
    }
  }

  /** The two hit tests the handlers use differ on exactly one kind of entry:
      a key cached with the empty string is a hit for `has` and a miss for a
      truthy `get`.  Every truthy hit is a `has` hit. */
  lemma HitTests(c: NodeCache, key: string)
    ensures c.GetIsTruthy(key) ==> c.Has(key)
    ensures c.Has(key) && !c.GetIsTruthy(key) <==> c.Get(key) == Some("")
  {
  }

  /** The keys of a list, as a set. */
  function KeySet(keys: seq<string>): set<string>
  {
    set k | k in keys
  }
}
