/**
 * The table of pre-blended images keyed by runs of layer indices
 * (class LayersCache in src/Layers/LayersCache.py).
 */
module Cache {
  import opened Wrappers

  /** A position in the layer stack; layer indices are never negative. */
  type LayerIndex = nat

  /** A tuple of layer indices, such as (1, 2, 3). */
  type Key = seq<LayerIndex>

  /** The wall-clock reading the source takes from `datetime.now()`, passed in. */
  type Timestamp = int

  /** The record stored per key: the data, when it was stored, and when it was last used. */
  datatype Entry<D> = Entry(data: D, lastUpdated: Timestamp, lastUsed: Option<Timestamp>)

  class LayersCache<D> {
    /** The dictionary `self.cache`. */
    var cache: map<Key, Entry<D>>

    /** A new cache holds no entries. */
    constructor ()
      ensures cache == map[]
    {
      cache := map[];
    }

    /**
     * Stores `data` for `key`, overwriting any earlier entry; the entry is
     * stamped with `now` and marked as never used. No other key is touched.
     */
    method AddCache(key: Key, data: D, now: Timestamp)
      modifies this
      ensures key in cache && cache[key] == Entry(data, now, None)
      ensures cache.Keys == old(cache).Keys + {key}
      ensures forall k :: k in old(cache) && k != key ==> cache[k] == old(cache)[k]
    {
      cache := cache[key := Entry(data, now, None)];
    }
  }

  /** get_intersection: the cached keys that contain `layer`, in no particular order. */
  function Intersection<D>(cache: map<Key, Entry<D>>, layer: LayerIndex): (r: set<Key>)
    ensures forall k :: k in r <==> k in cache && layer in k
  {
    set k | k in cache && layer in k
  }

  /**
   * What add_cache does to get_intersection: the answer for `layer` gains
   * `key` exactly when `key` contains `layer`, and is otherwise unchanged.
   */
  lemma IntersectionAfterAdd<D>(cache: map<Key, Entry<D>>, key: Key, e: Entry<D>, layer: LayerIndex)
    ensures layer in key ==> Intersection(cache[key := e], layer) == Intersection(cache, layer) + {key}
    ensures layer !in key ==> Intersection(cache[key := e], layer) == Intersection(cache, layer)
  {
  }

  /** get_intersection is empty exactly when no cached key contains the layer. */
  lemma IntersectionEmpty<D>(cache: map<Key, Entry<D>>, layer: LayerIndex)
    ensures Intersection(cache, layer) == {} <==> forall k :: k in cache ==> layer !in k
  {
    if Intersection(cache, layer) != {} {
      var k :| k in Intersection(cache, layer);
    }
  }

  /** The scenario of test_get_intersection: keys (1,2), (2,3), (4,5). */
  lemma IntersectionExample(d1: int, d2: int, d3: int, now: Timestamp)
    ensures var c := map[[1, 2] := Entry(d1, now, None), [2, 3] := Entry(d2, now, None), [4, 5] := Entry(d3, now, None)];
            Intersection(c, 2) == {[1, 2], [2, 3]} && Intersection(c, 4) == {[4, 5]} && Intersection(c, 6) == {}
  {
    var c := map[[1, 2] := Entry(d1, now, None), [2, 3] := Entry(d2, now, None), [4, 5] := Entry(d3, now, None)];
    assert [1, 2] in Intersection(c, 2) && [2, 3] in Intersection(c, 2);
    assert [4, 5] in Intersection(c, 4);
  }
}
