/**
 * The earlier revision of the dedup cache, yt/cache.py: only an in-memory set. Its
 * filter_uncached returns the items that ARE in the cache, although its name and the
 * base class's docstring ask for the uncached ones.
 */
module OldCache {
  import opened Common

  /** What the old filter_uncached computes: list(cache.intersection(items)) as a set. */
  function CachedAmong(cache: set<string>, items: seq<string>): (r: set<string>)
    ensures forall x :: x in r <==> x in cache && x in items
  {
    cache * Elems(items)
  }

  /** The discrepancy: on an empty cache the old filter reports that nothing is uncached. */
  lemma CachedAmongEmptyCache(items: seq<string>)
    requires items != []
    ensures CachedAmong({}, items) == {}
    ensures items[0] !in CachedAmong({}, items)
  {
  }

  /**
   * The old filter never reports an item that is not already in the cache: it reports
   * exactly the inputs that the intended filter, set(items) - cache, leaves out.
   */
  lemma CachedAmongIsCached(cache: set<string>, items: seq<string>)
    ensures CachedAmong(cache, items) <= cache && CachedAmong(cache, items) <= Elems(items)
    ensures CachedAmong(cache, items) == Elems(items) - (Elems(items) - cache)
  {
  }

  class OldMemoryCache {
    var cache: set<string>

    constructor (initItems: seq<string>)
      ensures cache == Elems(initItems)
    {
      cache := Elems(initItems);
    }

    method FilterUncached(items: seq<string>) returns (r: seq<string>)
      ensures NoDuplicates(r)
      ensures Elems(r) == CachedAmong(cache, items)
      ensures forall x :: x in r <==> x in cache && x in items
    {
      r := ListOfSet(cache * Elems(items));
    }

    method AddItems(items: seq<string>)
      modifies this
      ensures cache == old(cache) + Elems(items)
      ensures forall x :: x in items ==> x in cache
    {
      cache := cache + Elems(items);
    }

    method IsInCache(item: string) returns (b: bool)
      ensures b <==> item in cache
    {
      b := item in cache;
    }
  }
}
