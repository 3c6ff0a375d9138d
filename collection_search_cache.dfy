/** The last search query typed for each collection, in `localStorage` (`collection-search-cache`). */
module CollectionSearchCache {
  import opened Wrappers

  /** `cache[collectionId] || null`: a missing id and a stored empty query both read as null. */
  function LastSearch(cache: map<string, string>, collectionId: string): (r: Option<string>)
    ensures r.Some? <==> collectionId in cache && cache[collectionId] != []
    ensures r.Some? ==> r.value == cache[collectionId]
  {
    if collectionId in cache && cache[collectionId] != [] then Some(cache[collectionId]) else None
  }

  /** The stored object, `{}` when absent. */
  class Store {
    var cache: map<string, string>

    constructor ()
      ensures cache == map[]
    {
      cache := map[];
    }

    method GetLastSearch(collectionId: string) returns (r: Option<string>)
      ensures r == LastSearch(cache, collectionId)
    {
      if collectionId in cache && cache[collectionId] != [] {
        r := Some(cache[collectionId]);
      } else {
        r := None;
      }
    }

    /** `saves` is whether `localStorage.setItem` succeeds; when it throws nothing changes. */
    method SetLastSearch(collectionId: string, searchQuery: string, saves: bool)
      modifies this
      ensures cache == if saves then old(cache)[collectionId := searchQuery] else old(cache)
      ensures saves ==> LastSearch(cache, collectionId) == if searchQuery == [] then None else Some(searchQuery)
      ensures forall id :: id != collectionId ==> LastSearch(cache, id) == LastSearch(old(cache), id)
    {
      var updated := cache;
      updated := updated[collectionId := searchQuery];
      if saves {
        cache := updated;
      }
    }

    method RemoveCollectionCache(collectionId: string, saves: bool)
      modifies this
      ensures cache == if saves then old(cache) - {collectionId} else old(cache)
      ensures saves ==> LastSearch(cache, collectionId) == None
      ensures forall id :: id != collectionId ==> LastSearch(cache, id) == LastSearch(old(cache), id)
    {
      var updated := cache;
      updated := updated - {collectionId};
      if saves {
        cache := updated;
      }
    }

    method ClearCache()
      modifies this
      ensures cache == map[]
      ensures forall id :: LastSearch(cache, id) == None
    {
      cache := map[];
    }
  }

  /** Setting and then reading one collection gives the query back, unless it is empty. */
  lemma SetThenGet(cache: map<string, string>, collectionId: string, searchQuery: string, other: string)
    ensures LastSearch(cache[collectionId := searchQuery], collectionId) == if searchQuery == [] then None else Some(searchQuery)
    ensures other != collectionId ==> LastSearch(cache[collectionId := searchQuery], other) == LastSearch(cache, other)
  {
  }
}
