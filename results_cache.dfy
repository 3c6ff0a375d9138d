/**
 * The five-minute `localStorage` search-results cache (`search-results-cache`): one entry per
 * `${projectId}-${query}-${searchMode}`, expired entries swept out on every write.
 */
module ResultsCache {
  import opened Wrappers
  import opened Keywords

  /** Five minutes, in milliseconds. */
  const CacheDuration := 5 * 60 * 1000

  datatype CachedSearchResult = CachedSearchResult(data: SearchResponse, timestamp: int,
                                                   projectId: string, query: string, searchMode: string)

  function CacheKey(projectId: string, query: string, searchMode: string): (k: string)
    ensures |k| == |projectId| + |query| + |searchMode| + 2
    ensures k[..|projectId| + 1] == projectId + "-"
  {
    projectId + "-" + query + "-" + searchMode
  }

  /** `Date.now() - timestamp > CACHE_DURATION`. */
  predicate Expired(now: int, timestamp: int)
    ensures Expired(now, timestamp) ==> timestamp < now
    ensures now <= timestamp + CacheDuration ==> !Expired(now, timestamp)
  {
    now - timestamp > CacheDuration
  }

  /** The cache with its expired entries deleted. */
  function Swept(cache: map<string, CachedSearchResult>, now: int): (r: map<string, CachedSearchResult>)
    ensures forall k :: k in r <==> k in cache && !Expired(now, cache[k].timestamp)
    ensures forall k :: k in r ==> r[k] == cache[k]
  {
    map k | k in cache && !Expired(now, cache[k].timestamp) :: cache[k]
  }

  /** What `getCachedResult` returns for the stored object `cache` at time `now`. */
  function Lookup(cache: map<string, CachedSearchResult>, projectId: string, query: string, searchMode: string, now: int): (r: Option<SearchResponse>)
    ensures projectId == [] || query == [] ==> r == None
    ensures r.Some? <==> projectId != [] && query != [] && CacheKey(projectId, query, searchMode) in cache
                         && !Expired(now, cache[CacheKey(projectId, query, searchMode)].timestamp)
  {
    if projectId == [] || query == [] then None
    else
      var cacheKey := CacheKey(projectId, query, searchMode);
      if cacheKey !in cache || Expired(now, cache[cacheKey].timestamp) then None
      else Some(cache[cacheKey].data)
  }

  /** The `Object.keys(cache).forEach(...)` sweep, deleting one expired key at a time. */
  method Sweep(cache: map<string, CachedSearchResult>, now: int) returns (swept: map<string, CachedSearchResult>)
    ensures swept == Swept(cache, now)
  {
    swept := cache;
    var keys := cache.Keys;
    while keys != {}
      invariant keys <= cache.Keys
      invariant forall k :: k in swept <==> k in cache && (k in keys || !Expired(now, cache[k].timestamp))
      invariant forall k :: k in swept ==> swept[k] == cache[k]
      decreases |keys|
    {
      var key :| key in keys;
      if Expired(now, swept[key].timestamp) {
        swept := swept - {key};
      }
      keys := keys - {key};
    }
  }

  /** The stored object, `{}` when absent. */
  class Store {
    var cache: map<string, CachedSearchResult>

    constructor ()
      ensures cache == map[]
    {
      cache := map[];
    }

    method GetCachedResult(projectId: string, query: string, searchMode: string, now: int) returns (r: Option<SearchResponse>)
      ensures r == Lookup(cache, projectId, query, searchMode, now)
    {
      if projectId == [] || query == [] {
        return None;
      }
      var cacheKey := CacheKey(projectId, query, searchMode);
      if cacheKey !in cache || Expired(now, cache[cacheKey].timestamp) {
        return None;
      }
      r := Some(cache[cacheKey].data);
    }

    /** `saves` is whether `localStorage.setItem` succeeds; when it throws, the stored object stays as it was. */
    method SetCachedResult(projectId: string, query: string, searchMode: string, data: SearchResponse, now: int, saves: bool)
      modifies this
      ensures cache == if saves then Swept(old(cache)[CacheKey(projectId, query, searchMode) :=
                                             CachedSearchResult(data, now, projectId, query, searchMode)], now)
                       else old(cache)
    {
      var updated := cache[CacheKey(projectId, query, searchMode) := CachedSearchResult(data, now, projectId, query, searchMode)];
      updated := Sweep(updated, now);
      if saves {
        cache := updated;
      }
    }

    method ClearCache()
      modifies this
      ensures cache == map[]
    {
      cache := map[];
    }
  }

  // ---------------------------------------------------------------- properties

  /** A write at `now` can be read back at `now`, for a non-empty project and query. */
  lemma SetThenGet(cache: map<string, CachedSearchResult>, projectId: string, query: string, searchMode: string,
                   data: SearchResponse, now: int)
    requires projectId != [] && query != []
    ensures Lookup(Swept(cache[CacheKey(projectId, query, searchMode) := CachedSearchResult(data, now, projectId, query, searchMode)], now),
                   projectId, query, searchMode, now) == Some(data)
  {
  }

  /** After a write no expired entry remains, and every unexpired entry but the written one is untouched. */
  lemma SweptKeepsFresh(cache: map<string, CachedSearchResult>, key: string, entry: CachedSearchResult, now: int,
                        swept: map<string, CachedSearchResult>)
    requires !Expired(now, entry.timestamp)
    requires swept == Swept(cache[key := entry], now)
    ensures forall k :: k in swept ==> !Expired(now, swept[k].timestamp)
    ensures forall k :: k in cache && k != key && !Expired(now, cache[k].timestamp) ==> k in swept && swept[k] == cache[k]
    ensures key in swept && swept[key] == entry
  {
  }

  /** After `clearCache` every lookup misses. */
  lemma ClearedMisses(projectId: string, query: string, searchMode: string, now: int)
    ensures Lookup(map[], projectId, query, searchMode, now) == None
  {
  }
}
