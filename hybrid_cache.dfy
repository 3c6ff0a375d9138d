/**
 * The two-layer search cache: React Query's in-memory query cache in front of one
 * `sessionStorage` item holding a JSON object of session entries. Entries never expire; the
 * persisted object is trimmed to its newest 500 entries, and to its newest 125 when the
 * browser's storage quota refuses it.
 */
module HybridCache {
  import opened Wrappers
  import opened Keywords
  import opened JsObject

  const MaxEntries := 500
  /** `Math.floor(MAX_CACHE_ENTRIES * 0.25)`. */
  const QuotaRetryEntries := 125

  datatype SessionEntry = SessionEntry(data: SearchResponse, timestamp: int, queryKey: seq<string>)

  /**
   * What `sessionStorage.setItem` does on one save: it accepts the object; it throws
   * `QuotaExceededError` and then accepts the object trimmed to 125 entries; it throws that
   * error and then refuses the trimmed object too; or it throws some other error.
   */
  datatype Quota = Accepts | AcceptsTrimmed | Full | OtherError

  /** The React Query key `['search', projectId, query, searchMode]`. */
  function QueryKey(projectId: string, query: string, searchMode: string): (k: seq<string>)
    ensures |k| == 4 && k[..2] == ["search", projectId] && k[2] == query && k[3] == searchMode
  {
    ["search", projectId, query, searchMode]
  }

  /** The session key `${projectId}-${query}-${searchMode}`. */
  function SessionKey(projectId: string, query: string, searchMode: string): (k: string)
    ensures |k| == |projectId| + |query| + |searchMode| + 2
    ensures k[..|projectId| + 1] == projectId + "-"
  {
    projectId + "-" + query + "-" + searchMode
  }

  /** `isExpired`: entries never expire. */
  predicate Expired(timestamp: int)
  {
    false
  }

  function Timestamp(e: SessionEntry): int
  {
    e.timestamp
  }

  /** `cleanupOldestEntries(cache, keepCount)`: sort oldest first, keep `slice(-keepCount)`. */
  function Cleanup(cache: Entries<SessionEntry>, keepCount: nat): (kept: Entries<SessionEntry>)
    ensures |kept| == if keepCount == 0 || |cache| < keepCount then |cache| else keepCount
  {
    var sorted := SortBy(cache, Timestamp);
    // `slice(-0)` is `slice(0)`, the whole array
    if keepCount == 0 || |sorted| < keepCount then sorted else sorted[|sorted| - keepCount..]
  }

  /** The persisted object after `setSessionCache(cache)` when it held `stored` before. */
  function Saved(stored: Entries<SessionEntry>, cache: Entries<SessionEntry>, quota: Quota): (r: Entries<SessionEntry>)
    ensures quota == Accepts ==> |r| == if |cache| > MaxEntries then MaxEntries else |cache|
    ensures quota == AcceptsTrimmed ==> |r| <= QuotaRetryEntries
    ensures quota == Full ==> r == []
    ensures quota == OtherError ==> r == stored
  {
    var trimmed := if |cache| > MaxEntries then Cleanup(cache, MaxEntries) else cache;
    match quota
    case Accepts => trimmed
    case AcceptsTrimmed => Cleanup(trimmed, QuotaRetryEntries)
    case Full => []
    case OtherError => stored
  }

  /** What `getCachedResult` returns: the memory layer first, then the session layer. */
  function Lookup(memory: map<seq<string>, SearchResponse>, stored: Entries<SessionEntry>,
                  projectId: string, query: string, searchMode: string): (r: Option<SearchResponse>)
    ensures QueryKey(projectId, query, searchMode) in memory ==> r == Some(memory[QueryKey(projectId, query, searchMode)])
    ensures QueryKey(projectId, query, searchMode) !in memory ==>
      (r.Some? <==> exists e :: (SessionKey(projectId, query, searchMode), e) in stored)
    ensures QueryKey(projectId, query, searchMode) !in memory && r.Some? ==>
      exists e :: (SessionKey(projectId, query, searchMode), e) in stored && e.data == r.value
  {
    var queryKey := QueryKey(projectId, query, searchMode);
    if queryKey in memory then Some(memory[queryKey])
    else match Get(stored, SessionKey(projectId, query, searchMode))
      case Some(entry) => if Expired(entry.timestamp) then None else Some(entry.data)
      case None => None
  }

  /** `removeQueries({ queryKey: prefix, exact: false })`: drop every key that starts with `prefix`. */
  function DropPrefix(memory: map<seq<string>, SearchResponse>, prefix: seq<string>): (r: map<seq<string>, SearchResponse>)
    ensures forall k :: k in r <==> k in memory && !(|prefix| <= |k| && k[..|prefix|] == prefix)
    ensures forall k :: k in r ==> r[k] == memory[k]
  {
    map k | k in memory && !(|prefix| <= |k| && k[..|prefix|] == prefix) :: memory[k]
  }

  /** The entries `clearProjectCache` keeps: those whose query key does not mention the project. */
  function OtherProjects(stored: Entries<SessionEntry>, projectId: string): (r: Entries<SessionEntry>)
    ensures multiset(r) <= multiset(stored)
    ensures forall i :: 0 <= i < |r| ==> projectId !in r[i].1.queryKey
  {
    Filter(stored, (key: string, e: SessionEntry) => projectId !in e.queryKey)
  }

  /** The two stores the hook reads and writes. */
  class Stores {
    /** React Query's cache, for the search keys. */
    var memory: map<seq<string>, SearchResponse>
    /** The `brainstormer-search-session` item; an absent item reads as `{}`. */
    var stored: Entries<SessionEntry>

    constructor ()
      ensures memory == map[] && stored == []
    {
      memory := map[];
      stored := [];
    }

    method SetSessionCache(cache: Entries<SessionEntry>, quota: Quota)
      modifies this
      ensures memory == old(memory)
      ensures stored == Saved(old(stored), cache, quota)
    {
      var trimmed := cache;
      if |trimmed| > MaxEntries {
        trimmed := Cleanup(trimmed, MaxEntries);
      }
      match quota {
        case Accepts => stored := trimmed;
        case AcceptsTrimmed => stored := Cleanup(trimmed, QuotaRetryEntries);
        case Full => stored := [];
        case OtherError =>
      }
    }

    method GetCachedResult(projectId: string, query: string, searchMode: string) returns (r: Option<SearchResponse>)
      modifies this
      ensures r == Lookup(old(memory), old(stored), projectId, query, searchMode)
      ensures memory == if r.Some? then old(memory)[QueryKey(projectId, query, searchMode) := r.value] else old(memory)
      ensures stored == old(stored)
    {
      var queryKey := QueryKey(projectId, query, searchMode);
      if queryKey in memory {
        r := Some(memory[queryKey]);
        assert memory[queryKey := r.value] == memory;
        return;
      }
      var sessionEntry := Get(stored, SessionKey(projectId, query, searchMode));
      if sessionEntry.Some? && !Expired(sessionEntry.value.timestamp) {
        memory := memory[queryKey := sessionEntry.value.data];
        r := Some(sessionEntry.value.data);
        return;
      }
      r := None;
    }

    method SetCachedResult(projectId: string, query: string, searchMode: string, data: SearchResponse,
                           now: int, quota: Quota)
      modifies this
      ensures memory == old(memory)[QueryKey(projectId, query, searchMode) := data]
      ensures stored == Saved(old(stored), Put(old(stored), SessionKey(projectId, query, searchMode),
                                               SessionEntry(data, now, QueryKey(projectId, query, searchMode))), quota)
      ensures Lookup(memory, stored, projectId, query, searchMode) == Some(data)
    {
      var queryKey := QueryKey(projectId, query, searchMode);
      memory := memory[queryKey := data];
      var sessionCache := stored;
      sessionCache := Put(sessionCache, SessionKey(projectId, query, searchMode), SessionEntry(data, now, queryKey));
      SetSessionCache(sessionCache, quota);
    }

    method ClearCache()
      modifies this
      ensures memory == DropPrefix(old(memory), ["search"])
      ensures stored == []
    {
      memory := DropPrefix(memory, ["search"]);
      stored := [];
    }

    method ClearProjectCache(projectId: string, quota: Quota)
      modifies this
      ensures memory == DropPrefix(old(memory), ["search", projectId])
      ensures stored == Saved(old(stored), OtherProjects(old(stored), projectId), quota)
    {
      memory := DropPrefix(memory, ["search", projectId]);
      var filteredCache := Collect(stored, (key: string, e: SessionEntry) => projectId !in e.queryKey);
      SetSessionCache(filteredCache, quota);
    }

    method ClearSearchCache(projectId: string, query: string, searchMode: string, quota: Quota)
      modifies this
      ensures memory == old(memory) - {QueryKey(projectId, query, searchMode)}
      ensures stored == Saved(old(stored), Delete(old(stored), SessionKey(projectId, query, searchMode)), quota)
    {
      memory := memory - {QueryKey(projectId, query, searchMode)};
      var sessionCache := stored;
      sessionCache := Delete(sessionCache, SessionKey(projectId, query, searchMode));
      SetSessionCache(sessionCache, quota);
    }
  }

  // ---------------------------------------------------------------- properties

  /** Distinct searches get distinct session keys, for project ids of one length and the two modes. */
  lemma SessionKeyInjective(p1: string, q1: string, m1: string, p2: string, q2: string, m2: string)
    requires |p1| == |p2|
    requires m1 in {"and", "or"} && m2 in {"and", "or"}
    requires SessionKey(p1, q1, m1) == SessionKey(p2, q2, m2)
    ensures p1 == p2 && q1 == q2 && m1 == m2
  {
    var k := SessionKey(p1, q1, m1);
    assert p1 == k[..|p1|] == p2;
    assert k[|k| - 1] == m1[|m1| - 1] && k[|k| - 1] == m2[|m2| - 1];
    assert m1 == m2;
    assert q1 == k[|p1| + 1..|k| - |m1| - 1] == q2;
  }

  /** `cleanupOldestEntries` keeps the newest entries: nothing dropped is newer than anything kept. */
  lemma CleanupKeepsNewest(cache: Entries<SessionEntry>, keepCount: nat)
    ensures multiset(Cleanup(cache, keepCount)) <= multiset(cache)
    ensures forall x, y :: x in Cleanup(cache, keepCount) && y in cache && y !in Cleanup(cache, keepCount) ==>
      y.1.timestamp <= x.1.timestamp
  {
    var sorted := SortBy(cache, Timestamp);
    SortBySorted(cache, Timestamp);
    var kept := Cleanup(cache, keepCount);
    if keepCount == 0 || |sorted| < keepCount {
      assert kept == sorted;
      forall y | y in cache ensures y in kept {
        assert y in multiset(cache);
      }
    } else {
      var cut := |sorted| - keepCount;
      assert kept == sorted[cut..];
      assert sorted == sorted[..cut] + kept;
      assert multiset(sorted) == multiset(sorted[..cut]) + multiset(kept);
      forall x, y | x in kept && y in cache && y !in kept
        ensures y.1.timestamp <= x.1.timestamp
      {
        var i :| 0 <= i < |kept| && kept[i] == x;
        assert y in multiset(sorted);
        var j :| 0 <= j < |sorted| && sorted[j] == y;
        assert sorted[cut + i] == x;
      }
    }
  }

  /** The persisted object never holds more than 500 entries, and no more than 125 after a quota retry. */
  lemma SavedBound(stored: Entries<SessionEntry>, cache: Entries<SessionEntry>, quota: Quota)
    requires |stored| <= MaxEntries
    ensures |Saved(stored, cache, quota)| <= MaxEntries
    ensures quota == AcceptsTrimmed ==> |Saved(stored, cache, quota)| <= QuotaRetryEntries
    ensures quota == Full ==> Saved(stored, cache, quota) == []
    ensures quota == OtherError ==> Saved(stored, cache, quota) == stored
  {
  }

  /** Saving an object of at most 500 entries that the storage accepts persists it as it is. */
  lemma SavedAccepted(stored: Entries<SessionEntry>, cache: Entries<SessionEntry>)
    requires |cache| <= MaxEntries
    ensures Saved(stored, cache, Accepts) == cache
  {
  }

  /**
   * After `setCachedResult` the entry survives in the session layer, so a lookup after a
   * reload (an empty memory layer) still finds it, provided the storage took the object and
   * every earlier entry is older.
   */
  lemma SetThenReload(stored: Entries<SessionEntry>, projectId: string, query: string, searchMode: string,
                      data: SearchResponse, now: int, quota: Quota)
    requires quota == Accepts || quota == AcceptsTrimmed
    requires forall i :: 0 <= i < |stored| ==> stored[i].1.timestamp < now
    ensures (SessionKey(projectId, query, searchMode), SessionEntry(data, now, QueryKey(projectId, query, searchMode)))
      in Saved(stored, Put(stored, SessionKey(projectId, query, searchMode),
                           SessionEntry(data, now, QueryKey(projectId, query, searchMode))), quota)
    ensures Lookup(map[], Saved(stored, Put(stored, SessionKey(projectId, query, searchMode),
                                            SessionEntry(data, now, QueryKey(projectId, query, searchMode))), quota),
                   projectId, query, searchMode).Some?
  {
    var key := SessionKey(projectId, query, searchMode);
    var entry := SessionEntry(data, now, QueryKey(projectId, query, searchMode));
    var cache := Put(stored, key, entry);
    PutHas(stored, key, entry);
    PutOthers(stored, key, entry);
    NewestSaved(stored, cache, (key, entry), quota);
  }

  /** The strictly newest entry of the object being saved is persisted whenever the storage takes anything. */
  lemma NewestSaved(stored: Entries<SessionEntry>, cache: Entries<SessionEntry>, x: (string, SessionEntry), quota: Quota)
    requires quota == Accepts || quota == AcceptsTrimmed
    requires x in cache
    requires forall y :: y in cache && y != x ==> y.1.timestamp < x.1.timestamp
    ensures x in Saved(stored, cache, quota)
  {
    var trimmed := if |cache| > MaxEntries then Cleanup(cache, MaxEntries) else cache;
    NewestKept(cache, x, MaxEntries);
    assert forall y :: y in trimmed && y != x ==> y.1.timestamp < x.1.timestamp by {
      forall y | y in trimmed && y != x
        ensures y.1.timestamp < x.1.timestamp
      {
        if |cache| > MaxEntries {
          CleanupKeepsNewest(cache, MaxEntries);
          assert y in multiset(trimmed);
        }
      }
    }
    NewestKept(trimmed, x, QuotaRetryEntries);
  }

  /** The strictly newest entry survives `cleanupOldestEntries` for any positive count. */
  lemma NewestKept(cache: Entries<SessionEntry>, x: (string, SessionEntry), keepCount: nat)
    requires keepCount > 0 && x in cache
    requires forall y :: y in cache && y != x ==> y.1.timestamp < x.1.timestamp
    ensures x in Cleanup(cache, keepCount)
  {
    SortByLast(cache, x, Timestamp);
    var sorted := SortBy(cache, Timestamp);
    if !(|sorted| < keepCount) {
      assert sorted[|sorted| - keepCount..][keepCount - 1] == x;
    }
  }

  /** `clearProjectCache`, when the storage takes the result, keeps exactly the entries not mentioning the project. */
  lemma ClearProjectKeepsOthers(stored: Entries<SessionEntry>, projectId: string, x: (string, SessionEntry))
    requires |stored| <= MaxEntries
    ensures x in Saved(stored, OtherProjects(stored, projectId), Accepts) <==> x in stored && projectId !in x.1.queryKey
  {
    SavedAccepted(stored, OtherProjects(stored, projectId));
    FilterHas(stored, (key: string, e: SessionEntry) => projectId !in e.queryKey, x);
  }

  /** `clearSearchCache`, when the storage takes the result, removes one session key and no other. */
  lemma ClearSearchRemovesOne(stored: Entries<SessionEntry>, projectId: string, query: string, searchMode: string, key: string)
    requires |stored| <= MaxEntries
    ensures Get(Saved(stored, Delete(stored, SessionKey(projectId, query, searchMode)), Accepts), key) ==
      if key == SessionKey(projectId, query, searchMode) then None else Get(stored, key)
  {
    var cache := Delete(stored, SessionKey(projectId, query, searchMode));
    SavedAccepted(stored, cache);
    DeleteGet(stored, SessionKey(projectId, query, searchMode), key);
  }
}
