/**
 * The compact `localStorage` search cache (`brainstormer-search-cache-v2`): entries keep only
 * the suggestions, expire after two hours, and the stored object is cut to its 50 newest
 * valid entries on every write (25 when its JSON exceeds the 4 MB soft limit).
 */
module OptimizedCache {
  import opened Wrappers
  import opened Keywords
  import opened JsObject
  import Text

  /** Two hours, in milliseconds. */
  const CacheDuration := 2 * 60 * 60 * 1000
  const MaxCacheSize := 50
  const OversizeKeep := 25

  /** `{ d, t, p, q, m }`: suggestions, timestamp, project id, query, mode. */
  datatype Compact = Compact(d: seq<KeywordSuggestion>, t: int, p: string, q: string, m: string)

  /** What `localStorage.setItem` does with the object: stores it, or throws a quota or another error. */
  datatype Write = Stored | QuotaExceeded | WriteFailed

  // ---------------------------------------------------------------- compression

  /** `data.suggestions || []`: the suggestions array is always present here. */
  function Compress(data: SearchResponse): (d: seq<KeywordSuggestion>)
    ensures Decompress(d).suggestions == data.suggestions
  {
    data.suggestions
  }

  /** `{ suggestions }`. */
  function Decompress(d: seq<KeywordSuggestion>): (response: SearchResponse)
    ensures response.suggestions == d && response.searchId.None?
  {
    SearchResponse(None, d)
  }

  // ---------------------------------------------------------------- keys

  /** `btoa` accepts only strings whose characters are all below 256. */
  predicate Latin1(s: string)
  {
    forall i :: 0 <= i < |s| ==> s[i] as int < 256
  }

  /** The base64 digit of a value below 64: `A`-`Z`, `a`-`z`, `0`-`9`, `+`, `/`. */
  function Sextet(n: int): char
    requires 0 <= n < 64
  {
    if n < 26 then ('A' as int + n) as char
    else if n < 52 then ('a' as int + n - 26) as char
    else if n < 62 then ('0' as int + n - 52) as char
    else if n == 62 then '+'
    else '/'
  }

  /** Three characters as four base64 digits. */
  function Quad(a: int, b: int, c: int): (q: string)
    requires 0 <= a < 256 && 0 <= b < 256 && 0 <= c < 256
    ensures |q| == 4
  {
    [Sextet(a / 4), Sextet(a % 4 * 16 + b / 16), Sextet(b % 16 * 4 + c / 64), Sextet(c % 64)]
  }

  /** A character's code as a byte; `btoa` is only reached for `Latin1` strings, where this is the code itself. */
  function Byte(c: char): (b: int)
    ensures 0 <= b < 256
  {
    c as int % 256
  }

  /** The final group of one or two characters, padded with `=` to four digits. */
  function LastGroup(s: string): (r: string)
    requires |s| < 3
    ensures |r| == if s == [] then 0 else 4
  {
    if |s| == 0 then []
    else if |s| == 1 then Quad(Byte(s[0]), 0, 0)[..2] + "=="
    else Quad(Byte(s[0]), Byte(s[1]), 0)[..3] + "="
  }

  /** `btoa(s)`: each 3 characters become 4, the last group padded with `=`. */
  function Base64(s: string): (r: string)
    ensures |r| == 4 * ((|s| + 2) / 3)
  {
    if |s| < 3 then LastGroup(s)
    else Quad(Byte(s[0]), Byte(s[1]), Byte(s[2])) + Base64(s[3..])
  }

  /** `s.slice(0, n)`. */
  function Prefix(s: string, n: nat): (r: string)
    ensures |r| == if |s| <= n then |s| else n
    ensures r <= s
  {
    if |s| <= n then s else s[..n]
  }

  /** `${projectId.slice(0, 8)}-${btoa(query).slice(0, 16)}-${searchMode}`; `None` where `btoa` throws. */
  function CacheKey(projectId: string, query: string, searchMode: string): (key: Option<string>)
    ensures key.Some? <==> Latin1(query)
    ensures key.Some? ==> Text.StartsWith(key.value, Prefix(projectId, 8) + "-")
    ensures key.Some? ==> |searchMode| + 1 <= |key.value| <= 8 + 1 + 16 + 1 + |searchMode|
    ensures key.Some? ==> key.value[|key.value| - |searchMode| - 1..] == "-" + searchMode
  {
    if Latin1(query) then
      var head, tail := Prefix(projectId, 8) + "-", "-" + searchMode;
      var k := head + Prefix(Base64(query), 16) + tail;
      assert k[..|head|] == head && k[|k| - |tail|..] == tail;
      Some(k)
    else None
  }

  // ---------------------------------------------------------------- expiry and clean-up

  /** `Date.now() - timestamp > CACHE_DURATION`. */
  predicate Expired(now: int, t: int)
    ensures Expired(now, t) ==> t < now
    ensures now <= t + CacheDuration ==> !Expired(now, t)
  {
    now - t > CacheDuration
  }

  function Valid(now: int): (string, Compact) -> bool
  {
    (key: string, e: Compact) => !Expired(now, e.t)
  }

  /** Sorting by `Age` ascending is `sort((a, b) => b[1].t - a[1].t)`, newest first. */
  function Age(e: Compact): int
  {
    -e.t
  }

  /** Sort newest first and keep `slice(0, n)`. */
  function Newest(cache: Entries<Compact>, n: nat): (r: Entries<Compact>)
    ensures |r| <= n && |r| <= |cache|
  {
    var sorted := SortBy(cache, Age);
    if |sorted| <= n then sorted else sorted[..n]
  }

  /** `cleanupCache(cache)` at time `now`. */
  function Cleanup(cache: Entries<Compact>, now: int): Entries<Compact>
  {
    Newest(Filter(cache, Valid(now)), MaxCacheSize)
  }

  /** The stored object after `setCachedResult(projectId, query, searchMode, data)`. */
  function AfterSet(stored: Entries<Compact>, projectId: string, query: string, searchMode: string,
                    data: SearchResponse, now: int, oversize: bool, write: Write): (r: Entries<Compact>)
    ensures !Latin1(query) || write == WriteFailed ==> r == stored
    ensures Latin1(query) && write == QuotaExceeded ==> r == []
    ensures Latin1(query) && write == Stored ==> |r| <= MaxCacheSize && (oversize ==> |r| <= OversizeKeep)
  {
    match CacheKey(projectId, query, searchMode)
    case None => stored
    case Some(key) =>
      var cache := Cleanup(Put(stored, key, Compact(Compress(data), now, projectId, query, searchMode)), now);
      var cache' := if oversize then Newest(cache, OversizeKeep) else cache;
      match write
      case Stored => cache'
      case QuotaExceeded => []
      case WriteFailed => stored
  }

  /** `getCachedResult` as written: whatever entry sits under the key, if it has not expired. */
  function LookupAsWritten(stored: Entries<Compact>, projectId: string, query: string, searchMode: string, now: int): (r: Option<SearchResponse>)
    ensures r.Some? <==> Latin1(query) && Get(stored, CacheKey(projectId, query, searchMode).value).Some?
                         && !Expired(now, Get(stored, CacheKey(projectId, query, searchMode).value).value.t)
    ensures r.Some? ==> exists e :: (CacheKey(projectId, query, searchMode).value, e) in stored && !Expired(now, e.t)
                                    && r.value == Decompress(e.d)
  {
    match CacheKey(projectId, query, searchMode)
    case None => None
    case Some(key) =>
      match Get(stored, key)
      case None => None
      case Some(cached) => if Expired(now, cached.t) then None else Some(Decompress(cached.d))
  }

  /** `getCachedResult` that also checks the entry's own `p`, `q` and `m` against the request. */
  function Lookup(stored: Entries<Compact>, projectId: string, query: string, searchMode: string, now: int): (r: Option<SearchResponse>)
    ensures r.Some? ==> exists key, e :: (key, e) in stored && e.p == projectId && e.q == query && e.m == searchMode
                                         && !Expired(now, e.t) && r.value == Decompress(e.d)
  {
    match CacheKey(projectId, query, searchMode)
    case None => None
    case Some(key) =>
      match Get(stored, key)
      case None => None
      case Some(cached) =>
        if Expired(now, cached.t) || cached.p != projectId || cached.q != query || cached.m != searchMode then None
        else Some(Decompress(cached.d))
  }

  /** The stored object: `localStorage`'s `brainstormer-search-cache-v2`, `{}` when absent. */
  class Store {
    var stored: Entries<Compact>

    constructor ()
      ensures stored == []
    {
      stored := [];
    }

    /** `getCachedResult` as written: the entry under the key is returned without checking its `p`, `q` and `m`. */
    method GetCachedResult(projectId: string, query: string, searchMode: string, now: int) returns (r: Option<SearchResponse>)
      ensures r == LookupAsWritten(stored, projectId, query, searchMode, now)
    {
      var cacheKey := CacheKey(projectId, query, searchMode);
      if cacheKey.None? {
        return None;
      }
      var cached := Get(stored, cacheKey.value);
      if cached.None? || Expired(now, cached.value.t) {
        return None;
      }
      r := Some(Decompress(cached.value.d));
    }

    method SetCachedResult(projectId: string, query: string, searchMode: string, data: SearchResponse,
                           now: int, oversize: bool, write: Write)
      modifies this
      ensures stored == AfterSet(old(stored), projectId, query, searchMode, data, now, oversize, write)
    {
      var cacheKey := CacheKey(projectId, query, searchMode);
      if cacheKey.None? {
        return;
      }
      var cache := stored;
      cache := Put(cache, cacheKey.value, Compact(Compress(data), now, projectId, query, searchMode));
      cache := CleanupCache(cache, now);
      if oversize {
        cache := Newest(cache, OversizeKeep);
      }
      match write {
        case Stored => stored := cache;
        case QuotaExceeded => ClearCache();
        case WriteFailed =>
      }
    }

    method ClearCache()
      modifies this
      ensures stored == []
    {
      stored := [];
    }

    /** Copies the entries of other projects; the object stays as it was if the write fails. */
    method ClearProjectCache(projectId: string, writes: bool)
      modifies this
      ensures stored == if writes then Filter(old(stored), (key: string, e: Compact) => e.p != projectId) else old(stored)
    {
      var filteredCache := Collect(stored, (key: string, e: Compact) => e.p != projectId);
      if writes {
        stored := filteredCache;
      }
    }
  }

  /** `cleanupCache`: collect the valid entries, then sort and cut. */
  method CleanupCache(cache: Entries<Compact>, now: int) returns (limited: Entries<Compact>)
    ensures limited == Cleanup(cache, now)
  {
    var validEntries := Collect(cache, Valid(now));
    limited := Newest(validEntries, MaxCacheSize);
  }

  // ---------------------------------------------------------------- properties

  /** The round trip through the compact form keeps the suggestions and drops every other field. */
  lemma CompressRoundTrip(data: SearchResponse)
    ensures Decompress(Compress(data)).suggestions == data.suggestions
    ensures Decompress(Compress(data)) == data <==> data.searchId.None?
  {
  }

  /** `Newest` keeps the newest entries: nothing it drops is newer than anything it keeps. */
  lemma NewestKeepsNewest(cache: Entries<Compact>, n: nat)
    ensures multiset(Newest(cache, n)) <= multiset(cache)
    ensures |cache| <= n ==> multiset(Newest(cache, n)) == multiset(cache)
    ensures forall x, y :: x in Newest(cache, n) && y in cache && y !in Newest(cache, n) ==> y.1.t <= x.1.t
  {
    var sorted := SortBy(cache, Age);
    SortBySorted(cache, Age);
    var kept := Newest(cache, n);
    if |sorted| <= n {
      assert kept == sorted;
      forall y | y in cache ensures y in kept {
        assert y in multiset(cache);
      }
    } else {
      assert kept == sorted[..n];
      assert sorted == kept + sorted[n..];
      assert multiset(sorted) == multiset(kept) + multiset(sorted[n..]);
      forall x, y | x in kept && y in cache && y !in kept
        ensures y.1.t <= x.1.t
      {
        var i :| 0 <= i < |kept| && kept[i] == x;
        assert y in multiset(sorted);
        var j :| 0 <= j < |sorted| && sorted[j] == y;
        assert sorted[i] == x;
      }
    }
  }

  /**
   * `cleanupCache` keeps only unexpired entries, at most 50, and they are the newest of the
   * unexpired ones: an unexpired entry it drops is no newer than any it keeps, and none is
   * dropped while there are at most 50.
   */
  lemma CleanupKeepsNewestValid(cache: Entries<Compact>, now: int)
    ensures |Cleanup(cache, now)| <= MaxCacheSize
    ensures forall x :: x in Cleanup(cache, now) ==> x in cache && !Expired(now, x.1.t)
    ensures forall x, y :: x in Cleanup(cache, now) && y in cache && !Expired(now, y.1.t) && y !in Cleanup(cache, now) ==>
      y.1.t <= x.1.t
    ensures |Filter(cache, Valid(now))| <= MaxCacheSize ==>
      forall y :: y in cache && !Expired(now, y.1.t) ==> y in Cleanup(cache, now)
  {
    var valid := Filter(cache, Valid(now));
    var kept := Cleanup(cache, now);
    NewestKeepsNewest(valid, MaxCacheSize);
    forall x | x in kept ensures x in cache && !Expired(now, x.1.t) {
      assert x in multiset(kept);
      FilterHas(cache, Valid(now), x);
    }
    forall y | y in cache && !Expired(now, y.1.t) ensures y in valid {
      FilterHas(cache, Valid(now), y);
    }
    if |valid| <= MaxCacheSize {
      forall y | y in valid ensures y in kept {
        assert y in multiset(valid);
      }
    }
  }

  /** After a write the stored object has at most 50 entries, at most 25 when it was oversize. */
  lemma AfterSetBound(stored: Entries<Compact>, projectId: string, query: string, searchMode: string,
                      data: SearchResponse, now: int, oversize: bool, write: Write)
    requires Latin1(query) && write == Stored
    ensures |AfterSet(stored, projectId, query, searchMode, data, now, oversize, write)| <= MaxCacheSize
    ensures oversize ==> |AfterSet(stored, projectId, query, searchMode, data, now, oversize, write)| <= OversizeKeep
  {
  }

  /** A quota error while saving leaves no cache at all. */
  lemma QuotaClears(stored: Entries<Compact>, projectId: string, query: string, searchMode: string,
                    data: SearchResponse, now: int, oversize: bool)
    requires Latin1(query)
    ensures AfterSet(stored, projectId, query, searchMode, data, now, oversize, QuotaExceeded) == []
    ensures forall p, q, m :: Lookup([], p, q, m, now).None?
  {
  }

  /** `clearProjectCache` keeps exactly the entries of other projects. */
  lemma ClearProjectKeepsOthers(stored: Entries<Compact>, projectId: string, x: (string, Compact))
    ensures x in Filter(stored, (key: string, e: Compact) => e.p != projectId) <==> x in stored && x.1.p != projectId
  {
    FilterHas(stored, (key: string, e: Compact) => e.p != projectId, x);
  }

  /** An entry strictly newer than all others is the first of every `Newest` cut. */
  lemma NewestFirst(cache: Entries<Compact>, x: (string, Compact), n: nat)
    requires n > 0 && x in cache
    requires forall y :: y in cache && y != x ==> y.1.t < x.1.t
    ensures Newest(cache, n) != [] && Newest(cache, n)[0] == x
    ensures forall y :: y in Newest(cache, n) && y != x ==> y.1.t < x.1.t
  {
    SortByFirst(cache, x, Age);
    var kept := Newest(cache, n);
    forall y | y in kept && y != x ensures y.1.t < x.1.t {
      NewestKeepsNewest(cache, n);
      assert y in multiset(kept);
    }
  }

  /**
   * With the per-entry check, a search that was stored finds its own suggestions again at the
   * same instant, provided the write went through and every earlier entry is older.
   */
  lemma SetThenGet(stored: Entries<Compact>, projectId: string, query: string, searchMode: string,
                   data: SearchResponse, now: int, oversize: bool)
    requires Latin1(query)
    requires forall i :: 0 <= i < |stored| ==> stored[i].1.t < now
    ensures Lookup(AfterSet(stored, projectId, query, searchMode, data, now, oversize, Stored), projectId, query, searchMode, now)
      == Some(Decompress(data.suggestions))
  {
    var key := CacheKey(projectId, query, searchMode).value;
    var entry := Compact(Compress(data), now, projectId, query, searchMode);
    var put := Put(stored, key, entry);
    var valid := Filter(put, Valid(now));
    PutNewest(stored, key, entry, now);
    NewestFirst(valid, (key, entry), MaxCacheSize);
    var cache := Cleanup(put, now);
    var final := if oversize then Newest(cache, OversizeKeep) else cache;
    if oversize {
      NewestFirst(cache, (key, entry), OversizeKeep);
    }
    assert AfterSet(stored, projectId, query, searchMode, data, now, oversize, Stored) == final;
    LookupFirst(final, projectId, query, searchMode, now, key, entry);
  }

  /** The entry just written is valid and newer than every earlier one, which it replaces under its key. */
  lemma PutNewest(stored: Entries<Compact>, key: string, entry: Compact, now: int)
    requires entry.t == now
    requires forall i :: 0 <= i < |stored| ==> stored[i].1.t < now
    ensures (key, entry) in Filter(Put(stored, key, entry), Valid(now))
    ensures forall y :: y in Filter(Put(stored, key, entry), Valid(now)) && y != (key, entry) ==> y.1.t < now
  {
    var put := Put(stored, key, entry);
    PutHas(stored, key, entry);
    PutOthers(stored, key, entry);
    FilterHas(put, Valid(now), (key, entry));
    forall y | y in Filter(put, Valid(now)) && y != (key, entry) ensures y.1.t < now {
      FilterHas(put, Valid(now), y);
    }
  }

  /** An unexpired entry of the request's own project, query and mode that comes first under its key is found. */
  lemma LookupFirst(cache: Entries<Compact>, projectId: string, query: string, searchMode: string, now: int,
                    key: string, entry: Compact)
    requires CacheKey(projectId, query, searchMode) == Some(key)
    requires cache != [] && cache[0] == (key, entry)
    requires entry.p == projectId && entry.q == query && entry.m == searchMode && !Expired(now, entry.t)
    ensures Lookup(cache, projectId, query, searchMode, now) == Some(Decompress(entry.d))
  {
    assert Get(cache, key) == Some(entry);
  }

  /**
   * The as-written lookup agrees with the checked one whenever the checked one finds something;
   * they differ only where the entry under the key was stored for another project, query or mode.
   */
  lemma LookupAgrees(stored: Entries<Compact>, projectId: string, query: string, searchMode: string, now: int)
    ensures Lookup(stored, projectId, query, searchMode, now).Some? ==>
      LookupAsWritten(stored, projectId, query, searchMode, now) == Lookup(stored, projectId, query, searchMode, now)
    ensures LookupAsWritten(stored, projectId, query, searchMode, now) != Lookup(stored, projectId, query, searchMode, now) ==>
      Lookup(stored, projectId, query, searchMode, now).None?
      && exists e :: Get(stored, CacheKey(projectId, query, searchMode).value) == Some(e)
                     && (e.p != projectId || e.q != query || e.m != searchMode)
  {
  }

  // ---------------------------------------------------------------- the key collision

  /** Base64 of a whole number of 3-character groups is the concatenation of their encodings. */
  lemma {:induction false} Base64Append(a: string, b: string, groups: nat)
    requires |a| == 3 * groups
    ensures Base64(a + b) == Base64(a) + Base64(b)
    ensures |Base64(a)| == 4 * groups
  {
    if groups > 0 {
      var ab := a + b;
      var q := Quad(Byte(a[0]), Byte(a[1]), Byte(a[2]));
      assert ab[0] == a[0] && ab[1] == a[1] && ab[2] == a[2];
      assert Base64(ab) == q + Base64(ab[3..]);
      assert ab[3..] == a[3..] + b;
      Base64Append(a[3..], b, groups - 1);
      assert Base64(a) == q + Base64(a[3..]);
      Text.AppendAssoc(q, Base64(a[3..]), Base64(b));
    } else {
      assert a + b == b;
    }
  }

  /** Only the first 12 characters of a query reach the key: `btoa(query).slice(0, 16)` encodes just them. */
  lemma KeyIgnoresQueryTail(projectId: string, q1: string, q2: string, searchMode: string)
    requires Latin1(q1) && Latin1(q2)
    requires |q1| >= 12 && |q2| >= 12 && q1[..12] == q2[..12]
    ensures CacheKey(projectId, q1, searchMode) == CacheKey(projectId, q2, searchMode)
  {
    var head := q1[..12];
    assert q1 == head + q1[12..];
    assert q2 == head + q2[12..];
    Base64Append(head, q1[12..], 4);
    Base64Append(head, q2[12..], 4);
    assert Prefix(Base64(q1), 16) == Base64(head);
    assert Prefix(Base64(q2), 16) == Base64(head);
  }

  /**
   * As written, storing the results of "running shoes for kids" and then asking for
   * "running shoes for adults" in the same project and mode returns the kids' suggestions.
   */
  lemma LookupAsWrittenCollides(projectId: string, searchMode: string, data: SearchResponse, now: int)
    ensures Latin1("running shoes for kids") && Latin1("running shoes for adults")
    ensures LookupAsWritten(AfterSet([], projectId, "running shoes for kids", searchMode, data, now, false, Stored),
                            projectId, "running shoes for adults", searchMode, now)
      == Some(Decompress(data.suggestions))
  {
    var kids := "running shoes for kids";
    var adults := "running shoes for adults";
    assert Latin1(kids) && Latin1(adults) by {
      assert forall i :: 0 <= i < |kids| ==> kids[i] as int < 128;
      assert forall i :: 0 <= i < |adults| ==> adults[i] as int < 128;
    }
    assert kids[..12] == adults[..12] == "running shoe";
    KeyIgnoresQueryTail(projectId, kids, adults, searchMode);
    SharedKeyCollides([], projectId, kids, adults, searchMode, data, now);
  }

  /** As written, once a write goes through, any query sharing its key reads back the written suggestions. */
  lemma SharedKeyCollides(stored: Entries<Compact>, projectId: string, q1: string, q2: string, searchMode: string,
                          data: SearchResponse, now: int)
    requires Latin1(q1)
    requires CacheKey(projectId, q1, searchMode) == CacheKey(projectId, q2, searchMode)
    requires forall i :: 0 <= i < |stored| ==> stored[i].1.t < now
    ensures LookupAsWritten(AfterSet(stored, projectId, q1, searchMode, data, now, false, Stored), projectId, q2, searchMode, now)
      == Some(Decompress(data.suggestions))
  {
    SetThenGet(stored, projectId, q1, searchMode, data, now, false);
  }
}
