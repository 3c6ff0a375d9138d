/**
 * JavaScript objects with string keys, as the client caches use them: the list of their
 * entries in insertion order (`Object.entries`), assignment and `delete`, filtering into a
 * fresh object, and the stable `Array.prototype.sort` of entries by a numeric timestamp.
 */
module JsObject {
  import opened Wrappers

  /** The entries of an object, in insertion order. */
  type Entries<V> = seq<(string, V)>

  /** `o[k]`, `undefined` as `None`. */
  function Get<V>(o: Entries<V>, k: string): (r: Option<V>)
    ensures r.Some? ==> (k, r.value) in o
    ensures r.None? ==> forall i :: 0 <= i < |o| ==> o[i].0 != k
  {
    if o == [] then None
    else if o[0].0 == k then Some(o[0].1)
    else Get(o[1..], k)
  }

  /** `o[k] = v`: an existing entry keeps its place, a new one goes last. */
  function Put<V>(o: Entries<V>, k: string, v: V): (r: Entries<V>)
    ensures |o| <= |r| <= |o| + 1
  {
    if o == [] then [(k, v)]
    else if o[0].0 == k then [(k, v)] + o[1..]
    else [o[0]] + Put(o[1..], k, v)
  }

  /** `delete o[k]`. */
  function Delete<V>(o: Entries<V>, k: string): (r: Entries<V>)
    ensures forall i :: 0 <= i < |r| ==> r[i].0 != k
    ensures multiset(r) <= multiset(o)
    ensures |r| <= |o|
  {
    if o == [] then []
    else
      assert o == [o[0]] + o[1..];
      if o[0].0 == k then Delete(o[1..], k) else [o[0]] + Delete(o[1..], k)
  }

  /** The entries a `forEach` copies into a fresh object, in order. */
  function Filter<V>(o: Entries<V>, keep: (string, V) -> bool): (r: Entries<V>)
    ensures |r| <= |o|
    ensures forall i :: 0 <= i < |r| ==> keep(r[i].0, r[i].1)
    ensures multiset(r) <= multiset(o)
  {
    if o == [] then []
    else
      assert o == [o[0]] + o[1..];
      (if keep(o[0].0, o[0].1) then [o[0]] else []) + Filter(o[1..], keep)
  }

  lemma {:induction false} PutGet<V>(o: Entries<V>, k: string, v: V, k': string)
    ensures Get(Put(o, k, v), k') == if k' == k then Some(v) else Get(o, k')
  {
    if o != [] && o[0].0 != k {
      PutGet(o[1..], k, v, k');
    }
  }

  lemma {:induction false} DeleteGet<V>(o: Entries<V>, k: string, k': string)
    ensures Get(Delete(o, k), k') == if k' == k then None else Get(o, k')
  {
    if o != [] {
      DeleteGet(o[1..], k, k');
    }
  }

  // ---------------------------------------------------------------- stable sort by timestamp

  /** Ascending by `time`. */
  predicate SortedBy<V>(s: Entries<V>, time: V -> int)
  {
    forall i, j :: 0 <= i < j < |s| ==> time(s[i].1) <= time(s[j].1)
  }

  /** Insertion after every entry of equal or smaller time, so the sort is stable. */
  function InsertBy<V>(s: Entries<V>, x: (string, V), time: V -> int): (r: Entries<V>)
    ensures |r| == |s| + 1
    ensures multiset(r) == multiset(s) + multiset{x}
  {
    if s == [] || time(s[|s| - 1].1) <= time(x.1) then s + [x]
    else
      assert s == s[..|s| - 1] + [s[|s| - 1]];
      InsertBy(s[..|s| - 1], x, time) + [s[|s| - 1]]
  }

  /** `entries.sort((a, b) => time(a) - time(b))`. */
  function SortBy<V>(o: Entries<V>, time: V -> int): (r: Entries<V>)
    ensures |r| == |o|
    ensures multiset(r) == multiset(o)
  {
    if o == [] then []
    else
      assert o == o[..|o| - 1] + [o[|o| - 1]];
      InsertBy(SortBy(o[..|o| - 1], time), o[|o| - 1], time)
  }

  lemma {:induction false} InsertBySorted<V>(s: Entries<V>, x: (string, V), time: V -> int)
    requires SortedBy(s, time)
    ensures SortedBy(InsertBy(s, x, time), time)
    ensures forall i :: 0 <= i < |InsertBy(s, x, time)| ==> time(InsertBy(s, x, time)[i].1) <= time(x.1) || InsertBy(s, x, time)[i] in s
  {
    if s != [] && time(s[|s| - 1].1) > time(x.1) {
      var front := s[..|s| - 1];
      InsertBySorted(front, x, time);
      var r := InsertBy(front, x, time);
      forall i | 0 <= i < |r|
        ensures time(r[i].1) <= time(s[|s| - 1].1)
      {
        if r[i] in front {
          var j :| 0 <= j < |front| && front[j] == r[i];
          assert front[j] == s[j];
        }
      }
      var whole := InsertBy(s, x, time);
      forall i | 0 <= i < |whole|
        ensures time(whole[i].1) <= time(x.1) || whole[i] in s
      {
        if i < |r| {
          if r[i] in front {
            var j :| 0 <= j < |front| && front[j] == r[i];
            assert front[j] == s[j];
          }
        }
      }
    }
  }

  lemma {:induction false} SortBySorted<V>(o: Entries<V>, time: V -> int)
    ensures SortedBy(SortBy(o, time), time)
  {
    if o != [] {
      SortBySorted(o[..|o| - 1], time);
      InsertBySorted(SortBy(o[..|o| - 1], time), o[|o| - 1], time);
    }
  }

  /** After a sort, an entry whose time is below every other entry's comes first. */
  lemma SortByFirst<V>(o: Entries<V>, x: (string, V), time: V -> int)
    requires x in o
    requires forall y :: y in o && y != x ==> time(x.1) < time(y.1)
    ensures SortBy(o, time) != [] && SortBy(o, time)[0] == x
  {
    var r := SortBy(o, time);
    SortBySorted(o, time);
    assert x in multiset(r);
    var j :| 0 <= j < |r| && r[j] == x;
    assert r[0] in multiset(o);
  }

  /** After a sort, an entry whose time is above every other entry's comes last. */
  lemma SortByLast<V>(o: Entries<V>, x: (string, V), time: V -> int)
    requires x in o
    requires forall y :: y in o && y != x ==> time(y.1) < time(x.1)
    ensures SortBy(o, time) != [] && SortBy(o, time)[|o| - 1] == x
  {
    var r := SortBy(o, time);
    SortBySorted(o, time);
    assert x in multiset(r);
    var j :| 0 <= j < |r| && r[j] == x;
    assert r[|r| - 1] in multiset(o);
  }

  lemma PutHas<V>(o: Entries<V>, k: string, v: V)
    ensures (k, v) in Put(o, k, v)
  {
    PutGet(o, k, v, k);
  }

  lemma {:induction false} FilterHas<V>(o: Entries<V>, keep: (string, V) -> bool, x: (string, V))
    ensures x in Filter(o, keep) <==> x in o && keep(x.0, x.1)
  {
    if o != [] {
      FilterHas(o[1..], keep, x);
      assert o == [o[0]] + o[1..];
    }
  }

  /** Every entry of `Put(o, k, v)` other than the new one was already in `o`. */
  lemma {:induction false} PutOthers<V>(o: Entries<V>, k: string, v: V)
    ensures forall y :: y in Put(o, k, v) && y != (k, v) ==> y in o
  {
    if o != [] && o[0].0 != k {
      PutOthers(o[1..], k, v);
    }
  }

  lemma {:induction false} FilterSnoc<V>(o: Entries<V>, x: (string, V), keep: (string, V) -> bool)
    ensures Filter(o + [x], keep) == Filter(o, keep) + (if keep(x.0, x.1) then [x] else [])
  {
    if o == [] {
      assert Filter([x], keep) == (if keep(x.0, x.1) then [x] else []) + Filter([], keep);
    } else {
      assert (o + [x])[1..] == o[1..] + [x];
      FilterSnoc(o[1..], x, keep);
    }
  }

  lemma FilterPrefixStep<V>(o: Entries<V>, i: nat, keep: (string, V) -> bool)
    requires i < |o|
    ensures Filter(o[..i + 1], keep) == Filter(o[..i], keep) + (if keep(o[i].0, o[i].1) then [o[i]] else [])
  {
    assert o[..i + 1] == o[..i] + [o[i]];
    FilterSnoc(o[..i], o[i], keep);
  }

  /** `Object.entries(o).forEach(([key, value]) => { if (keep(key, value)) out[key] = value })`. */
  method Collect<V>(o: Entries<V>, keep: (string, V) -> bool) returns (out: Entries<V>)
    ensures out == Filter(o, keep)
  {
    out := [];
    var i := 0;
    while i < |o|
      invariant i <= |o|
      invariant out == Filter(o[..i], keep)
    {
      FilterPrefixStep(o, i, keep);
      if keep(o[i].0, o[i].1) {
        out := out + [o[i]];
      }
      i := i + 1;
    }
    assert o[..i] == o;
  }
}
