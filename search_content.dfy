/**
 * The search results page: the suggestions grouped by match type (`and` first, then `or`),
 * the term ids the buttons carry, and the select/unselect handlers that add a word to, or
 * remove it from, the selected collection (or the project's first one).
 */
module SearchContent {
  import opened Wrappers
  import opened Keywords
  import Text

  /** `result.matchType ?? 'or'`. */
  function KindOf(s: KeywordSuggestion): (kind: MatchKind)
    ensures s.matchType.Some? ==> kind == s.matchType.value
    ensures s.matchType.None? ==> kind == OrMatch
  {
    if s.matchType.Some? then s.matchType.value else OrMatch
  }

  /** The group `acc[kind]` that the `reduce` builds: the results of that kind, in order. */
  function Group(results: seq<KeywordSuggestion>, kind: MatchKind): (group: seq<KeywordSuggestion>)
    ensures |group| <= |results|
    ensures forall i :: 0 <= i < |group| ==> KindOf(group[i]) == kind
  {
    if results == [] then []
    else
      var front, last := results[..|results| - 1], results[|results| - 1];
      Group(front, kind) + (if KindOf(last) == kind then [last] else [])
  }

  /** The `reduce` over the results: one push per result into the group of its kind. */
  method GroupResults(results: seq<KeywordSuggestion>) returns (andGroup: seq<KeywordSuggestion>, orGroup: seq<KeywordSuggestion>)
    ensures andGroup == Group(results, AndMatch)
    ensures orGroup == Group(results, OrMatch)
  {
    andGroup, orGroup := [], [];
    var i := 0;
    while i < |results|
      invariant 0 <= i <= |results|
      invariant andGroup == Group(results[..i], AndMatch)
      invariant orGroup == Group(results[..i], OrMatch)
    {
      var result := results[i];
      assert results[..i + 1] == results[..i] + [result];
      GroupSnoc(results[..i], result, AndMatch);
      GroupSnoc(results[..i], result, OrMatch);
      if KindOf(result) == AndMatch {
        andGroup := andGroup + [result];
      } else {
        orGroup := orGroup + [result];
      }
      i := i + 1;
    }
    assert results[..|results|] == results;
  }

  /** `Object.keys(groupedResults).length > 1`: a key exists only once a result has been pushed to it. */
  predicate HasMultipleMatchTypes(andGroup: seq<KeywordSuggestion>, orGroup: seq<KeywordSuggestion>)
    ensures HasMultipleMatchTypes(andGroup, orGroup) <==> andGroup != [] && orGroup != []
  {
    (if andGroup != [] then 1 else 0) + (if orGroup != [] then 1 else 0) > 1
  }

  function KindName(kind: MatchKind): string
  {
    match kind
    case AndMatch => "and"
    case OrMatch => "or"
  }

  /** `` `${result.word}-${kind}-${index}` ``. */
  function TermId(word: string, kind: MatchKind, index: nat): (id: string)
    ensures |id| >= |word| + 4
    ensures id[..|word| + 1] == word + "-"
  {
    word + "-" + KindName(kind) + "-" + Text.Digits(index)
  }

  /** `termId.split('-')[0]`. */
  function WordOf(termId: string): (word: string)
    ensures '-' !in word
    ensures word <= termId
    ensures '-' in termId ==> |word| < |termId| && termId[|word|] == '-'
    ensures '-' !in termId ==> word == termId
  {
    Text.Split(termId, '-')[0]
  }

  /**
   * `selectedCollectionId || project.collections[0].id`: the selection when it is non-empty,
   * else the first collection's id when there is one; an empty id counts as none.
   */
  function TargetCollection(selected: Option<string>, collections: Option<seq<string>>): (target: Option<string>)
    ensures target.Some? ==> target.value != []
    ensures Truthy(selected) ==> target == selected
    ensures !Truthy(selected) ==>
      (target.Some? <==> collections.Some? && |collections.value| > 0 && collections.value[0] != [])
    ensures !Truthy(selected) && target.Some? ==> target.value == collections.value[0]
  {
    if Truthy(selected) then selected
    else if collections.Some? && |collections.value| > 0 && collections.value[0] != [] then Some(collections.value[0])
    else None
  }

  const NoCollectionMessage: string := "Please select a collection first"

  /**
   * What a handler did: toasted for want of a collection, or asked the mutation hook to add
   * (or remove) the word in the target collection.  The hook's function returns at once and
   * never throws, so the handler's own `catch` cannot run; how the request settles is the
   * hook's business (`CollectionMutations.Settle`).
   */
  datatype Outcome = Toasted(toast: string) | Requested(word: string, collectionId: string)

  /** The page's own state: `selectedCollectionId`. */
  class Page {
    var selectedCollectionId: Option<string>

    constructor ()
      ensures selectedCollectionId == None
    {
      selectedCollectionId := None;
    }

    /** `onCollectionSelect` from the sidebar. */
    method SelectCollection(id: Option<string>)
      modifies this
      ensures selectedCollectionId == id
    {
      selectedCollectionId := id;
    }

    /**
     * `onSelectWord`: asks for the recovered word to be added to the target collection and, when
     * nothing was selected, makes the target the selection, so that later words go to the same
     * collection whether or not this add succeeds.
     */
    method OnSelectWord(termId: string, collections: Option<seq<string>>) returns (outcome: Outcome)
      modifies this
      ensures var target := TargetCollection(old(selectedCollectionId), collections);
        outcome == (if target.None? then Toasted(NoCollectionMessage) else Requested(WordOf(termId), target.value))
      ensures var target := TargetCollection(old(selectedCollectionId), collections);
        selectedCollectionId == (if target.Some? && !Truthy(old(selectedCollectionId)) then target
                                 else old(selectedCollectionId))
      ensures outcome.Requested? ==> TargetCollection(selectedCollectionId, collections) == Some(outcome.collectionId)
    {
      var word := WordOf(termId);
      var targetCollectionId := TargetCollection(selectedCollectionId, collections);
      if targetCollectionId.None? {
        return Toasted(NoCollectionMessage);
      }
      outcome := Requested(word, targetCollectionId.value);
      if !Truthy(selectedCollectionId) {
        selectedCollectionId := targetCollectionId;
      }
    }

    /** `onUnselectWord`: asks for the recovered word to be removed from the target collection; the selection never changes. */
    method OnUnselectWord(termId: string, collections: Option<seq<string>>) returns (outcome: Outcome)
      ensures var target := TargetCollection(selectedCollectionId, collections);
        outcome == (if target.None? then Toasted(NoCollectionMessage) else Requested(WordOf(termId), target.value))
    {
      var word := WordOf(termId);
      var targetCollectionId := TargetCollection(selectedCollectionId, collections);
      if targetCollectionId.None? {
        return Toasted(NoCollectionMessage);
      }
      outcome := Requested(word, targetCollectionId.value);
    }
  }

  // ---------------------------------------------------------------- properties

  /** Every result lands in exactly one group: the two groups together are the results. */
  lemma {:induction false} GroupsPartition(results: seq<KeywordSuggestion>)
    ensures multiset(Group(results, AndMatch)) + multiset(Group(results, OrMatch)) == multiset(results)
  {
    if results != [] {
      var front, last := results[..|results| - 1], results[|results| - 1];
      assert results == front + [last];
      GroupsPartition(front);
    }
  }

  /** A result is in the group of its kind (a missing match type counting as `or`), and only there. */
  lemma {:induction false} GroupMembership(results: seq<KeywordSuggestion>, kind: MatchKind, s: KeywordSuggestion)
    ensures s in Group(results, kind) <==> s in results && KindOf(s) == kind
  {
    if results != [] {
      var front, last := results[..|results| - 1], results[|results| - 1];
      assert results == front + [last];
      GroupMembership(front, kind, s);
    }
  }

  lemma GroupSnoc(s: seq<KeywordSuggestion>, x: KeywordSuggestion, kind: MatchKind)
    ensures Group(s + [x], kind) == Group(s, kind) + (if KindOf(x) == kind then [x] else [])
  {
    assert (s + [x])[..|s|] == s;
  }

  /** Grouping distributes over concatenation: a group lists its results in their input order. */
  lemma {:induction false} GroupAppend(a: seq<KeywordSuggestion>, b: seq<KeywordSuggestion>, kind: MatchKind)
    ensures Group(a + b, kind) == Group(a, kind) + Group(b, kind)
    decreases |b|
  {
    if b == [] {
      assert a + b == a;
    } else {
      var front, x := b[..|b| - 1], b[|b| - 1];
      var tail := if KindOf(x) == kind then [x] else [];
      assert b == front + [x];
      assert a + b == (a + front) + [x];
      GroupSnoc(a + front, x, kind);
      GroupSnoc(front, x, kind);
      GroupAppend(a, front, kind);
      Text.AppendAssoc(Group(a, kind), Group(front, kind), tail);
    }
  }

  /** A group keeps the order of the results: it is the results with the other kind filtered out. */
  lemma {:induction false} GroupOfOneKind(results: seq<KeywordSuggestion>, kind: MatchKind)
    requires forall i :: 0 <= i < |results| ==> KindOf(results[i]) == kind
    ensures Group(results, kind) == results
  {
    if results != [] {
      var front := results[..|results| - 1];
      assert results == front + [results[|results| - 1]];
      GroupOfOneKind(front, kind);
    }
  }

  /** A group is rendered exactly when some result has its kind. */
  lemma GroupPresent(results: seq<KeywordSuggestion>, kind: MatchKind)
    ensures Group(results, kind) != [] <==> exists i :: 0 <= i < |results| && KindOf(results[i]) == kind
  {
    var group := Group(results, kind);
    if exists i :: 0 <= i < |results| && KindOf(results[i]) == kind {
      var i :| 0 <= i < |results| && KindOf(results[i]) == kind;
      GroupMembership(results, kind, results[i]);
    }
    if group != [] {
      GroupMembership(results, kind, group[0]);
    }
  }

  /** The headings appear exactly when both an `and` and an `or` result are present. */
  lemma MultipleIffBothKinds(results: seq<KeywordSuggestion>)
    ensures HasMultipleMatchTypes(Group(results, AndMatch), Group(results, OrMatch)) <==>
      (exists i :: 0 <= i < |results| && KindOf(results[i]) == AndMatch) &&
      (exists j :: 0 <= j < |results| && KindOf(results[j]) == OrMatch)
  {
    GroupPresent(results, AndMatch);
    GroupPresent(results, OrMatch);
  }

  /** Within one group the term ids, used as React keys, are pairwise distinct whatever the words. */
  lemma TermIdsDistinct(word1: string, word2: string, kind: MatchKind, i: nat, j: nat)
    requires i != j
    ensures TermId(word1, kind, i) != TermId(word2, kind, j)
  {
    if TermId(word1, kind, i) == TermId(word2, kind, j) {
      Text.DashDigitsUnique(word1 + "-" + KindName(kind), word2 + "-" + KindName(kind), i, j);
    }
  }

  /** The handlers add or remove the word the button shows exactly when that word contains no `-`. */
  lemma WordRecovered(word: string, kind: MatchKind, index: nat)
    ensures WordOf(TermId(word, kind, index)) == word <==> '-' !in word
  {
    var rest := KindName(kind) + "-" + Text.Digits(index);
    assert TermId(word, kind, index) == word + ['-'] + rest;
    Text.FirstPieceExact(word, rest, '-');
  }
}
