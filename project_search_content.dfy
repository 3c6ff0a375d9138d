/**
 * The project search page: a button per suggestion toggles its term id in an insertion-ordered
 * set, and the sidebar lists the words of the active ids and can remove a word from them.
 */
module ProjectSearchContent {
  import opened Keywords
  import Text
  import SearchContent

  /** `` `${result.word}-${index}` ``. */
  function TermId(word: string, index: nat): (id: string)
    ensures |id| >= |word| + 2
    ensures id[..|word| + 1] == word + "-"
  {
    word + "-" + Text.Digits(index)
  }

  /** A JavaScript `Set` keeps each member once. */
  predicate NoDuplicates(ids: seq<string>)
  {
    forall i, j :: 0 <= i < j < |ids| ==> ids[i] != ids[j]
  }

  /** `new Set(prev).add(termId)`: appended when absent. */
  function Added(ids: seq<string>, termId: string): (r: seq<string>)
    ensures forall x :: x in r <==> x in ids || x == termId
    ensures NoDuplicates(ids) ==> NoDuplicates(r)
  {
    if termId in ids then ids else ids + [termId]
  }

  /** The ids that `keep` accepts, in their order. */
  function Where(ids: seq<string>, keep: string -> bool): (r: seq<string>)
    ensures forall x :: x in r <==> x in ids && keep(x)
    ensures |r| <= |ids|
    ensures NoDuplicates(ids) ==> NoDuplicates(r)
  {
    if ids == [] then []
    else
      var rest := Where(ids[1..], keep);
      assert forall x :: x in ids[1..] ==> x in ids;
      if keep(ids[0]) then [ids[0]] + rest else rest
  }

  /** `new Set(prev).delete(termId)`. */
  function Deleted(ids: seq<string>, termId: string): (r: seq<string>)
    ensures forall x :: x in r <==> x in ids && x != termId
    ensures NoDuplicates(ids) ==> NoDuplicates(r)
  {
    Where(ids, x => x != termId)
  }

  /** A click: an active id is unselected, an inactive one selected. */
  function Clicked(ids: seq<string>, termId: string): (r: seq<string>)
    ensures termId in r <==> termId !in ids
    ensures forall x :: x != termId ==> (x in r <==> x in ids)
    ensures NoDuplicates(ids) ==> NoDuplicates(r)
  {
    if termId in ids then Deleted(ids, termId) else Added(ids, termId)
  }

  /** `Array.from(activeTermIds).map(id => id.split('-')[0])`. */
  function ActiveWords(ids: seq<string>): (words: seq<string>)
    ensures |words| == |ids|
    ensures forall i :: 0 <= i < |ids| ==> words[i] == SearchContent.WordOf(ids[i])
  {
    if ids == [] then [] else [SearchContent.WordOf(ids[0])] + ActiveWords(ids[1..])
  }

  /** `handleRemoveWord`: every id whose word is `word` goes. */
  function WithoutWord(ids: seq<string>, word: string): (r: seq<string>)
    ensures forall x :: x in r <==> x in ids && SearchContent.WordOf(x) != word
    ensures NoDuplicates(ids) ==> NoDuplicates(r)
  {
    Where(ids, x => SearchContent.WordOf(x) != word)
  }

  /** The page's `activeTermIds` state. */
  class Page {
    var activeTermIds: seq<string>

    predicate Valid()
      reads this
    {
      NoDuplicates(activeTermIds)
    }

    constructor ()
      ensures Valid() && activeTermIds == []
    {
      activeTermIds := [];
    }

    function IsActive(termId: string): bool
      reads this
    {
      termId in activeTermIds
    }

    method SelectWord(termId: string)
      requires Valid()
      modifies this
      ensures Valid() && activeTermIds == Added(old(activeTermIds), termId)
    {
      activeTermIds := Added(activeTermIds, termId);
    }

    method UnselectWord(termId: string)
      requires Valid()
      modifies this
      ensures Valid() && activeTermIds == Deleted(old(activeTermIds), termId)
    {
      activeTermIds := Deleted(activeTermIds, termId);
    }

    /** The button's `onClick`. */
    method Click(termId: string)
      requires Valid()
      modifies this
      ensures Valid() && activeTermIds == Clicked(old(activeTermIds), termId)
      ensures IsActive(termId) <==> !old(IsActive(termId))
    {
      if IsActive(termId) {
        UnselectWord(termId);
      } else {
        SelectWord(termId);
      }
    }

    method RemoveWord(word: string)
      requires Valid()
      modifies this
      ensures Valid() && activeTermIds == WithoutWord(old(activeTermIds), word)
      ensures word !in ActiveWords(activeTermIds)
    {
      activeTermIds := WithoutWord(activeTermIds, word);
    }
  }

  // ---------------------------------------------------------------- properties

  lemma {:induction false} WhereAll(ids: seq<string>, keep: string -> bool)
    requires forall x :: x in ids ==> keep(x)
    ensures Where(ids, keep) == ids
  {
    if ids != [] {
      assert forall x :: x in ids[1..] ==> x in ids;
      WhereAll(ids[1..], keep);
    }
  }

  /** Two clicks on an inactive button restore the active ids exactly. */
  lemma ClickTwiceInactive(ids: seq<string>, termId: string)
    requires termId !in ids
    ensures Clicked(Clicked(ids, termId), termId) == ids
  {
    var added := ids + [termId];
    assert termId in added;
    WhereAll(ids, x => x != termId);
    assert Where(added, x => x != termId) == Where(ids, x => x != termId) by {
      WhereSnocDropped(ids, termId, x => x != termId);
    }
  }

  lemma {:induction false} WhereSnocDropped(ids: seq<string>, last: string, keep: string -> bool)
    requires !keep(last)
    ensures Where(ids + [last], keep) == Where(ids, keep)
  {
    if ids == [] {
      assert [] + [last] == [last];
    } else {
      assert (ids + [last])[1..] == ids[1..] + [last];
      WhereSnocDropped(ids[1..], last, keep);
    }
  }

  /**
   * Two clicks on an active button keep the same set of active ids, but the id moves to the
   * end, so the sidebar's word order can change.
   */
  lemma ClickTwiceActive(ids: seq<string>, termId: string)
    requires termId in ids
    ensures Clicked(Clicked(ids, termId), termId) == Deleted(ids, termId) + [termId]
    ensures forall x :: x in Clicked(Clicked(ids, termId), termId) <==> x in ids
  {
  }

  /** Term ids of different buttons differ whatever their words, so the React keys are unique. */
  lemma TermIdsDistinct(word1: string, word2: string, i: nat, j: nat)
    requires i != j
    ensures TermId(word1, i) != TermId(word2, j)
  {
    if TermId(word1, i) == TermId(word2, j) {
      Text.DashDigitsUnique(word1, word2, i, j);
    }
  }

  /** The sidebar shows the button's word exactly when that word contains no `-`. */
  lemma ActiveWordShown(word: string, index: nat)
    ensures SearchContent.WordOf(TermId(word, index)) == word <==> '-' !in word
  {
    assert TermId(word, index) == word + ['-'] + Text.Digits(index);
    Text.FirstPieceExact(word, Text.Digits(index), '-');
  }
}
