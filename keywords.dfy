/** The suggestion records the client passes between the search hooks, the caches and the pages. */
module Keywords {
  import opened Wrappers

  /** `'and' | 'or'`. */
  datatype MatchKind = AndMatch | OrMatch

  /** `{ matchType?: 'and' | 'or', word: string }`. */
  datatype KeywordSuggestion = KeywordSuggestion(word: string, matchType: Option<MatchKind>)

  /** `{ searchId?: string, suggestions: KeywordSuggestion[] }`. */
  datatype SearchResponse = SearchResponse(searchId: Option<string>, suggestions: seq<KeywordSuggestion>)

  /** `suggestions.map(s => s.word)`. */
  function WordsOf(suggestions: seq<KeywordSuggestion>): (words: seq<string>)
    ensures |words| == |suggestions|
    ensures forall i :: 0 <= i < |words| ==> words[i] == suggestions[i].word
  {
    if suggestions == [] then [] else [suggestions[0].word] + WordsOf(suggestions[1..])
  }
}
