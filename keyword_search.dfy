/**
 * The one-shot keyword search endpoint (`POST /search/`): it checks that the caller owns a
 * project of the given name, asks the language model for a list, and turns every non-blank
 * line of the reply into a suggestion with score 1.0.
 */
module KeywordSearch {
  import opened Wrappers
  import Text

  /** `KeywordSuggestion(word, score)`. */
  datatype Suggestion = Suggestion(word: string, score: real)

  /** What the completion call did: answered with `message.content` (possibly `None`), or raised. */
  datatype Completion = Content(content: Option<string>) | Raised(message: string)

  /** The endpoint's answer: an `HTTPException`, or the `SearchResponse`. */
  datatype Response =
    | Failure(status: int, detail: string)
    | Ok(suggestions: seq<Suggestion>)

  const NotFound := 404
  const ProjectNotFound := "Project not found"
  const ServerError := 500
  /** `str(e)` for the `AttributeError` that `None.strip()` raises. */
  const NoneStripMessage := "'NoneType' object has no attribute 'strip'"

  /** A suggestion per line: `KeywordSuggestion(word=w, score=1.0)`. */
  function Scored(words: seq<string>): (r: seq<Suggestion>)
    ensures |r| == |words|
    ensures forall i :: 0 <= i < |r| ==> r[i] == Suggestion(words[i], 1.0)
  {
    if words == [] then [] else [Suggestion(words[0], 1.0)] + Scored(words[1..])
  }

  /** `[KeywordSuggestion(word=w.strip(), score=1.0) for w in text.strip().split('\n') if w.strip()]`. */
  function ParseSuggestions(text: string): (r: seq<Suggestion>)
    ensures forall i :: 0 <= i < |r| ==>
      r[i].score == 1.0 && r[i].word != [] && Text.Stripped(r[i].word, Text.Python) && '\n' !in r[i].word
  {
    Scored(Text.SplitTrimmed(Text.Strip(text, Text.Python), '\n', Text.Python))
  }

  /** `search_keywords`, given whether the project lookup found a row and what the completion call did. */
  function SearchKeywords(projectFound: bool, completion: Completion): (r: Response)
    ensures r == Failure(NotFound, ProjectNotFound) <==> !projectFound
    ensures r.Failure? ==> r.status == NotFound || r.status == ServerError
    ensures r.Ok? <==> projectFound && completion.Content? && completion.content.Some?
    ensures projectFound && completion.Raised? ==> r == Failure(ServerError, completion.message)
  {
    if !projectFound then Failure(NotFound, ProjectNotFound)
    else match completion
      case Raised(message) => Failure(ServerError, message)
      case Content(None) => Failure(ServerError, NoneStripMessage)
      case Content(Some(text)) => Ok(ParseSuggestions(text))
  }

  // ---------------------------------------------------------------- properties

  /**
   * A word is suggested exactly when it is the non-empty strip of some line of the reply:
   * no line is lost and nothing else is invented.
   */
  lemma SuggestedWords(text: string, lines: seq<string>, w: string)
    requires lines == Text.Split(Text.Strip(text, Text.Python), '\n')
    ensures (exists i :: 0 <= i < |ParseSuggestions(text)| && ParseSuggestions(text)[i].word == w) <==>
      w != [] && exists j :: 0 <= j < |lines| && Text.Strip(lines[j], Text.Python) == w
  {
    var words := Text.SplitTrimmed(Text.Strip(text, Text.Python), '\n', Text.Python);
    assert words == Text.StripNonBlank(lines, Text.Python);
    Text.StripNonBlankMembers(lines, w, Text.Python);
    var r := ParseSuggestions(text);
    assert r == Scored(words);
    if exists i :: 0 <= i < |r| && r[i].word == w {
      var i :| 0 <= i < |r| && r[i].word == w;
      assert words[i] == w;
    }
    if w in words {
      var i :| 0 <= i < |words| && words[i] == w;
      assert r[i].word == w;
    }
  }
}
