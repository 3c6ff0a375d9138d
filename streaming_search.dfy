/**
 * The client of the suggestion stream (`useStreamingSearch`).
 *
 * `startSearch` either serves a cached result or resets the state, posts the query and
 * reads the `text/event-stream` body: it appends each decoded chunk to a line buffer,
 * handles every `'\n'`-terminated line, keeps the text after the last `'\n'` for the next
 * read, and folds every `data: ` line whose JSON parses into the state with a pure
 * `prev => next` reducer. `loadMore` does the same for a follow-up request, behind a gate,
 * with its own reducers. `cancelSearch` clears the loading flags.
 *
 * The network is an input: the answer to a request (`Reply`), and the decoded text of
 * each read. `JSON.parse` is an input too, `decode`, giving `None` where it throws.
 */
module StreamingSearch {
  import opened Wrappers
  import opened Text
  import opened Keywords
  import Server = SearchStreaming

  /** The hook's state record. */
  datatype SearchState = SearchState(
    suggestions: seq<KeywordSuggestion>,
    isLoading: bool,
    isLoadingMore: bool,
    isComplete: bool,
    error: Option<string>,
    progress: int,
    canLoadMore: bool,
    loadMoreCount: nat,
    sessionId: Option<string>,
    isStreaming: bool,
    wasStreaming: bool)

  /** The batch size from which a first search offers "load more". */
  const FullBatch: int := 80
  /** The batch size from which a load-more offers another one. */
  const MoreBatch: int := 50
  /** A load-more completing with this many earlier load-mores (or more) closes the gate. */
  const LastLoadMore: nat := 4
  const DataPrefix: string := "data: "
  const NoReaderMessage: string := "No response body reader available"
  const UnknownErrorMessage: string := "Unknown error occurred"

  /** The state before any search. */
  const Idle: SearchState := SearchState([], false, false, false, None, 0, true, 0, None, false, false)

  /** The state while a first search waits for its stream. */
  const Streaming: SearchState := SearchState([], true, false, false, None, 0, true, 0, None, false, true)

  /** A cached response serves the search only when it holds at least one suggestion. */
  predicate CacheHit(cached: Option<SearchResponse>)
  {
    cached.Some? && cached.value.suggestions != []
  }

  /** The state of a search served from the cache: complete, nothing streamed, no session. */
  function FromCache(cached: seq<KeywordSuggestion>): (s: SearchState)
    ensures s.suggestions == cached && s.isComplete && !s.isLoading && !s.isLoadingMore
    ensures s.progress == |cached| && (s.canLoadMore <==> |cached| >= FullBatch)
    ensures s.sessionId == None && s.loadMoreCount == 0 && s.error == None
  {
    SearchState(cached, false, false, true, None, |cached|, |cached| >= FullBatch, 0, None, false, false)
  }

  // ---------------------------------------------------------------- events and reducers

  /** A parsed `data:` payload as the reducers read it, by its `type` field. */
  datatype Message =
    | StatusMsg(sessionId: Option<string>)
    | SuggestionMsg(data: KeywordSuggestion)
    | ProgressMsg(count: int)
    | CompleteMsg(total: int)
    | ErrorMsg(message: string)
    | OtherMsg

  /** Which reducers apply: those of `startSearch`, or those of `loadMore`, which also see the
      session id the hook knew when `loadMore` was called. */
  datatype Pass = First | More(known: Option<string>)

  /** The load-more gate never stays open past the fifth completed load-more. */
  predicate Bounded(s: SearchState)
  {
    s.canLoadMore ==> s.loadMoreCount <= LastLoadMore
  }

  /** The `setState(prev => ...)` reducer of one message. */
  function Reduce(pass: Pass, prev: SearchState, m: Message): (next: SearchState)
    ensures next.suggestions == prev.suggestions + (if m.SuggestionMsg? then [m.data] else [])
    ensures pass.First? ==> next.loadMoreCount == prev.loadMoreCount
    ensures pass.More? && Bounded(prev) ==> Bounded(next)
  {
    match m
    case StatusMsg(sid) =>
      if Truthy(sid) && (pass.First? || !Truthy(pass.known)) then prev.(sessionId := sid) else prev
    case SuggestionMsg(d) =>
      if pass.First? then prev.(isLoading := false, isStreaming := true, suggestions := prev.suggestions + [d])
      else prev.(suggestions := prev.suggestions + [d])
    case ProgressMsg(count) =>
      if pass.First? then prev.(progress := count) else prev
    case CompleteMsg(total) =>
      if pass.First? then
        prev.(isLoading := false, isLoadingMore := false, isComplete := true, isStreaming := false,
              progress := total, canLoadMore := total >= FullBatch)
      else
        prev.(isLoadingMore := false, loadMoreCount := prev.loadMoreCount + 1,
              canLoadMore := total >= MoreBatch && prev.loadMoreCount < LastLoadMore)
    case ErrorMsg(message) =>
      if pass.First? then prev.(isLoading := false, isLoadingMore := false, error := Some(message))
      else prev.(isLoadingMore := false, error := Some(message))
    case OtherMsg => prev
  }

  /** `status`: the session id is taken when it is non-empty and, on a load-more, when the hook
      knew none; nothing else changes. */
  lemma ReduceStatus(pass: Pass, prev: SearchState, sid: Option<string>)
    ensures var next := Reduce(pass, prev, StatusMsg(sid));
      next.sessionId == (if Truthy(sid) && (pass.First? || !Truthy(pass.known)) then sid else prev.sessionId)
      && next.(sessionId := prev.sessionId) == prev
  {
  }

  /** `suggestion`: the word is appended; the first pass also leaves the loading state for the
      streaming one; nothing else changes. */
  lemma ReduceSuggestion(pass: Pass, prev: SearchState, d: KeywordSuggestion)
    ensures var next := Reduce(pass, prev, SuggestionMsg(d));
      next.suggestions == prev.suggestions + [d]
      && (pass.First? ==> !next.isLoading && next.isStreaming
                          && next.(suggestions := prev.suggestions, isLoading := prev.isLoading,
                                   isStreaming := prev.isStreaming) == prev)
      && (pass.More? ==> next.(suggestions := prev.suggestions) == prev)
  {
  }

  /** `progress`: the first pass records the count; a load-more ignores it. */
  lemma ReduceProgress(pass: Pass, prev: SearchState, count: int)
    ensures var next := Reduce(pass, prev, ProgressMsg(count));
      (pass.First? ==> next.progress == count && next.(progress := prev.progress) == prev)
      && (pass.More? ==> next == prev)
  {
  }

  /** `complete` of a first search: done, nothing loading or streaming, `progress` the total, and
      the gate open exactly when a full batch arrived; the suggestions, the session, the error and
      the load-more count are kept. */
  lemma ReduceComplete(prev: SearchState, total: int)
    ensures var next := Reduce(First, prev, CompleteMsg(total));
      next.isComplete && !next.isLoading && !next.isLoadingMore && !next.isStreaming
      && next.progress == total
      && (next.canLoadMore <==> total >= FullBatch)
      && next.suggestions == prev.suggestions && next.sessionId == prev.sessionId
      && next.error == prev.error && next.loadMoreCount == prev.loadMoreCount
      && next.wasStreaming == prev.wasStreaming
  {
  }

  /** `complete` of a load-more: one more load-more counted, not loading more, and the gate open
      exactly when a full batch arrived before the fifth load-more; nothing else changes. */
  lemma ReduceMoreComplete(known: Option<string>, prev: SearchState, total: int)
    ensures var next := Reduce(More(known), prev, CompleteMsg(total));
      next.loadMoreCount == prev.loadMoreCount + 1 && !next.isLoadingMore
      && (next.canLoadMore <==> total >= MoreBatch && prev.loadMoreCount < LastLoadMore)
      && next.(loadMoreCount := prev.loadMoreCount, isLoadingMore := prev.isLoadingMore,
               canLoadMore := prev.canLoadMore) == prev
  {
  }

  /** `error`: the message is stored and loading stops (both flags on the first pass, the
      load-more flag on a load-more); nothing else changes. */
  lemma ReduceError(pass: Pass, prev: SearchState, message: string)
    ensures var next := Reduce(pass, prev, ErrorMsg(message));
      next.error == Some(message) && !next.isLoadingMore
      && (pass.First? ==> !next.isLoading)
      && next.(error := prev.error, isLoadingMore := prev.isLoadingMore,
               isLoading := if pass.First? then prev.isLoading else next.isLoading) == prev
  {
  }

  /** A payload of any other `type` changes nothing. */
  lemma ReduceOther(pass: Pass, prev: SearchState)
    ensures Reduce(pass, prev, OtherMsg) == prev
  {
  }

  /** The reducer of the outer `catch` for an error other than an abort. */
  function Failed(pass: Pass, prev: SearchState, message: string): (next: SearchState)
    ensures next.error == Some(message) && next.suggestions == prev.suggestions
    ensures pass.First? ==> !next.isLoading && next.isLoadingMore == prev.isLoadingMore
    ensures pass.More? ==> !next.isLoadingMore && next.isLoading == prev.isLoading
  {
    if pass.First? then prev.(isLoading := false, error := Some(message))
    else prev.(isLoadingMore := false, error := Some(message))
  }

  /** The state together with the suggestion lists written to the result cache, in order. */
  datatype Fold = Fold(state: SearchState, writes: seq<seq<KeywordSuggestion>>)

  /** One message: reduce it, and on `complete` write the suggestions seen so far to the cache. */
  function Step(pass: Pass, f: Fold, m: Message): (r: Fold)
    ensures f.writes <= r.writes
    ensures |r.writes| == |f.writes| + 1 <==> m.CompleteMsg?
    ensures m.CompleteMsg? ==> r.writes[|f.writes|] == f.state.suggestions
    ensures !m.CompleteMsg? ==> r.writes == f.writes
  {
    Fold(Reduce(pass, f.state, m), if m.CompleteMsg? then f.writes + [f.state.suggestions] else f.writes)
  }

  /** The messages in order. */
  function Replay(pass: Pass, f: Fold, ms: seq<Message>): Fold
  {
    if ms == [] then f else Step(pass, Replay(pass, f, ms[..|ms| - 1]), ms[|ms| - 1])
  }

  /** One complete line: only a `data: ` line whose payload parses is reduced. */
  function OnLine(pass: Pass, f: Fold, line: string, decode: string -> Option<Message>): Fold
  {
    if StartsWith(line, DataPrefix) then
      match decode(line[|DataPrefix|..])
      case None => f
      case Some(m) => Step(pass, f, m)
    else f
  }

  /** The complete lines in order. */
  function OnLines(pass: Pass, f: Fold, lines: seq<string>, decode: string -> Option<Message>): Fold
  {
    if lines == [] then f else OnLine(pass, OnLines(pass, f, lines[..|lines| - 1], decode), lines[|lines| - 1], decode)
  }

  /** The concatenation of the decoded reads. */
  function Concat(chunks: seq<string>): string
  {
    if chunks == [] then [] else Concat(chunks[..|chunks| - 1]) + chunks[|chunks| - 1]
  }

  /** The `'\n'`-terminated lines of a text; the piece after the last `'\n'` is not one. */
  function Handled(text: string): seq<string>
  {
    var pieces := Split(text, '\n');
    pieces[..|pieces| - 1]
  }

  /** The reference definition of the read loop: the complete lines of everything read, in order. */
  function Feed(pass: Pass, s: SearchState, text: string, decode: string -> Option<Message>): (r: Fold)
    ensures s.suggestions <= r.state.suggestions
    ensures pass.First? ==> r.state.loadMoreCount == s.loadMoreCount
    ensures WritesShown(r)
  {
    OnLinesKeeps(pass, Fold(s, []), Handled(text), decode);
    OnLines(pass, Fold(s, []), Handled(text), decode)
  }

  /** One read: the lines completed by appending the next chunk to the buffer. */
  lemma ReadStep(chunks: seq<string>, i: nat, handled: seq<string>, buffer: string)
    requires i < |chunks|
    requires Split(Concat(chunks[..i]), '\n') == handled + [buffer]
    ensures var lines := Split(buffer + chunks[i], '\n');
      Split(Concat(chunks[..i + 1]), '\n') == (handled + lines[..|lines| - 1]) + [lines[|lines| - 1]]
  {
    assert chunks[..i + 1][..i] == chunks[..i];
    FramingStep(Concat(chunks[..i]), chunks[i], handled, buffer, '\n');
    var lines := Split(buffer + chunks[i], '\n');
    FrontLast(lines);
    AppendAssoc(handled, lines[..|lines| - 1], [lines[|lines| - 1]]);
  }

  // ---------------------------------------------------------------- requests and replies

  /** The JSON body posted to `/api/v1/search/stream`. */
  datatype StreamRequest = StreamRequest(
    query: string,
    projectId: string,
    searchMode: string,
    isLoadMore: bool,
    sessionId: Option<string>,
    excludeWords: Option<seq<string>>)

  /** How the stream ends after its last read. */
  datatype End =
    | Finished
    | Aborted
    | Thrown(message: Option<string>)   // `None`: a thrown value that is not an `Error`

  /** What the server and the network answer to a request. */
  datatype Reply =
    | HttpError(status: nat)
    | NoReader
    | Body(chunks: seq<string>, end: End)

  /** The message the outer `catch` stores for a failed reply. */
  function FailureText(reply: Reply): string
  {
    match reply
    case HttpError(status) => "HTTP error! status: " + Digits(status)
    case NoReader => NoReaderMessage
    case Body(_, end) => if end.Thrown? && end.message.Some? then end.message.value else UnknownErrorMessage
  }

  /** A request from state `s`: the stream is folded in; an abort keeps what was folded, any other failure is
      reported by the `catch` reducer. */
  function Run(pass: Pass, s: SearchState, reply: Reply, decode: string -> Option<Message>): (r: Fold)
    ensures s.suggestions <= r.state.suggestions
    ensures !reply.Body? ==> r.writes == [] && r.state.error == Some(FailureText(reply))
    ensures reply.Body? && reply.end.Thrown? ==> r.state.error == Some(FailureText(reply))
    ensures reply.Body? && !reply.end.Thrown? ==> r == Feed(pass, s, Concat(reply.chunks), decode)
  {
    match reply
    case Body(chunks, end) =>
      var f := Feed(pass, s, Concat(chunks), decode);
      if end.Thrown? then Fold(Failed(pass, f.state, FailureText(reply)), f.writes) else f
    case _ => Fold(Failed(pass, s, FailureText(reply)), [])
  }

  /** The reference definition of `startSearch`. */
  function Started(cached: Option<SearchResponse>, reply: Reply, decode: string -> Option<Message>): (r: Fold)
    ensures CacheHit(cached) ==> r.writes == [] && r.state.suggestions == cached.value.suggestions && r.state.isComplete
    ensures !CacheHit(cached) && !reply.Body? ==> r.writes == [] && r.state.suggestions == [] && r.state.error.Some?
  {
    if CacheHit(cached) then Fold(FromCache(cached.value.suggestions), [])
    else Run(First, Streaming, reply, decode)
  }

  /** The `loadMore` gate. */
  predicate Admits(s: SearchState)
  {
    !s.isLoadingMore && s.canLoadMore
  }

  /** The body of a load-more request: the known session, or else the words to exclude. */
  function MoreRequest(s: SearchState, projectId: string, query: string, searchMode: string): (r: StreamRequest)
    ensures r.isLoadMore
    ensures Truthy(s.sessionId) ==> r.sessionId == s.sessionId && r.excludeWords == None
    ensures !Truthy(s.sessionId) ==> r.sessionId == None && r.excludeWords == Some(WordsOf(s.suggestions))
  {
    if Truthy(s.sessionId) then StreamRequest(query, projectId, searchMode, true, s.sessionId, None)
    else StreamRequest(query, projectId, searchMode, true, None, Some(WordsOf(s.suggestions)))
  }

  /** The reference definition of an admitted `loadMore`. */
  function LoadedMore(s: SearchState, reply: Reply, decode: string -> Option<Message>): (r: Fold)
    ensures s.suggestions <= r.state.suggestions
    ensures !reply.Body? ==> r.writes == [] && !r.state.isLoadingMore && r.state.suggestions == s.suggestions
    ensures !reply.Body? ==> r.state.error == Some(FailureText(reply))
  {
    Run(More(s.sessionId), s.(isLoadingMore := true, error := None), reply, decode)
  }

  // ---------------------------------------------------------------- the hook

  class StreamingSearchHook {
    var state: SearchState
    /** Whether `abortControllerRef.current` holds a controller. */
    var hasController: bool

    constructor ()
      ensures state == Idle && !hasController
    {
      state := Idle;
      hasController := false;
    }

    /** One complete line of the read loop. */
    method Dispatch(pass: Pass, line: string, decode: string -> Option<Message>, written: seq<seq<KeywordSuggestion>>)
      returns (written': seq<seq<KeywordSuggestion>>)
      modifies this
      ensures Fold(state, written') == OnLine(pass, Fold(old(state), written), line, decode)
      ensures hasController == old(hasController)
    {
      written' := written;
      if StartsWith(line, DataPrefix) {
        var parsed := decode(line[|DataPrefix|..]);
        if parsed.Some? {
          var m := parsed.value;
          if m.CompleteMsg? {
            written' := written' + [state.suggestions];
          }
          state := Reduce(pass, state, m);
        }
      }
    }

    /** The `for (const line of lines)` loop over the complete lines of one read. */
    method DispatchAll(pass: Pass, lines: seq<string>, decode: string -> Option<Message>,
                       written: seq<seq<KeywordSuggestion>>, ghost before: seq<string>, ghost s0: SearchState)
      returns (written': seq<seq<KeywordSuggestion>>)
      requires Fold(state, written) == OnLines(pass, Fold(s0, []), before, decode)
      modifies this
      ensures Fold(state, written') == OnLines(pass, Fold(s0, []), before + lines, decode)
      ensures hasController == old(hasController)
    {
      written' := written;
      var j := 0;
      assert before + lines[..0] == before;
      while j < |lines|
        invariant j <= |lines|
        invariant Fold(state, written') == OnLines(pass, Fold(s0, []), before + lines[..j], decode)
        invariant hasController == old(hasController)
      {
        assert before + lines[..j + 1] == (before + lines[..j]) + [lines[j]];
        written' := Dispatch(pass, lines[j], decode, written');
        j := j + 1;
      }
      assert lines[..j] == lines;
    }

    /** The read loop: every read is appended to `buffer`, the complete lines in it are handled, and the piece
        after the last `'\n'` stays in `buffer`. */
    method ReadStream(pass: Pass, chunks: seq<string>, decode: string -> Option<Message>)
      returns (written: seq<seq<KeywordSuggestion>>)
      modifies this
      ensures Fold(state, written) == Feed(pass, old(state), Concat(chunks), decode)
      ensures hasController == old(hasController)
    {
      ghost var s0 := state;
      written := [];
      var buffer: string := [];
      ghost var handled: seq<string> := [];
      var i := 0;
      assert Split(Concat(chunks[..0]), '\n') == [[]];
      while i < |chunks|
        invariant i <= |chunks|
        invariant Split(Concat(chunks[..i]), '\n') == handled + [buffer]
        invariant Fold(state, written) == OnLines(pass, Fold(s0, []), handled, decode)
        invariant hasController == old(hasController)
      {
        buffer, written, handled := ReadChunk(pass, chunks, i, decode, buffer, written, handled, s0);
        i := i + 1;
      }
      assert chunks[..i] == chunks;
    }

    /** One iteration of the read loop: append the read to `buffer`, handle the complete lines, keep the rest. */
    method ReadChunk(pass: Pass, chunks: seq<string>, i: nat, decode: string -> Option<Message>,
                     buffer: string, written: seq<seq<KeywordSuggestion>>, ghost handled: seq<string>, ghost s0: SearchState)
      returns (buffer': string, written': seq<seq<KeywordSuggestion>>, ghost handled': seq<string>)
      requires i < |chunks|
      requires Split(Concat(chunks[..i]), '\n') == handled + [buffer]
      requires Fold(state, written) == OnLines(pass, Fold(s0, []), handled, decode)
      modifies this
      ensures Split(Concat(chunks[..i + 1]), '\n') == handled' + [buffer']
      ensures Fold(state, written') == OnLines(pass, Fold(s0, []), handled', decode)
      ensures hasController == old(hasController)
    {
      ReadStep(chunks, i, handled, buffer);
      var lines := Split(buffer + chunks[i], '\n');
      written' := DispatchAll(pass, lines[..|lines| - 1], decode, written, handled, s0);
      handled' := handled + lines[..|lines| - 1];
      buffer' := lines[|lines| - 1];
    }

    /** `startSearch`: the request it sends (none on a cache hit) and the cache writes of its reducers. */
    method StartSearch(projectId: string, query: string, searchMode: string, cached: Option<SearchResponse>,
                       reply: Reply, decode: string -> Option<Message>)
      returns (request: Option<StreamRequest>, written: seq<seq<KeywordSuggestion>>)
      modifies this
      ensures request == if CacheHit(cached) then None else Some(StreamRequest(query, projectId, searchMode, false, None, None))
      ensures Fold(state, written) == Started(cached, reply, decode)
      ensures hasController == (old(hasController) || !CacheHit(cached))
    {
      if CacheHit(cached) {
        state := FromCache(cached.value.suggestions);
        return None, [];
      }
      state := Streaming;
      hasController := true;
      request := Some(StreamRequest(query, projectId, searchMode, false, None, None));
      written := [];
      match reply {
        case Body(chunks, end) =>
          written := ReadStream(First, chunks, decode);
          if end.Thrown? {
            state := Failed(First, state, FailureText(reply));
          }
        case _ =>
          state := Failed(First, state, FailureText(reply));
      }
    }

    /** `loadMore`: nothing when the gate is shut; otherwise the request it sends and the cache writes. */
    method LoadMore(projectId: string, query: string, searchMode: string, reply: Reply, decode: string -> Option<Message>)
      returns (request: Option<StreamRequest>, written: seq<seq<KeywordSuggestion>>)
      modifies this
      ensures !Admits(old(state)) ==> request == None && written == [] && state == old(state) && hasController == old(hasController)
      ensures Admits(old(state)) ==>
        request == Some(MoreRequest(old(state), projectId, query, searchMode)) &&
        Fold(state, written) == LoadedMore(old(state), reply, decode) && hasController
    {
      if state.isLoadingMore || !state.canLoadMore {
        return None, [];
      }
      var known := state.sessionId;
      request := Some(MoreRequest(state, projectId, query, searchMode));
      state := state.(isLoadingMore := true, error := None);
      hasController := true;
      written := [];
      match reply {
        case Body(chunks, end) =>
          written := ReadStream(More(known), chunks, decode);
          if end.Thrown? {
            state := Failed(More(known), state, FailureText(reply));
          }
        case _ =>
          state := Failed(More(known), state, FailureText(reply));
      }
    }

    /** `cancelSearch`: with a controller, abort it and clear both loading flags. */
    method CancelSearch()
      modifies this
      ensures hasController == old(hasController)
      ensures state == if hasController then old(state).(isLoading := false, isLoadingMore := false) else old(state)
    {
      if hasController {
        state := state.(isLoading := false, isLoadingMore := false);
      }
    }
  }

  // ---------------------------------------------------------------- what the reducers keep

  /** Every suggestion list written to the cache is a prefix of the suggestions shown. */
  ghost predicate WritesShown(f: Fold)
  {
    forall i :: 0 <= i < |f.writes| ==> f.writes[i] <= f.state.suggestions
  }

  /** What one message keeps. */
  lemma StepKeeps(pass: Pass, f: Fold, m: Message)
    ensures var r := Step(pass, f, m);
      f.state.suggestions <= r.state.suggestions &&
      (pass.First? ==> r.state.loadMoreCount == f.state.loadMoreCount) &&
      (pass.More? && Bounded(f.state) ==> Bounded(r.state)) &&
      (WritesShown(f) ==> WritesShown(r))
  {
    var r := Step(pass, f, m);
    assert f.state.suggestions <= r.state.suggestions;
  }

  /** Over any lines: suggestions are only ever appended, the first pass never touches the load-more
      counter, the load-more reducers keep the gate bounded, and the cache never receives a list that
      is not a prefix of what is shown. */
  lemma {:induction false} OnLinesKeeps(pass: Pass, f: Fold, lines: seq<string>, decode: string -> Option<Message>)
    ensures var r := OnLines(pass, f, lines, decode);
      f.state.suggestions <= r.state.suggestions &&
      (pass.First? ==> r.state.loadMoreCount == f.state.loadMoreCount) &&
      (pass.More? && Bounded(f.state) ==> Bounded(r.state)) &&
      (WritesShown(f) ==> WritesShown(r))
  {
    if lines != [] {
      var g := OnLines(pass, f, lines[..|lines| - 1], decode);
      OnLinesKeeps(pass, f, lines[..|lines| - 1], decode);
      var line := lines[|lines| - 1];
      if StartsWith(line, DataPrefix) && decode(line[|DataPrefix|..]).Some? {
        StepKeeps(pass, g, decode(line[|DataPrefix|..]).value);
      }
    }
  }

  /** What a whole request keeps (the `catch` reducer changes neither the list nor the gate). */
  lemma RunKeeps(pass: Pass, s: SearchState, reply: Reply, decode: string -> Option<Message>)
    ensures var r := Run(pass, s, reply, decode);
      s.suggestions <= r.state.suggestions &&
      (pass.First? ==> r.state.loadMoreCount == s.loadMoreCount) &&
      (pass.More? && Bounded(s) ==> Bounded(r.state)) &&
      WritesShown(r)
  {
    if reply.Body? {
      OnLinesKeeps(pass, Fold(s, []), Handled(Concat(reply.chunks)), decode);
    }
  }

  /** After `startSearch` no load-more has happened and the gate is bounded. */
  lemma StartedBounded(cached: Option<SearchResponse>, reply: Reply, decode: string -> Option<Message>)
    ensures Started(cached, reply, decode).state.loadMoreCount == 0
    ensures Bounded(Started(cached, reply, decode).state)
  {
    if !CacheHit(cached) {
      RunKeeps(First, Streaming, reply, decode);
    }
  }

  /** An admitted `loadMore` keeps the gate bounded and the earlier suggestions in front. */
  lemma LoadedMoreKeeps(s: SearchState, reply: Reply, decode: string -> Option<Message>)
    requires Bounded(s)
    ensures Bounded(LoadedMore(s, reply, decode).state)
    ensures s.suggestions <= LoadedMore(s, reply, decode).state.suggestions
  {
    RunKeeps(More(s.sessionId), s.(isLoadingMore := true, error := None), reply, decode);
  }

  /** The suggestions carried by a run of messages, in order. */
  function Suggested(ms: seq<Message>): seq<KeywordSuggestion>
  {
    if ms == [] then []
    else Suggested(ms[..|ms| - 1]) + (if ms[|ms| - 1].SuggestionMsg? then [ms[|ms| - 1].data] else [])
  }

  /** Replaying messages appends exactly their suggestions, in order, whichever pass. */
  lemma {:induction false} ReplaySuggestions(pass: Pass, f: Fold, ms: seq<Message>)
    ensures Replay(pass, f, ms).state.suggestions == f.state.suggestions + Suggested(ms)
  {
    if ms != [] {
      var front := ms[..|ms| - 1];
      var m := ms[|ms| - 1];
      ReplaySuggestions(pass, f, front);
      AppendAssoc(f.state.suggestions, Suggested(front), if m.SuggestionMsg? then [m.data] else []);
    }
  }

  /** A line left unterminated when the stream ends is never handled. */
  lemma UnterminatedIgnored(pass: Pass, s: SearchState, text: string, tail: string, decode: string -> Option<Message>)
    requires text == [] || text[|text| - 1] == '\n'
    requires '\n' !in tail
    ensures Feed(pass, s, text + tail, decode) == Feed(pass, s, text, decode)
  {
    var px := Split(text, '\n');
    if text == [] {
      assert Split(tail, '\n') == [tail];
      assert text + tail == tail;
    } else {
      var a := text[..|text| - 1];
      assert text == a + ['\n'];
      SplitOfTerminated(a, '\n');
      SplitAppend(text, tail, '\n');
      assert px == Split(a, '\n') + [[]];
      assert px[..|px| - 1] == Split(a, '\n');
      assert [] + tail == tail;
      assert Split(tail, '\n') == [tail];
      var pt := Split(text + tail, '\n');
      assert pt == Split(a, '\n') + [tail];
      assert Handled(text + tail) == Split(a, '\n') == Handled(text);
    }
  }

  // ---------------------------------------------------------------- the server's events on the wire

  /** The message the client reads from a server event. The server names the match type `match_type`;
      the client reads `matchType`, so a streamed suggestion arrives without one. */
  function Received(e: Server.Event): Message
  {
    match e
    case Status(sid, _) => StatusMsg(Some(sid))
    case Suggestion(word, _) => SuggestionMsg(KeywordSuggestion(word, None))
    case Progress(count) => ProgressMsg(count)
    case Complete(total, _, _) => CompleteMsg(total)
    case Error(message) => ErrorMsg(message)
  }

  function ReceivedAll(es: seq<Server.Event>): (ms: seq<Message>)
    ensures |ms| == |es|
  {
    if es == [] then [] else ReceivedAll(es[..|es| - 1]) + [Received(es[|es| - 1])]
  }

  /** The server's encoding of events as `data: <json>` lines each followed by an empty line. */
  function Wire(enc: Server.Event -> string, es: seq<Server.Event>): string
  {
    if es == [] then [] else Wire(enc, es[..|es| - 1]) + (DataPrefix + enc(es[|es| - 1]) + "\n\n")
  }

  /** The complete lines of `Wire(enc, es)`. */
  function WireLines(enc: Server.Event -> string, es: seq<Server.Event>): seq<string>
  {
    if es == [] then [] else WireLines(enc, es[..|es| - 1]) + [DataPrefix + enc(es[|es| - 1]), []]
  }

  /** The server's JSON never holds a raw newline, and the client's `JSON.parse` reads back what it means. */
  ghost predicate Codec(enc: Server.Event -> string, decode: string -> Option<Message>)
  {
    forall e: Server.Event :: '\n' !in enc(e) && decode(enc(e)) == Some(Received(e))
  }

  lemma FrameSplit(json: string)
    requires '\n' !in json
    ensures Split(DataPrefix + json + "\n\n", '\n') == [DataPrefix + json, [], []]
  {
    var line := DataPrefix + json;
    assert '\n' !in line;
    assert line + "\n\n" == line + ['\n'] + ['\n'];
    SplitAfterPrefix(line, ['\n'], '\n');
    SplitNewline();
  }

  lemma SplitNewline()
    ensures Split(['\n'], '\n') == [[], []]
  {
    SplitAfterPrefix([], [], '\n');
    assert [] + ['\n'] + [] == ['\n'];
  }

  /** Appending one framed event to a text whose last piece is empty. */
  lemma FrameAppend(text: string, lines: seq<string>, json: string)
    requires Split(text, '\n') == lines + [[]]
    requires '\n' !in json
    ensures Split(text + (DataPrefix + json + "\n\n"), '\n') == lines + [DataPrefix + json, [], []]
  {
    var frame := DataPrefix + json + "\n\n";
    FramingStep(text, frame, lines, [], '\n');
    assert [] + frame == frame;
    FrameSplit(json);
  }

  lemma {:induction false} WireSplit(enc: Server.Event -> string, es: seq<Server.Event>)
    requires forall e: Server.Event :: '\n' !in enc(e)
    ensures Split(Wire(enc, es), '\n') == WireLines(enc, es) + [[]]
  {
    if es == [] {
      assert Split([], '\n') == [[]];
    } else {
      var front := es[..|es| - 1];
      WireSplit(enc, front);
      var line := DataPrefix + enc(es[|es| - 1]);
      FrameAppend(Wire(enc, front), WireLines(enc, front), enc(es[|es| - 1]));
      AppendAssoc(WireLines(enc, front), [line, []], [[]]);
    }
  }

  lemma {:induction false} WireReplay(pass: Pass, f: Fold, enc: Server.Event -> string, decode: string -> Option<Message>,
                                      es: seq<Server.Event>)
    requires Codec(enc, decode)
    ensures OnLines(pass, f, WireLines(enc, es), decode) == Replay(pass, f, ReceivedAll(es))
  {
    if es != [] {
      var front := es[..|es| - 1];
      var e := es[|es| - 1];
      var line := DataPrefix + enc(e);
      var ls := WireLines(enc, es);
      WireReplay(pass, f, enc, decode, front);
      assert ls[..|ls| - 1] == WireLines(enc, front) + [line];
      assert (WireLines(enc, front) + [line])[..|ls| - 2] == WireLines(enc, front);
      assert line[|DataPrefix|..] == enc(e);
      assert ReceivedAll(es)[..|es| - 1] == ReceivedAll(front);
    }
  }

  /** However the response is cut into reads, the client folds exactly the server's events, in order:
      the read loop equals replaying the received messages. */
  lemma StreamReplaysEvents(pass: Pass, s: SearchState, enc: Server.Event -> string, decode: string -> Option<Message>,
                            es: seq<Server.Event>, chunks: seq<string>)
    requires Codec(enc, decode)
    requires Concat(chunks) == Wire(enc, es)
    ensures Feed(pass, s, Concat(chunks), decode) == Replay(pass, Fold(s, []), ReceivedAll(es))
  {
    WireSplit(enc, es);
    WireReplay(pass, Fold(s, []), enc, decode, es);
    var px := Split(Wire(enc, es), '\n');
    assert px[..|px| - 1] == WireLines(enc, es);
  }

  /** The suggestion records the client builds from streamed words. */
  function Shown(words: seq<string>): (r: seq<KeywordSuggestion>)
    ensures |r| == |words|
  {
    if words == [] then [] else Shown(words[..|words| - 1]) + [KeywordSuggestion(words[|words| - 1], None)]
  }

  lemma {:induction false} SuggestedReceived(es: seq<Server.Event>)
    ensures Suggested(ReceivedAll(es)) == Shown(Server.Words(es))
  {
    if es != [] {
      var front := es[..|es| - 1];
      SuggestedReceived(front);
      var ms := ReceivedAll(es);
      assert ms[..|ms| - 1] == ReceivedAll(front);
      Server.WordsSnoc(front, es[|es| - 1]);
      assert front + [es[|es| - 1]] == es;
      if es[|es| - 1].Suggestion? {
        var ws := Server.Words(es);
        assert ws[..|ws| - 1] == Server.Words(front);
      } else {
        assert Server.Words(front) + [] == Server.Words(front);
      }
    }
  }

  /** A first search that streams a server response shows exactly the server's suggested words, in order,
      each without a match type. */
  lemma StreamShowsServerWords(enc: Server.Event -> string, decode: string -> Option<Message>,
                               es: seq<Server.Event>, chunks: seq<string>, end: End)
    requires Codec(enc, decode)
    requires Concat(chunks) == Wire(enc, es)
    ensures Started(None, Body(chunks, end), decode).state.suggestions == Shown(Server.Words(es))
  {
    StreamReplaysEvents(First, Streaming, enc, decode, es, chunks);
    ReplaySuggestions(First, Fold(Streaming, []), ReceivedAll(es));
    SuggestedReceived(es);
    StartedShowsFeed(chunks, end, decode);
  }

  /** A first search without a cache hit shows what its stream fed in, whether or not the stream then failed. */
  lemma StartedShowsFeed(chunks: seq<string>, end: End, decode: string -> Option<Message>)
    ensures Started(None, Body(chunks, end), decode).state.suggestions == Feed(First, Streaming, Concat(chunks), decode).state.suggestions
  {
  }
}
