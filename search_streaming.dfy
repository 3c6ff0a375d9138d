/**
 * The streaming keyword-suggestion engine of the backend (`POST /search/stream`).
 *
 * One request: check that the project exists, split the query into phrases, choose
 * one match type, resolve the session, emit a `status` event, then frame the model's
 * text deltas into lines, normalise each line, drop empty, over-long and already-sent
 * words (case-insensitively, against the session's word set), emit one `suggestion`
 * per accepted word and a `progress` event after every tenth, and finish with
 * `complete` -- or with `error` when the upstream stream raises.
 *
 * The upstream model stream is an input: the text deltas it delivers (a delta may be
 * absent, `None`) and, optionally, the message of the exception it raises after them.
 */
module SearchStreaming {
  import opened Wrappers
  import opened Text

  /** The request body of `POST /search/stream`. */
  datatype StreamSearchRequest = StreamSearchRequest(
    query: string,
    projectId: string,
    searchMode: string,
    sessionId: Option<string>,
    isLoadMore: bool)

  datatype MatchType = Or | And

  /** Which of the four instruction texts is sent to the model. */
  datatype PromptKind = SinglePhrase | AnyPhrase | AllPhrases | AnyPhraseFallback

  /** The events of the text/event-stream response, each sent as one `data: <json>` line. */
  datatype Event =
    | Status(sessionId: string, isLoadMore: bool)
    | Suggestion(word: string, matchType: MatchType)
    | Progress(count: nat)
    | Complete(total: nat, sessionId: string, totalSessionWords: nat)
    | Error(message: string)

  const MaxWordLength: nat := 100
  const ProgressInterval: nat := 10
  const ProjectNotFound: string := "Project not found"
  /** The leading marker characters removed from a candidate line. */
  const Bullets: set<char> := {'-', '\U{2022}', '*'}

  // ---------------------------------------------------------------- phrases and mode

  /** The `+`-separated phrases of a query, each stripped, blanks dropped, order kept. */
  function ParsePhrases(query: string): (phrases: seq<string>)
    ensures forall i :: 0 <= i < |phrases| ==> phrases[i] != [] && Stripped(phrases[i], Python) && '+' !in phrases[i]
  {
    SplitTrimmed(query, '+', Python)
  }

  /** The instruction kind and the single match type of the one model pass. */
  function ChoosePrompt(phraseCount: nat, searchMode: string): (choice: (PromptKind, MatchType))
    ensures choice.1 == And <==> phraseCount >= 2 && searchMode == "and"
    ensures choice.0 == SinglePhrase <==> phraseCount == 1
    ensures choice.0 == AllPhrases <==> choice.1 == And
  {
    if phraseCount == 1 then (SinglePhrase, Or)
    else if phraseCount > 1 && searchMode == "or" then (AnyPhrase, Or)
    else if phraseCount > 1 && searchMode == "and" then (AllPhrases, And)
    else (AnyPhraseFallback, Or)
  }

  /** `search.session_id or <fresh id>`: an empty or missing id is replaced by the minted one. */
  function SessionFor(requested: Option<string>, minted: string): string
  {
    if Truthy(requested) then requested.value else minted
  }

  /** The words already sent in a session; an unknown session has none. */
  function SeenIn(sessions: map<string, set<string>>, sid: string): set<string>
  {
    if sid in sessions then sessions[sid] else {}
  }

  // ---------------------------------------------------------------- filtering

  /** `s.lstrip('-•*')`. */
  function LStripBullets(s: string): (r: string)
    ensures |r| <= |s|
    ensures r == [] || r[0] !in Bullets
  {
    if s != [] && s[0] in Bullets then LStripBullets(s[1..]) else s
  }

  /** `lstrip` cuts off exactly the leading run of bullet characters: the result is a suffix and
      everything before it is a bullet. */
  lemma {:induction false} LStripBulletsSuffix(s: string)
    ensures var r := LStripBullets(s); r == s[|s| - |r|..] && forall i :: 0 <= i < |s| - |r| ==> s[i] in Bullets
  {
    if s != [] && s[0] in Bullets {
      LStripBulletsSuffix(s[1..]);
    }
  }

  /** `line.strip().lstrip('-•*').strip()`. */
  function Normalize(line: string): (word: string)
    ensures Stripped(word, Python)
  {
    Strip(LStripBullets(Strip(line, Python)), Python)
  }

  /** A normalised line is the stripped line with its leading run of bullets cut off, stripped again. */
  lemma NormalizeSteps(line: string)
    ensures var t := Strip(line, Python);
      exists j :: 0 <= j <= |t| && (forall i :: 0 <= i < j ==> t[i] in Bullets) && (j == |t| || t[j] !in Bullets)
                  && Normalize(line) == Strip(t[j..], Python)
  {
    var t := Strip(line, Python);
    var r := LStripBullets(t);
    LStripBulletsSuffix(t);
    assert r == t[|t| - |r|..];
  }

  /** The filter of one candidate against the session's lower-cased words. */
  predicate Accepts(seen: set<string>, word: string)
  {
    word != [] && |word| <= MaxWordLength && Lower(word) !in seen
  }

  /** What a well-formed suggestion word looks like. */
  predicate WellFormed(word: string)
  {
    word != [] && |word| <= MaxWordLength && Stripped(word, Python)
  }

  /** The running state of one request after the status event: the session's word set,
      the events emitted so far, and `suggestions_sent`. */
  datatype Tally = Tally(seen: set<string>, events: seq<Event>, sent: nat)

  /** One complete line of the line loop: accept or drop, and mark every tenth suggestion. */
  function AcceptLine(t: Tally, line: string, mt: MatchType): (r: Tally)
    ensures Accepts(t.seen, Normalize(line)) ==>
      r.seen == t.seen + {Lower(Normalize(line))} && r.sent == t.sent + 1
    ensures !Accepts(t.seen, Normalize(line)) ==> r == t
  {
    var word := Normalize(line);
    if Accepts(t.seen, word) then
      var sent := t.sent + 1;
      var events := t.events + [Suggestion(word, mt)];
      Tally(t.seen + {Lower(word)}, if sent % ProgressInterval == 0 then events + [Progress(sent)] else events, sent)
    else t
  }

  /** The line loop over complete lines, in order. */
  function AcceptLines(t: Tally, lines: seq<string>, mt: MatchType): Tally
  {
    if lines == [] then t else AcceptLine(AcceptLines(t, lines[..|lines| - 1], mt), lines[|lines| - 1], mt)
  }

  /** The unterminated remainder at end of stream: accepted like a line, but never followed by `progress`. */
  function AcceptRemainder(t: Tally, rest: string, mt: MatchType): Tally
  {
    if Strip(rest, Python) == [] then t
    else
      var word := Normalize(rest);
      if Accepts(t.seen, word) then Tally(t.seen + {Lower(word)}, t.events + [Suggestion(word, mt)], t.sent + 1)
      else t
  }

  // ---------------------------------------------------------------- one request

  /** The upstream model stream: the deltas it delivers, then optionally the exception it raises. */
  datatype Upstream = Upstream(deltas: seq<Option<string>>, failure: Option<string>)

  /** The concatenation of the delivered deltas that carry content. */
  function Delivered(deltas: seq<Option<string>>): string
  {
    if deltas == [] then []
    else Delivered(deltas[..|deltas| - 1]) + (match deltas[|deltas| - 1] case Some(c) => c case None => [])
  }

  /** What one request produces: its events and the new session table. */
  datatype Outcome = Outcome(events: seq<Event>, sessions: map<string, set<string>>)

  /** The reference definition of one request: lines are the `'\n'`-pieces of the delivered text,
      all but the last handled by the line loop, the last handled once at a normal end of stream. */
  function Respond(sessions: map<string, set<string>>, search: StreamSearchRequest, projectFound: bool,
                   mintedId: string, upstream: Upstream): (out: Outcome)
    ensures !projectFound ==> out == Outcome([Error(ProjectNotFound)], sessions)
    ensures projectFound ==> |out.events| >= 2
    ensures projectFound ==> out.events[0] == Status(SessionFor(search.sessionId, mintedId), search.isLoadMore)
    ensures projectFound ==> (out.events[|out.events| - 1].Error? <==> upstream.failure.Some?)
    ensures projectFound && upstream.failure.None? ==> out.events[|out.events| - 1].Complete?
  {
    if !projectFound then Outcome([Error(ProjectNotFound)], sessions)
    else
      var mt := ChoosePrompt(|ParsePhrases(search.query)|, search.searchMode).1;
      var sid := SessionFor(search.sessionId, mintedId);
      var lines := Split(Delivered(upstream.deltas), '\n');
      var body := AcceptLines(Tally(SeenIn(sessions, sid), [], 0), lines[..|lines| - 1], mt);
      match upstream.failure
      case Some(message) =>
        Outcome([Status(sid, search.isLoadMore)] + body.events + [Error(message)], sessions[sid := body.seen])
      case None =>
        var fin := AcceptRemainder(body, lines[|lines| - 1], mt);
        Outcome([Status(sid, search.isLoadMore)] + fin.events + [Complete(fin.sent, sid, |fin.seen|)],
                sessions[sid := fin.seen])
  }

  lemma DeliveredStep(deltas: seq<Option<string>>, i: nat)
    requires i < |deltas|
    ensures deltas[i].Some? ==> Delivered(deltas[..i + 1]) == Delivered(deltas[..i]) + deltas[i].value
    ensures deltas[i].None? ==> Delivered(deltas[..i + 1]) == Delivered(deltas[..i])
  {
    assert deltas[..i + 1][..i] == deltas[..i];
    if deltas[i].None? {
      assert Delivered(deltas[..i]) + [] == Delivered(deltas[..i]);
    }
  }

  lemma AcceptLinesSnoc(t: Tally, lines: seq<string>, line: string, mt: MatchType)
    ensures AcceptLines(t, lines + [line], mt) == AcceptLine(AcceptLines(t, lines, mt), line, mt)
  {
    assert (lines + [line])[..|lines|] == lines;
  }

  /** `Respond` once the delivered text is known to frame into `handled` lines and a remainder. */
  lemma RespondFraming(sessions: map<string, set<string>>, search: StreamSearchRequest, mintedId: string,
                       upstream: Upstream, handled: seq<string>, buffer: string)
    requires Split(Delivered(upstream.deltas), '\n') == handled + [buffer]
    ensures var mt := ChoosePrompt(|ParsePhrases(search.query)|, search.searchMode).1;
      var sid := SessionFor(search.sessionId, mintedId);
      var body := AcceptLines(Tally(SeenIn(sessions, sid), [], 0), handled, mt);
      var fin := AcceptRemainder(body, buffer, mt);
      Respond(sessions, search, true, mintedId, upstream) ==
        if upstream.failure.Some? then
          Outcome([Status(sid, search.isLoadMore)] + body.events + [Error(upstream.failure.value)], sessions[sid := body.seen])
        else
          Outcome([Status(sid, search.isLoadMore)] + fin.events + [Complete(fin.sent, sid, |fin.seen|)], sessions[sid := fin.seen])
  {
    var lines := Split(Delivered(upstream.deltas), '\n');
    assert lines[..|lines| - 1] == handled && lines[|lines| - 1] == buffer;
  }

  lemma MapOverwrite<K, V>(m: map<K, V>, k: K, a: V, b: V)
    ensures m[k := a][k := b] == m[k := b]
  {
  }

  /** The events of an accepted line, after the leading `status`, are those `AcceptLine` appends. */
  lemma AcceptedLine(head: seq<Event>, t: Tally, line: string, mt: MatchType, events': seq<Event>)
    requires Accepts(t.seen, Normalize(line))
    requires var e := head + t.events + [Suggestion(Normalize(line), mt)];
      events' == if (t.sent + 1) % ProgressInterval == 0 then e + [Progress(t.sent + 1)] else e
    ensures events' == head + AcceptLine(t, line, mt).events
  {
    var w := Normalize(line);
    AppendAssoc(head, t.events, [Suggestion(w, mt)]);
    if (t.sent + 1) % ProgressInterval == 0 {
      AppendAssoc(head, t.events + [Suggestion(w, mt)], [Progress(t.sent + 1)]);
    }
  }

  /** The process-wide `session_words` table and the request handler that reads and extends it. */
  class SessionWords {
    var sessions: map<string, set<string>>

    constructor ()
      ensures sessions == map[]
    {
      sessions := map[];
    }

    /** One complete line of the line loop: normalise it, and when the session has not seen it, record it,
        emit it, and after every tenth suggestion emit `progress`. */
    method OfferLine(sessionId: string, line: string, matchType: MatchType, events: seq<Event>, sent: nat,
                     ghost tally: Tally, ghost sessions0: map<string, set<string>>)
      returns (events': seq<Event>, sent': nat)
      requires sessions == sessions0[sessionId := tally.seen] && sent == tally.sent
      requires |events| >= 1 && events == events[..1] + tally.events
      modifies this
      ensures var next := AcceptLine(tally, line, matchType);
        sessions == sessions0[sessionId := next.seen] && events' == events[..1] + next.events && sent' == next.sent
    {
      var word := Normalize(line);
      if word != [] && |word| <= MaxWordLength && Lower(word) !in sessions[sessionId] {
        MapOverwrite(sessions0, sessionId, tally.seen, tally.seen + {Lower(word)});
        sessions := sessions[sessionId := sessions[sessionId] + {Lower(word)}];
        sent' := sent + 1;
        events' := events + [Suggestion(word, matchType)];
        if sent' % ProgressInterval == 0 {
          events' := events' + [Progress(sent')];
        }
        AcceptedLine(events[..1], tally, line, matchType, events');
      } else {
        events', sent' := events, sent;
      }
    }

    /** One delivered chunk: append it to the buffer, then cut off and offer every complete line in it. */
    method FeedChunk(sessionId: string, matchType: MatchType, content: string,
                     wordBuffer: string, events: seq<Event>, sent: nat,
                     ghost text: string, ghost handled: seq<string>, ghost start: Tally, ghost tally: Tally,
                     ghost sessions0: map<string, set<string>>)
      returns (wordBuffer': string, events': seq<Event>, sent': nat, ghost handled': seq<string>, ghost tally': Tally)
      requires Split(text, '\n') == handled + [wordBuffer]
      requires tally == AcceptLines(start, handled, matchType)
      requires sessions == sessions0[sessionId := tally.seen]
      requires |events| >= 1 && events == events[..1] + tally.events && sent == tally.sent
      modifies this
      ensures Split(text + content, '\n') == handled' + [wordBuffer']
      ensures tally' == AcceptLines(start, handled', matchType)
      ensures sessions == sessions0[sessionId := tally'.seen]
      ensures |events'| >= 1 && events'[..1] == events[..1] && events' == events[..1] + tally'.events && sent' == tally'.sent
    {
      FramingStep(text, content, handled, wordBuffer, '\n');
      wordBuffer', events', sent', handled', tally' := wordBuffer + content, events, sent, handled, tally;
      while '\n' in wordBuffer'
        invariant Split(text + content, '\n') == handled' + Split(wordBuffer', '\n')
        invariant tally' == AcceptLines(start, handled', matchType)
        invariant sessions == sessions0[sessionId := tally'.seen]
        invariant |events'| >= 1 && events'[..1] == events[..1] && events' == events[..1] + tally'.events && sent' == tally'.sent
        decreases |wordBuffer'|
      {
        var k := IndexOf(wordBuffer', '\n');
        var line := wordBuffer'[..k];
        SplitFirstLine(handled', wordBuffer', '\n');
        AcceptLinesSnoc(start, handled', line, matchType);
        wordBuffer' := wordBuffer'[k + 1..];
        handled' := handled' + [line];
        events', sent' := OfferLine(sessionId, line, matchType, events', sent', tally', sessions0);
        tally' := AcceptLine(tally', line, matchType);
      }
      assert Split(wordBuffer', '\n') == [wordBuffer'];
    }

    /** `stream_search_results`: the events of one request, in order. */
    method StreamSearchResults(search: StreamSearchRequest, projectFound: bool, mintedId: string, upstream: Upstream)
      returns (events: seq<Event>)
      modifies this
      ensures Outcome(events, sessions) == Respond(old(sessions), search, projectFound, mintedId, upstream)
    {
      if !projectFound {
        events := [Error(ProjectNotFound)];
        return;
      }
      var phrases := ParsePhrases(search.query);
      var (kind, matchType) := ChoosePrompt(|phrases|, search.searchMode);
      var sessionId := SessionFor(search.sessionId, mintedId);
      if sessionId !in sessions {
        sessions := sessions[sessionId := {}];
      }
      events := [Status(sessionId, search.isLoadMore)];
      ghost var sessions0 := old(sessions);
      ghost var start := Tally(SeenIn(sessions0, sessionId), [], 0);
      var wordBuffer, sent;
      ghost var handled, tally;
      wordBuffer, events, sent, handled, tally := StreamDeltas(sessionId, matchType, upstream.deltas, events, start, sessions0);
      RespondFraming(old(sessions), search, mintedId, upstream, handled, wordBuffer);
      if upstream.failure.Some? {
        events := events + [Error(upstream.failure.value)];
        return;
      }
      events, sent := OfferRemainder(sessionId, wordBuffer, matchType, events, sent, tally, sessions0);
      events := events + [Complete(sent, sessionId, |sessions[sessionId]|)];
    }

    /** The `async for` loop: feed every delivered delta that carries content. */
    method StreamDeltas(sessionId: string, matchType: MatchType, deltas: seq<Option<string>>, events: seq<Event>,
                        ghost start: Tally, ghost sessions0: map<string, set<string>>)
      returns (wordBuffer: string, events': seq<Event>, sent: nat, ghost handled: seq<string>, ghost tally: Tally)
      requires start.events == [] && start.sent == 0
      requires sessions == sessions0[sessionId := start.seen] && |events| == 1
      modifies this
      ensures Split(Delivered(deltas), '\n') == handled + [wordBuffer]
      ensures tally == AcceptLines(start, handled, matchType)
      ensures sessions == sessions0[sessionId := tally.seen]
      ensures events' == events + tally.events && sent == tally.sent
    {
      handled, tally := [], start;
      wordBuffer, events', sent := [], events, 0;
      assert deltas[..0] == [];
      assert Split([], '\n') == [[]];
      var i := 0;
      while i < |deltas|
        invariant i <= |deltas|
        invariant Split(Delivered(deltas[..i]), '\n') == handled + [wordBuffer]
        invariant tally == AcceptLines(start, handled, matchType)
        invariant sessions == sessions0[sessionId := tally.seen]
        invariant |events'| >= 1 && events'[..1] == events && events' == events + tally.events && sent == tally.sent
      {
        DeliveredStep(deltas, i);
        if deltas[i].Some? {
          wordBuffer, events', sent, handled, tally :=
            FeedChunk(sessionId, matchType, deltas[i].value, wordBuffer, events', sent,
                      Delivered(deltas[..i]), handled, start, tally, sessions0);
        }
        i := i + 1;
      }
      assert deltas[..i] == deltas;
    }

    /** The unterminated remainder once the stream has ended: offered like a line, without `progress`. */
    method OfferRemainder(sessionId: string, wordBuffer: string, matchType: MatchType, events: seq<Event>, sent: nat,
                          ghost tally: Tally, ghost sessions0: map<string, set<string>>)
      returns (events': seq<Event>, sent': nat)
      requires sessions == sessions0[sessionId := tally.seen] && sent == tally.sent
      requires |events| >= 1 && events == events[..1] + tally.events
      modifies this
      ensures var fin := AcceptRemainder(tally, wordBuffer, matchType);
        sessions == sessions0[sessionId := fin.seen] && events' == events[..1] + fin.events && sent' == fin.sent
    {
      events', sent' := events, sent;
      if Strip(wordBuffer, Python) != [] {
        var word := Normalize(wordBuffer);
        if word != [] && |word| <= MaxWordLength && Lower(word) !in sessions[sessionId] {
          MapOverwrite(sessions0, sessionId, tally.seen, tally.seen + {Lower(word)});
          AppendAssoc(events[..1], tally.events, [Suggestion(word, matchType)]);
          sessions := sessions[sessionId := sessions[sessionId] + {Lower(word)}];
          events' := events' + [Suggestion(word, matchType)];
          sent' := sent' + 1;
        }
      }
    }
  }

  // ---------------------------------------------------------------- what a response contains

  /** The words of the `suggestion` events, in order. */
  function Words(es: seq<Event>): (ws: seq<string>)
    ensures |ws| <= |es|
  {
    if es == [] then []
    else Words(es[..|es| - 1]) + (if es[|es| - 1].Suggestion? then [es[|es| - 1].word] else [])
  }

  /** The lower-cased forms of some words. */
  function LowerSet(ws: seq<string>): set<string>
  {
    set i | 0 <= i < |ws| :: Lower(ws[i])
  }

  /** No word repeats the lower-cased form of an earlier one or of one already in `seen`. */
  ghost predicate Fresh(seen: set<string>, ws: seq<string>)
  {
    && (forall i :: 0 <= i < |ws| ==> Lower(ws[i]) !in seen)
    && (forall i, j :: 0 <= i < j < |ws| ==> Lower(ws[i]) != Lower(ws[j]))
  }

  /** Between `status` and the terminal event there are only suggestions of one match type and progress marks. */
  predicate BodyEvent(e: Event, mt: MatchType)
  {
    (e.Suggestion? && e.matchType == mt && WellFormed(e.word)) || e.Progress?
  }

  /** The event at `j`, when a `progress` event, directly follows a suggestion and carries the count so far, a multiple of ten. */
  predicate ProgressJustified(es: seq<Event>, j: nat)
    requires j < |es|
  {
    es[j].Progress? ==>
      0 < j && es[j - 1].Suggestion? && es[j].count == |Words(es[..j])| && es[j].count % ProgressInterval == 0
  }

  /** The event at `j`, when the suggestion that makes the count a multiple of ten, is directly followed by `progress`. */
  predicate TenthMarked(es: seq<Event>, j: nat)
    requires j < |es|
  {
    es[j].Suggestion? && |Words(es[..j + 1])| % ProgressInterval == 0 ==>
      j + 1 < |es| && es[j + 1] == Progress(|Words(es[..j + 1])|)
  }

  ghost predicate Sound(seen0: set<string>, t: Tally, mt: MatchType)
  {
    var ws := Words(t.events);
    && Fresh(seen0, ws)
    && t.seen == seen0 + LowerSet(ws)
    && t.sent == |ws|
    && (forall k :: 0 <= k < |t.events| ==> BodyEvent(t.events[k], mt))
    && (forall j :: 0 <= j < |t.events| ==> ProgressJustified(t.events, j))
  }

  ghost predicate AllTenthsMarked(es: seq<Event>, n: nat)
    requires n <= |es|
  {
    forall j :: 0 <= j < n ==> TenthMarked(es, j)
  }

  lemma WordsSnoc(es: seq<Event>, e: Event)
    ensures Words(es + [e]) == Words(es) + (if e.Suggestion? then [e.word] else [])
  {
    assert (es + [e])[..|es|] == es;
  }

  lemma {:induction false} WordsAppend(a: seq<Event>, b: seq<Event>)
    ensures Words(a + b) == Words(a) + Words(b)
    decreases |b|
  {
    if b == [] {
      assert a + b == a;
    } else {
      var e := b[|b| - 1];
      var b' := b[..|b| - 1];
      assert a + b == (a + b') + [e];
      assert b == b' + [e];
      WordsSnoc(a + b', e);
      WordsSnoc(b', e);
      WordsAppend(a, b');
    }
  }

  lemma LowerSetAppend(a: seq<string>, b: seq<string>)
    ensures LowerSet(a + b) == LowerSet(a) + LowerSet(b)
  {
    var ab := a + b;
    forall x | x in LowerSet(ab)
      ensures x in LowerSet(a) + LowerSet(b)
    {
      var i :| 0 <= i < |ab| && Lower(ab[i]) == x;
      if i >= |a| {
        assert ab[i] == b[i - |a|];
      }
    }
    forall x | x in LowerSet(a) + LowerSet(b)
      ensures x in LowerSet(ab)
    {
      if x in LowerSet(a) {
        var i :| 0 <= i < |a| && Lower(a[i]) == x;
        assert ab[i] == a[i];
      } else {
        var i :| 0 <= i < |b| && Lower(b[i]) == x;
        assert ab[|a| + i] == b[i];
      }
    }
  }

  lemma LowerSetSnoc(ws: seq<string>, w: string)
    ensures LowerSet(ws + [w]) == LowerSet(ws) + {Lower(w)}
  {
    var ws' := ws + [w];
    forall x | x in LowerSet(ws')
      ensures x in LowerSet(ws) + {Lower(w)}
    {
      var i :| 0 <= i < |ws'| && Lower(ws'[i]) == x;
      if i < |ws| {
        assert ws'[i] == ws[i];
      }
    }
    forall x | x in LowerSet(ws) + {Lower(w)}
      ensures x in LowerSet(ws')
    {
      if x in LowerSet(ws) {
        var i :| 0 <= i < |ws| && Lower(ws[i]) == x;
        assert ws'[i] == ws[i];
      } else {
        assert ws'[|ws|] == w;
      }
    }
  }

  /** The last of some fresh words is new to the earlier ones, which are fresh themselves. */
  lemma FreshLast(seen: set<string>, ws: seq<string>)
    requires Fresh(seen, ws) && |ws| > 0
    ensures var ws' := ws[..|ws| - 1];
      Fresh(seen, ws') && Lower(ws[|ws| - 1]) !in seen + LowerSet(ws')
  {
  }

  /** Fresh words add exactly as many entries to a session as there are words. */
  lemma {:induction false} FreshSize(seen: set<string>, ws: seq<string>)
    requires Fresh(seen, ws)
    ensures |seen + LowerSet(ws)| == |seen| + |ws|
    decreases |ws|
  {
    if ws == [] {
      assert LowerSet(ws) == {};
    } else {
      var ws' := ws[..|ws| - 1];
      var w := ws[|ws| - 1];
      FreshLast(seen, ws);
      FreshSize(seen, ws');
      assert ws == ws' + [w];
      LowerSetSnoc(ws', w);
      assert seen + LowerSet(ws) == (seen + LowerSet(ws')) + {Lower(w)};
    }
  }

  /** Two fresh runs in a row make one fresh run. */
  lemma FreshAppend(seen: set<string>, a: seq<string>, b: seq<string>)
    requires Fresh(seen, a) && Fresh(seen + LowerSet(a), b)
    ensures Fresh(seen, a + b)
  {
    var ab := a + b;
    forall i, j | 0 <= i < j < |ab|
      ensures Lower(ab[i]) != Lower(ab[j])
    {
      if j >= |a| {
        assert ab[j] == b[j - |a|];
        if i < |a| {
          assert ab[i] == a[i];
          assert Lower(a[i]) in LowerSet(a);
        } else {
          assert ab[i] == b[i - |a|];
        }
      } else {
        assert ab[i] == a[i] && ab[j] == a[j];
      }
    }
    forall i | 0 <= i < |ab|
      ensures Lower(ab[i]) !in seen
    {
      if i < |a| {
        assert ab[i] == a[i];
      } else {
        assert ab[i] == b[i - |a|];
      }
    }
  }

  lemma SoundStart(seen0: set<string>, mt: MatchType)
    ensures Sound(seen0, Tally(seen0, [], 0), mt) && AllTenthsMarked([], 0)
  {
    assert LowerSet([]) == {};
  }

  /** Appending an event leaves the facts about the earlier positions as they were. */
  lemma SnocKeeps(es: seq<Event>, e: Event, n: nat)
    requires n <= |es| && AllTenthsMarked(es, n)
    requires forall j :: 0 <= j < |es| ==> ProgressJustified(es, j)
    ensures AllTenthsMarked(es + [e], n)
    ensures forall j :: 0 <= j < |es| ==> ProgressJustified(es + [e], j)
  {
    var es' := es + [e];
    forall j | 0 <= j < |es|
      ensures ProgressJustified(es', j) && (j < n ==> TenthMarked(es', j))
    {
      assert es'[..j] == es[..j] && es'[..j + 1] == es[..j + 1];
      assert ProgressJustified(es, j);
      if j < n {
        assert TenthMarked(es, j);
      }
    }
  }

  /** Offering one word that the filter accepts keeps the words fresh and the session set in step. */
  lemma AcceptWordSound(seen0: set<string>, t: Tally, word: string, mt: MatchType)
    requires Sound(seen0, t, mt)
    requires Accepts(t.seen, word) && Stripped(word, Python)
    ensures var es := t.events + [Suggestion(word, mt)];
      Words(es) == Words(t.events) + [word] && Sound(seen0, Tally(t.seen + {Lower(word)}, es, t.sent + 1), mt)
  {
    var ws := Words(t.events);
    var es := t.events + [Suggestion(word, mt)];
    WordsSnoc(t.events, Suggestion(word, mt));
    forall i | 0 <= i < |ws|
      ensures Lower(ws[i]) != Lower(word)
    {
      assert Lower(ws[i]) in LowerSet(ws);
    }
    LowerSetSnoc(ws, word);
    SnocKeeps(t.events, Suggestion(word, mt), 0);
  }

  /** The line loop's step keeps every invariant of the response body, progress marks included. */
  lemma AcceptLineSound(seen0: set<string>, t: Tally, line: string, mt: MatchType)
    requires Sound(seen0, t, mt) && AllTenthsMarked(t.events, |t.events|)
    ensures var t' := AcceptLine(t, line, mt);
      Sound(seen0, t', mt) && AllTenthsMarked(t'.events, |t'.events|)
  {
    var word := Normalize(line);
    if Accepts(t.seen, word) {
      AcceptedLineSound(seen0, t, word, mt);
      var sent := t.sent + 1;
      var es := t.events + [Suggestion(word, mt)];
      assert AcceptLine(t, line, mt) ==
        Tally(t.seen + {Lower(word)}, if sent % ProgressInterval == 0 then es + [Progress(sent)] else es, sent);
    } else {
      assert AcceptLine(t, line, mt) == t;
    }
  }

  lemma AcceptedLineSound(seen0: set<string>, t: Tally, word: string, mt: MatchType)
    requires Sound(seen0, t, mt) && AllTenthsMarked(t.events, |t.events|)
    requires Accepts(t.seen, word) && Stripped(word, Python)
    ensures var sent := t.sent + 1;
      var es := t.events + [Suggestion(word, mt)];
      var t' := Tally(t.seen + {Lower(word)}, if sent % ProgressInterval == 0 then es + [Progress(sent)] else es, sent);
      Sound(seen0, t', mt) && AllTenthsMarked(t'.events, |t'.events|)
  {
    AcceptWordSound(seen0, t, word, mt);
    var es := t.events + [Suggestion(word, mt)];
    var sent := t.sent + 1;
    SnocKeeps(t.events, Suggestion(word, mt), |t.events|);
    if sent % ProgressInterval == 0 {
      ProgressStep(seen0, es, sent, t.seen + {Lower(word)}, mt);
    } else {
      assert es[..|es|] == es;
      assert TenthMarked(es, |t.events|);
    }
  }

  /** A `progress` event after the tenth, twentieth, ... suggestion is justified and marks it. */
  lemma ProgressStep(seen0: set<string>, es: seq<Event>, sent: nat, seen: set<string>, mt: MatchType)
    requires Sound(seen0, Tally(seen, es, sent), mt) && |es| > 0 && es[|es| - 1].Suggestion?
    requires AllTenthsMarked(es, |es| - 1) && sent % ProgressInterval == 0
    ensures Sound(seen0, Tally(seen, es + [Progress(sent)], sent), mt)
    ensures AllTenthsMarked(es + [Progress(sent)], |es| + 1)
  {
    var es' := es + [Progress(sent)];
    WordsSnoc(es, Progress(sent));
    SnocKeeps(es, Progress(sent), |es| - 1);
    assert Words(es) + [] == Words(es);
    assert es'[..|es|] == es;
    assert ProgressJustified(es', |es|);
    assert TenthMarked(es', |es| - 1);
    assert TenthMarked(es', |es|);
  }
  lemma {:induction false} AcceptLinesSound(seen0: set<string>, lines: seq<string>, mt: MatchType)
    ensures var t := AcceptLines(Tally(seen0, [], 0), lines, mt);
      Sound(seen0, t, mt) && AllTenthsMarked(t.events, |t.events|)
    decreases |lines|
  {
    if lines == [] {
      SoundStart(seen0, mt);
    } else {
      AcceptLinesSound(seen0, lines[..|lines| - 1], mt);
      AcceptLineSound(seen0, AcceptLines(Tally(seen0, [], 0), lines[..|lines| - 1], mt), lines[|lines| - 1], mt);
    }
  }

  /** The remainder adds at most one suggestion and never a progress mark. */
  lemma AcceptRemainderSound(seen0: set<string>, t: Tally, rest: string, mt: MatchType)
    requires Sound(seen0, t, mt) && AllTenthsMarked(t.events, |t.events|)
    ensures var t' := AcceptRemainder(t, rest, mt);
      && Sound(seen0, t', mt)
      && (t'.events == t.events || (exists w :: t'.events == t.events + [Suggestion(w, mt)]))
      && (|t'.events| > 0 ==> AllTenthsMarked(t'.events, |t'.events| - 1))
  {
    var t' := AcceptRemainder(t, rest, mt);
    if t' != t {
      var word := Normalize(rest);
      AcceptWordSound(seen0, t, word, mt);
      forall j | 0 <= j < |t.events|
        ensures TenthMarked(t'.events, j)
      {
        assert t'.events[..j + 1] == t.events[..j + 1];
        assert TenthMarked(t.events, j);
      }
    }
  }

  // ---------------------------------------------------------------- properties of a response

  /** A response for an existing project: `status` first; then suggestions of the one match type, each
      well formed and new to the session (case-insensitively) and to each other, with a `progress` mark
      after every tenth that the line loop accepts; then exactly one terminal event -- the upstream error,
      or `complete` with the number of suggestions and the session's new size.  The session's word set
      grows by exactly the suggested words. */
  ghost predicate WellFormedResponse(out: Outcome, sessions: map<string, set<string>>, sid: string, isLoadMore: bool,
                                     mt: MatchType, failure: Option<string>)
  {
    var seen := SeenIn(sessions, sid);
    var n := |out.events|;
    n >= 2 && out.events[0] == Status(sid, isLoadMore) &&
    var body := out.events[1..n - 1];
    var words := Words(body);
    && Fresh(seen, words)
    && out.sessions == sessions[sid := seen + LowerSet(words)]
    && (forall k :: 0 <= k < |body| ==> BodyEvent(body[k], mt))
    && (forall j :: 0 <= j < |body| ==> ProgressJustified(body, j))
    && (forall j :: 0 <= j < |body| - 1 ==> TenthMarked(body, j))
    && (failure.Some? ==> out.events[n - 1] == Error(failure.value) && AllTenthsMarked(body, |body|))
    && (failure.None? ==> out.events[n - 1] == Complete(|words|, sid, |seen| + |words|))
  }

  /** A sound tally between `status` and its terminal event makes a well-formed response. */
  lemma ResponseOfTally(sessions: map<string, set<string>>, sid: string, isLoadMore: bool, mt: MatchType,
                        failure: Option<string>, t: Tally)
    requires Sound(SeenIn(sessions, sid), t, mt)
    requires failure.Some? ==> AllTenthsMarked(t.events, |t.events|)
    requires |t.events| > 0 ==> AllTenthsMarked(t.events, |t.events| - 1)
    ensures var terminal := if failure.Some? then Error(failure.value) else Complete(t.sent, sid, |t.seen|);
      WellFormedResponse(Outcome([Status(sid, isLoadMore)] + t.events + [terminal], sessions[sid := t.seen]),
                         sessions, sid, isLoadMore, mt, failure)
  {
    var terminal := if failure.Some? then Error(failure.value) else Complete(t.sent, sid, |t.seen|);
    var es := [Status(sid, isLoadMore)] + t.events + [terminal];
    assert es[1..|es| - 1] == t.events;
    FreshSize(SeenIn(sessions, sid), Words(t.events));
  }

  /** Every response `Respond` gives for an existing project is well formed. */
  lemma RespondShape(sessions: map<string, set<string>>, search: StreamSearchRequest, mintedId: string, upstream: Upstream)
    ensures WellFormedResponse(Respond(sessions, search, true, mintedId, upstream), sessions,
                               SessionFor(search.sessionId, mintedId), search.isLoadMore,
                               ChoosePrompt(|ParsePhrases(search.query)|, search.searchMode).1, upstream.failure)
  {
    var sid := SessionFor(search.sessionId, mintedId);
    var seen := SeenIn(sessions, sid);
    var mt := ChoosePrompt(|ParsePhrases(search.query)|, search.searchMode).1;
    var lines := Split(Delivered(upstream.deltas), '\n');
    var handled := lines[..|lines| - 1];
    FrontLast(lines);
    RespondFraming(sessions, search, mintedId, upstream, handled, lines[|lines| - 1]);
    var body := AcceptLines(Tally(seen, [], 0), handled, mt);
    AcceptLinesSound(seen, handled, mt);
    if upstream.failure.Some? {
      ResponseOfTally(sessions, sid, search.isLoadMore, mt, upstream.failure, body);
    } else {
      AcceptRemainderSound(seen, body, lines[|lines| - 1], mt);
      ResponseOfTally(sessions, sid, search.isLoadMore, mt, upstream.failure, AcceptRemainder(body, lines[|lines| - 1], mt));
    }
  }

  /** One call of the handler: the request, whether its project exists, the id it would mint, the model's stream. */
  datatype Call = Call(search: StreamSearchRequest, projectFound: bool, mintedId: string, upstream: Upstream)

  /** Calls served one after another by one process; the events of all responses, in order. */
  function Serve(sessions: map<string, set<string>>, calls: seq<Call>): Outcome
    decreases |calls|
  {
    if calls == [] then Outcome([], sessions)
    else
      var c := calls[0];
      var first := Respond(sessions, c.search, c.projectFound, c.mintedId, c.upstream);
      var rest := Serve(first.sessions, calls[1..]);
      Outcome(first.events + rest.events, rest.sessions)
  }

  /** The `status` and terminal events around a body carry no word. */
  lemma WordsInside(es: seq<Event>)
    requires |es| >= 2 && !es[0].Suggestion? && !es[|es| - 1].Suggestion?
    ensures Words(es) == Words(es[1..|es| - 1])
  {
    var n := |es|;
    var front := es[..n - 1];
    var mid := es[1..n - 1];
    FrontLast(es);
    WordsSnoc(front, es[n - 1]);
    assert Words(es) == Words(front) + [];
    assert front == [es[0]] + mid;
    WordsAppend([es[0]], mid);
    WordsSnoc([], es[0]);
    assert [] + [es[0]] == [es[0]];
    assert Words([es[0]]) == [];
  }

  /** The words of a well-formed response are fresh to the session and are what it adds. */
  lemma WellFormedWords(out: Outcome, sessions: map<string, set<string>>, sid: string, isLoadMore: bool,
                        mt: MatchType, failure: Option<string>)
    requires WellFormedResponse(out, sessions, sid, isLoadMore, mt, failure)
    ensures Fresh(SeenIn(sessions, sid), Words(out.events))
    ensures SeenIn(out.sessions, sid) == SeenIn(sessions, sid) + LowerSet(Words(out.events))
  {
    WordsInside(out.events);
  }

  /** The words one response sends in a given session: fresh to it, and exactly what it adds. */
  lemma ResponseWords(sessions: map<string, set<string>>, c: Call, sid: string)
    requires sid != [] && c.search.sessionId == Some(sid)
    ensures var first := Respond(sessions, c.search, c.projectFound, c.mintedId, c.upstream);
      Fresh(SeenIn(sessions, sid), Words(first.events)) &&
      SeenIn(first.sessions, sid) == SeenIn(sessions, sid) + LowerSet(Words(first.events))
  {
    var first := Respond(sessions, c.search, c.projectFound, c.mintedId, c.upstream);
    var seen := SeenIn(sessions, sid);
    assert SessionFor(c.search.sessionId, c.mintedId) == sid;
    if c.projectFound {
      RespondShape(sessions, c.search, c.mintedId, c.upstream);
      WellFormedWords(first, sessions, sid, c.search.isLoadMore,
                      ChoosePrompt(|ParsePhrases(c.search.query)|, c.search.searchMode).1, c.upstream.failure);
    } else {
      assert Words(first.events) == [];
      assert LowerSet([]) == {};
    }
  }

  /** A client that keeps sending the same non-empty `session_id` (the "load more" flow) never receives
      the same word twice, up to case, nor a word the session had already seen; the session's word set
      ends as the old set plus exactly the words sent. */
  lemma {:induction false} SessionNeverRepeats(sessions: map<string, set<string>>, calls: seq<Call>, sid: string)
    requires sid != []
    requires forall i :: 0 <= i < |calls| ==> calls[i].search.sessionId == Some(sid)
    ensures var out := Serve(sessions, calls);
      Fresh(SeenIn(sessions, sid), Words(out.events)) &&
      SeenIn(out.sessions, sid) == SeenIn(sessions, sid) + LowerSet(Words(out.events))
    decreases |calls|
  {
    if calls == [] {
      assert LowerSet([]) == {};
    } else {
      var c := calls[0];
      var first := Respond(sessions, c.search, c.projectFound, c.mintedId, c.upstream);
      ResponseWords(sessions, c, sid);
      SessionNeverRepeats(first.sessions, calls[1..], sid);
      var rest := Serve(first.sessions, calls[1..]);
      WordsAppend(first.events, rest.events);
      LowerSetAppend(Words(first.events), Words(rest.events));
      FreshAppend(SeenIn(sessions, sid), Words(first.events), Words(rest.events));
    }
  }
}
