# Brainstormer search core in Dafny

Brainstormer is a keyword brainstorming tool. A user types one to three phrases into the
search bar. The backend asks a language model for related words and streams them back as
server-sent events. It drops words the user's session has already received, compared without
regard to case. The browser folds the events into its search state, keeps results in several
client-side caches, and shows the words grouped by match type, ready to be added to a
collection.

This project models that core and proves properties of the model:

- **Backend stream** (`search_streaming.dfy`, module `SearchStreaming`).
  - The `POST /search/stream` handler: phrase parsing, the choice of prompt and match type, and the session word table.
  - Line framing of the model's text deltas, normalisation and filtering of candidate words.
  - The `status`, `suggestion`, `progress`, `complete` and `error` events.
  - The handler is a `class SessionWords` whose method is proved equal to a pure reference definition `Respond`. The lemmas are stated about `Respond`.
- **Streaming client** (`streaming_search.dfy`, module `StreamingSearch`).
  - `useStreamingSearch`: the read loop with its line buffer, and the `prev => next` reducers of `startSearch` and `loadMore`.
  - The load-more gate and `cancelSearch`.
  - A class `StreamingSearchHook` holds the state.
- **Search bar** (`search_bar.dfy`, module `SearchBar`): the phrase editor of `SearchBar.tsx`, whitespace collapsing, the `+` query round trip, and fresh project names.
- **Client caches**, each a class over the stored object:
  - `hybrid_cache.dfy` (`useSearchHybridCache`): an in-memory layer over `sessionStorage`, with a 500-entry cap and quota clean-up.
  - `optimized_cache.dfy` (`useSearchOptimizedCache`): a compact `localStorage` cache with base64 keys, 2-hour expiry and a 50-entry cap.
  - `results_cache.dfy` (`useSearchResultsCache`): a 5-minute cache with an expiry sweep.
  - `collection_search_cache.dfy` (`useCollectionSearchCache`): the last query per collection.
- **Rate limiting** (`rate_limit.dfy`): the sliding-window limiter of `rate_limit.py` over per-key sorted sets, and its middleware.
- **Other hooks and pages:**
  - `load_more.dfy` models `useSearchWithLoadMore`.
  - `search_content.dfy` models `SearchContent.tsx`: grouping by match type, term ids and the target collection.
  - `collection_mutations.dfy` models what the add-word and remove-word mutation hooks do when the server call settles.
  - `project_search_content.dfy` models `ProjectSearchContent.tsx`: the active term ids, an insertion-ordered set.
  - `update_project.dfy` models the React Query write-back of `useUpdateProjectMutation`.
  - `keyword_search.dfy` models the non-streaming `POST /search/` handler of `search.py`.
- **Shared support:**
  - `wrappers.dfy`: `Option` and JavaScript/Python truthiness.
  - `text.dfy`: strip, lower, split, join and decimal digits.
  - `keywords.dfy`: the client's suggestion records.
  - `js_object.dfy`: insertion-ordered string-keyed objects, with `Object.entries` sorting and filtering.

The system's environment becomes inputs:

- The model's delta stream and the exception it may raise.
- Whether the project lookup found a row.
- The session id `uuid4` would mint.
- The network reply, and the decoded text of each read.
- `JSON.parse`, as a function that gives `None` where it throws.
- The clock, as a `now` parameter.
- Whether a storage write succeeds or hits its quota.
- Whether a collection mutation succeeds, and its error message; these decide only the mutation hook's toast.

The search handler makes one model pass per request: it streams the deltas of a single completion
and offers each finished line as a candidate.

## Model

| member | source | states |
|---|---|---|
| SearchStreaming.ParsePhrases | backend/app/routes/search_streaming.py:50 | every phrase is non-empty, has no surrounding whitespace and contains no `+` |
| SearchStreaming.ChoosePrompt | backend/app/routes/search_streaming.py:57-122 | the match type is `and` exactly when there are at least two phrases and the mode is `"and"`; the single-phrase prompt is used exactly for one phrase; the all-phrases prompt exactly with `and` |
| SearchStreaming.LStripBullets | backend/app/routes/search_streaming.py:156 | `lstrip('-•*')`: the result is no longer than the input and does not start with `-`, `•` or `*` |
| SearchStreaming.LStripBulletsSuffix | backend/app/routes/search_streaming.py:156 | the result is a suffix of the input, and every character cut off in front of it is `-`, `•` or `*` |
| SearchStreaming.Normalize | backend/app/routes/search_streaming.py:156 | a normalised candidate has no surrounding (Python) whitespace |
| SearchStreaming.NormalizeSteps | backend/app/routes/search_streaming.py:156 | `line.strip().lstrip('-•*').strip()`: the stripped line with its whole leading run of bullets cut off (the next character, if any, is not a bullet), stripped again |
| SearchStreaming.AcceptLine | backend/app/routes/search_streaming.py:158-166 | a line whose normalised word is non-empty, at most 100 characters and new up to case adds its lower-cased form to the session's words and counts one more suggestion sent; any other line leaves the tally unchanged |
| SearchStreaming.SessionWords.constructor | backend/app/routes/search_streaming.py:21 | the session table starts empty |
| SearchStreaming.SessionWords.StreamSearchResults | backend/app/routes/search_streaming.py:30-188 | the emitted events and the new session table are those of the reference `Respond`: only `error` for a missing project, otherwise lines taken from the concatenation of the non-`None` deltas, so chunk boundaries do not matter |
| SearchStreaming.SessionWords.OfferLine | backend/app/routes/search_streaming.py:155-170 | one complete line is accepted or dropped as `AcceptLine` says, recording its lower-cased form and emitting `progress` after every tenth |
| SearchStreaming.SessionWords.FeedChunk | backend/app/routes/search_streaming.py:148-155 | after a chunk, the handled lines plus the buffer are the `'\n'`-split of all delivered text, and the state is the line loop over the handled lines |
| SearchStreaming.SessionWords.StreamDeltas | backend/app/routes/search_streaming.py:145-170 | after the chunk loop, the handled lines plus the buffer are the `'\n'`-split of all content deltas, and the events and session set are the line loop over the handled lines |
| SearchStreaming.SessionWords.OfferRemainder | backend/app/routes/search_streaming.py:172-182 | the remainder is offered once, like a line, and never followed by `progress` |
| SearchStreaming.Respond | backend/app/routes/search_streaming.py:125-188 | for a missing project the only event is the project-not-found error and the word table is untouched; otherwise the response starts with `status` carrying the session id (the client's, or the minted one) and the load-more flag, has at least two events, and ends with `error` exactly when the upstream call failed and with `complete` otherwise |
| SearchStreaming.RespondShape | backend/app/routes/search_streaming.py:125-188 | for an existing project, the response starts with `status` (session id, `is_load_more`). It holds only suggestions of the one match type, each non-empty, stripped, at most 100 characters and new to the session case-insensitively, plus `progress(count)` right after every tenth line-loop suggestion. It ends with exactly one `error`, or `complete(total, session, set size)` |
| SearchStreaming.ResponseWords | backend/app/routes/search_streaming.py:158-176 | the words of one response are fresh to the session, and the session's word set grows by exactly their lower-cased forms |
| SearchStreaming.SessionNeverRepeats | backend/app/routes/search_streaming.py:125-131 | across any run of requests sharing a session id, no two suggestions are equal up to case and none repeats an earlier session word; the session set ends as the old set plus exactly the sent words |
| StreamingSearch.FromCache | frontend/src/hooks/search/useStreamingSearch.ts:50-64 | a cache hit gives a complete, non-loading state with those suggestions, `progress` their count, `canLoadMore` exactly when there are at least 80, and no session |
| StreamingSearch.Reduce | frontend/src/hooks/search/useStreamingSearch.ts:132-186 | a message appends `data.data` on `suggestion` and changes no earlier suggestion; the first pass never touches `loadMoreCount`; the load-more reducers keep the gate bounded (open only while at most four load-mores have completed) |
| StreamingSearch.ReduceStatus | frontend/src/hooks/search/useStreamingSearch.ts:133-140 | `status` sets the session id exactly when it is non-empty and (on a load-more, lines 280-287) the hook knew none; nothing else changes |
| StreamingSearch.ReduceSuggestion | frontend/src/hooks/search/useStreamingSearch.ts:142-148 | `suggestion` appends the word; the first pass also clears `isLoading` and sets `isStreaming`, a load-more (lines 290-295) changes nothing else |
| StreamingSearch.ReduceProgress | frontend/src/hooks/search/useStreamingSearch.ts:151-156 | `progress` sets `progress` on the first pass and nothing else; the load-more switch has no such case, so it changes nothing |
| StreamingSearch.ReduceComplete | frontend/src/hooks/search/useStreamingSearch.ts:158-175 | a first-pass `complete` marks the search complete, clears both loading flags and `isStreaming`, sets `progress` to the total and opens the gate exactly when the total is at least 80; suggestions, session, error and load-more count are kept |
| StreamingSearch.ReduceMoreComplete | frontend/src/hooks/search/useStreamingSearch.ts:297-311 | a load-more `complete` counts one more load-more, clears `isLoadingMore`, and opens the gate exactly when the total is at least 50 and fewer than four load-mores had completed; nothing else changes |
| StreamingSearch.ReduceError | frontend/src/hooks/search/useStreamingSearch.ts:178-185 | `error` stores the message and clears `isLoadingMore`, and on the first pass also `isLoading` (the load-more reducer, lines 314-320, keeps it); nothing else changes |
| StreamingSearch.ReduceOther | frontend/src/hooks/search/useStreamingSearch.ts:132-186 | a payload of any other `type` matches no case and changes nothing |
| StreamingSearch.Failed | frontend/src/hooks/search/useStreamingSearch.ts:193-203 | a non-abort failure stores its message, keeps the suggestions, and clears `isLoading` (first pass) or `isLoadingMore` (load-more) |
| StreamingSearch.MoreRequest | frontend/src/hooks/search/useStreamingSearch.ts:229-242 | a load-more request is flagged `is_load_more`; it carries the known session id, or else `exclude_words` with the words of the state it is given (see Left out on the memoised callback) |
| StreamingSearch.ReadStep | frontend/src/hooks/search/useStreamingSearch.ts:121-125 | appending a read to the buffer and splitting keeps "handled lines plus buffer" equal to the split of everything read |
| StreamingSearch.Step | frontend/src/hooks/search/useStreamingSearch.ts:158-175 | one message: only `complete` writes to the result cache, exactly once, and what it writes is the suggestions shown before it; earlier writes are kept |
| StreamingSearch.Feed | frontend/src/hooks/search/useStreamingSearch.ts:113-190 | over the complete lines of the text: suggestions are only appended, a first search leaves the load-more count alone, and every list written to the cache is a prefix of the suggestions shown |
| StreamingSearch.Run | frontend/src/hooks/search/useStreamingSearch.ts:113-203 | one request: suggestions are only appended; a failed request writes nothing and stores its error text; a stream that throws ends with the error text; a stream that ends normally is exactly `Feed` |
| StreamingSearch.Started | frontend/src/hooks/search/useStreamingSearch.ts:37-81 | `startSearch`: a cache hit shows the cached suggestions as complete and writes nothing; a failed request shows no suggestions, writes nothing and has an error |
| StreamingSearch.LoadedMore | frontend/src/hooks/search/useStreamingSearch.ts:207-339 | `loadMore`: the earlier suggestions stay in front; a failed request writes nothing, keeps the suggestions, stops loading more and stores its error text |
| StreamingSearch.StreamingSearchHook.constructor | frontend/src/hooks/search/useStreamingSearch.ts:20-34 | the hook starts idle with no controller |
| StreamingSearch.StreamingSearchHook.Dispatch | frontend/src/hooks/search/useStreamingSearch.ts:127-190 | a line is reduced only when it starts with `data: ` and its payload parses; otherwise nothing changes |
| StreamingSearch.StreamingSearchHook.DispatchAll | frontend/src/hooks/search/useStreamingSearch.ts:127-191 | the inner loop equals folding the lines in order |
| StreamingSearch.StreamingSearchHook.ReadChunk | frontend/src/hooks/search/useStreamingSearch.ts:116-126 | one iteration handles the newly completed lines and keeps the text after the last `'\n'` |
| StreamingSearch.StreamingSearchHook.ReadStream | frontend/src/hooks/search/useStreamingSearch.ts:113-192 | the read loop equals the reference `Feed` over the concatenated reads: exactly the `'\n'`-terminated lines, in order |
| StreamingSearch.StreamingSearchHook.StartSearch | frontend/src/hooks/search/useStreamingSearch.ts:37-205 | no request on a cache hit; otherwise the reset state, one request, and the reference fold `Started` |
| StreamingSearch.StreamingSearchHook.LoadMore | frontend/src/hooks/search/useStreamingSearch.ts:207-339 | nothing happens unless the gate admits; otherwise the request is `MoreRequest` and the result is the reference fold `LoadedMore` |
| StreamingSearch.StreamingSearchHook.CancelSearch | frontend/src/hooks/search/useStreamingSearch.ts:341-350 | with a controller both loading flags are cleared and nothing else changes |
| StreamingSearch.OnLinesKeeps | frontend/src/hooks/search/useStreamingSearch.ts:142-175 | over any lines, suggestions only grow at the end, the first pass keeps `loadMoreCount`, the gate stays bounded, and every list written to the cache is a prefix of what is shown |
| StreamingSearch.RunKeeps | frontend/src/hooks/search/useStreamingSearch.ts:193-203 | a whole request, including its failure path, keeps those same facts |
| StreamingSearch.StartedBounded | frontend/src/hooks/search/useStreamingSearch.ts:52-81 | after `startSearch` no load-more has happened and the gate is bounded |
| StreamingSearch.LoadedMoreKeeps | frontend/src/hooks/search/useStreamingSearch.ts:305-310 | an admitted load-more keeps the gate bounded, so it is shut after the fifth completed load-more, and keeps earlier suggestions in front |
| StreamingSearch.ReplaySuggestions | frontend/src/hooks/search/useStreamingSearch.ts:142-148 | replaying messages appends exactly their suggestions, in order |
| StreamingSearch.UnterminatedIgnored | frontend/src/hooks/search/useStreamingSearch.ts:116-125 | a final line without `'\n'` is never handled |
| StreamingSearch.StreamReplaysEvents | frontend/src/hooks/search/useStreamingSearch.ts:116-130 | however the server's `data:` frames are cut into reads, the client folds exactly the server's events in order |
| StreamingSearch.StreamShowsServerWords | frontend/src/hooks/search/useStreamingSearch.ts:142-148 | a streamed first search shows exactly the server's suggested words in order, each without a match type |
| SearchBar.ParseSearchValue | frontend/src/components/common/SearchBar.tsx:25 | an empty query shows one empty phrase; otherwise every phrase is non-empty, stripped and free of `+` |
| SearchBar.Sanitize | frontend/src/components/common/SearchBar.tsx:63-66 | empty exactly when the input is, and starts with whitespace exactly when the input does |
| SearchBar.SanitizeKeepsLetters | frontend/src/components/common/SearchBar.tsx:65 | the non-whitespace characters are kept, all of them and in order: only whitespace is replaced |
| SearchBar.SanitizeRun | frontend/src/components/common/SearchBar.tsx:65 | a leading maximal run of two or more whitespace characters becomes exactly one space `" "`, and the rest is sanitised on its own |
| SearchBar.SanitizeLetter | frontend/src/components/common/SearchBar.tsx:65 | a leading non-whitespace character is kept, and the rest is sanitised on its own |
| SearchBar.SanitizeSingleSpace | frontend/src/components/common/SearchBar.tsx:65 | a leading single whitespace character (followed by non-whitespace or the end) is kept as it is, and the rest is sanitised on its own; with `SanitizeLetter` and `SanitizeRun` this covers every way a non-empty phrase can start, so the three equations fix the result on every input |
| SearchBar.SanitizeNoDoubleSpace | frontend/src/components/common/SearchBar.tsx:65 | the result has no two adjacent whitespace characters |
| SearchBar.SanitizeKeeps | frontend/src/components/common/SearchBar.tsx:65 | a phrase without adjacent whitespace is unchanged |
| SearchBar.SanitizeIdempotent | frontend/src/components/common/SearchBar.tsx:63-66 | sanitising twice equals sanitising once |
| SearchBar.Tokens | frontend/src/components/common/SearchBar.tsx:85 | `trim().split(/\s+/).filter(Boolean)`: the words are non-empty and contain no whitespace |
| SearchBar.TokensNone | frontend/src/components/common/SearchBar.tsx:85 | there are no words exactly when the phrase is all whitespace |
| SearchBar.TokensSpacePrefix | frontend/src/components/common/SearchBar.tsx:85 | leading whitespace does not change the words |
| SearchBar.TokensWord | frontend/src/components/common/SearchBar.tsx:85 | a maximal run of non-whitespace characters is one word, followed by the words of the rest: together with the two rows above this fixes the words completely |
| SearchBar.EditAllowed | frontend/src/components/common/SearchBar.tsx:84-95 | an accepted edit has at most three words, and every edit with fewer than three words is accepted |
| SearchBar.PhraseEditor.constructor | frontend/src/components/common/SearchBar.tsx:25-26 | the initial phrases are the parsed query |
| SearchBar.PhraseEditor.QueryChanged | frontend/src/components/common/SearchBar.tsx:39-42 | a new query replaces the phrases by its parse |
| SearchBar.PhraseEditor.Clear | frontend/src/components/common/SearchBar.tsx:31-33 | one empty phrase |
| SearchBar.PhraseEditor.AddPhrase | frontend/src/components/common/SearchBar.tsx:68-72 | appends an empty phrase only below three, so the count never exceeds three |
| SearchBar.PhraseEditor.ChangePhrase | frontend/src/components/common/SearchBar.tsx:80-100 | the state is unchanged for more than three words, or for three words and a trailing space; otherwise only entry `index` changes, to the sanitised text |
| SearchBar.PhraseEditor.RemovePhrase | frontend/src/components/common/SearchBar.tsx:102-107 | entry `index` is dropped only when there are two or more, so the count never falls below one |
| SearchBar.NonBlank | frontend/src/components/common/SearchBar.tsx:110 | kept phrases are input phrases that are not blank; the result is empty exactly when all are blank |
| SearchBar.OnSearch | frontend/src/components/common/SearchBar.tsx:109-133 | rejected with the empty-query toast exactly when no phrase is non-blank; otherwise it navigates within the project exactly when the project id is non-empty, and else creates a project named `Untitled Project…`; navigation carries the non-blank phrases joined by `" + "` and the created project's id; creation fails, with its toast, exactly when there are phrases, no project and no created id; while the existing numbers are below 2^53 − 1 the new name is fresh |
| SearchBar.QueryRoundTrip | frontend/src/components/common/SearchBar.tsx:117 | re-parsing the joined query gives the non-blank phrases trimmed, when none contains `+` |
| SearchBar.GenerateProjectName | frontend/src/components/common/SearchBar.tsx:44-59 | the name starts with `Untitled Project` |
| SearchBar.TrailingNumber | frontend/src/components/common/SearchBar.tsx:53-54 | a non-zero number comes from a name of at least three characters ending in `)` |
| SearchBar.MaxNumber | frontend/src/components/common/SearchBar.tsx:52-56 | a non-zero maximum is the trailing number of some name that starts with `Untitled Project` |
| SearchBar.MaxNumberBound | frontend/src/components/common/SearchBar.tsx:52-56 | every prefixed name's trailing number is at most the maximum used |
| SearchBar.NumberedNameNumber | frontend/src/components/common/SearchBar.tsx:53-58 | the generated `Untitled Project (n)` reads back its own number, for every `n` up to `Number.MAX_SAFE_INTEGER` |
| SearchBar.MaxNumberExact | frontend/src/components/common/SearchBar.tsx:56 | when every trailing number is below `Number.MAX_SAFE_INTEGER`, so is their maximum, so adding one is exact |
| SearchBar.GeneratedNameIsFresh | frontend/src/components/common/SearchBar.tsx:44-59 | when every trailing number is below `Number.MAX_SAFE_INTEGER`, the generated name differs from every existing name |
| JsObject.Get | frontend/src/hooks/search/useSearchHybridCache.ts:126 | a found value is stored under the key; `None` means no entry has the key |
| JsObject.Put | frontend/src/hooks/search/useSearchHybridCache.ts:165-169 | assignment adds at most one entry |
| JsObject.PutGet | frontend/src/hooks/search/useSearchHybridCache.ts:165-169 | after assignment the key reads back the new value and every other key reads as before |
| JsObject.Delete | frontend/src/hooks/search/useSearchHybridCache.ts:259 | no entry has the key afterwards, and the others are a sub-multiset of the input |
| JsObject.DeleteGet | frontend/src/hooks/search/useSearchHybridCache.ts:259 | after `delete` the key misses and every other key reads as before |
| JsObject.Filter | frontend/src/hooks/search/useSearchHybridCache.ts:208-212 | the kept entries all pass the test and are a sub-multiset of the input |
| JsObject.FilterHas | frontend/src/hooks/search/useSearchHybridCache.ts:208-212 | an entry is kept exactly when it is present and passes the test |
| JsObject.Collect | frontend/src/hooks/search/useSearchHybridCache.ts:206-212 | the `forEach` loop copying the passing entries equals `Filter` |
| JsObject.SortBy | frontend/src/hooks/search/useSearchHybridCache.ts:67 | the sort is a permutation |
| JsObject.SortBySorted | frontend/src/hooks/search/useSearchHybridCache.ts:67 | the sort orders by timestamp |
| HybridCache.Cleanup | frontend/src/hooks/search/useSearchHybridCache.ts:63-75 | keeps `min(n, keepCount)` entries (all of them for `keepCount` 0) |
| HybridCache.QueryKey | frontend/src/hooks/search/useSearchHybridCache.ts:23-25 | `['search', projectId, query, searchMode]`: the React Query key starts with `search` and the project id, then the query and the mode |
| HybridCache.SessionKey | frontend/src/hooks/search/useSearchHybridCache.ts:27-29 | `${projectId}-${query}-${searchMode}`: the three parts and two dashes, starting with the project id and `-` |
| HybridCache.Saved | frontend/src/hooks/search/useSearchHybridCache.ts:77-106 | what `sessionStorage` holds after `setSessionCache`: the cache capped at 500 entries when accepted, at most 125 entries after a quota retry, nothing when even that fails, and the old contents on any other error |
| HybridCache.OtherProjects | frontend/src/hooks/search/useSearchHybridCache.ts:205-214 | the kept entries are drawn from the stored ones, and none has the project id in its query key |
| HybridCache.CleanupKeepsNewest | frontend/src/hooks/search/useSearchHybridCache.ts:63-75 | kept entries come from the cache, and no dropped entry is newer than a kept one |
| HybridCache.Lookup | frontend/src/hooks/search/useSearchHybridCache.ts:108-144 | the memory layer answers first; on a miss there is a result exactly when the session object has the key, and it is that entry's data |
| HybridCache.DropPrefix | frontend/src/hooks/search/useSearchHybridCache.ts:182-185 | exactly the keys starting with the prefix are removed, and the others keep their values |
| HybridCache.Stores.constructor | frontend/src/hooks/search/useSearchHybridCache.ts:36-44 | both layers start empty |
| HybridCache.Stores.SetSessionCache | frontend/src/hooks/search/useSearchHybridCache.ts:77-106 | the stored object becomes `Saved`: capped at 500, the newest 125 on a quota retry, nothing if the retry fails, unchanged on another error |
| HybridCache.Stores.GetCachedResult | frontend/src/hooks/search/useSearchHybridCache.ts:108-144 | the result is `Lookup`, and a session hit is copied into memory |
| HybridCache.Stores.SetCachedResult | frontend/src/hooks/search/useSearchHybridCache.ts:146-178 | both layers get the data under the matching keys; the following lookup returns it |
| HybridCache.Stores.ClearCache | frontend/src/hooks/search/useSearchHybridCache.ts:180-194 | every `search` key leaves memory, and the session object is removed |
| HybridCache.Stores.ClearProjectCache | frontend/src/hooks/search/useSearchHybridCache.ts:196-219 | memory loses the project's prefix; the session keeps the entries whose query key does not mention the project |
| HybridCache.Stores.ClearSearchCache | frontend/src/hooks/search/useSearchHybridCache.ts:250-265 | memory and session each lose one key |
| HybridCache.SessionKeyInjective | frontend/src/hooks/search/useSearchHybridCache.ts:27-29 | for project ids of one length and the two modes, equal session keys mean equal searches |
| HybridCache.SavedBound | frontend/src/hooks/search/useSearchHybridCache.ts:80-101 | the persisted object never exceeds 500 entries, at most 125 after a quota retry, none when the retry fails, unchanged on another error |
| HybridCache.SavedAccepted | frontend/src/hooks/search/useSearchHybridCache.ts:80-86 | an object of at most 500 entries is persisted as it is |
| HybridCache.SetThenReload | frontend/src/hooks/search/useSearchHybridCache.ts:146-178 | when the storage takes the write, the new entry is persisted and a reload (empty memory) finds the search |
| HybridCache.NewestSaved | frontend/src/hooks/search/useSearchHybridCache.ts:80-97 | the strictly newest entry survives every trimming |
| HybridCache.NewestKept | frontend/src/hooks/search/useSearchHybridCache.ts:63-75 | the strictly newest entry survives `cleanupOldestEntries` for any positive count |
| HybridCache.ClearProjectKeepsOthers | frontend/src/hooks/search/useSearchHybridCache.ts:205-214 | an entry stays exactly when it was present and its query key does not contain the project id in any position |
| HybridCache.ClearSearchRemovesOne | frontend/src/hooks/search/useSearchHybridCache.ts:250-260 | the removed key misses afterwards and every other key reads as before |
| OptimizedCache.Prefix | frontend/src/hooks/search/useSearchOptimizedCache.ts:33 | `slice(0, n)`: a prefix of the input, of length `n` when the input is longer and the whole input otherwise |
| OptimizedCache.Base64 | frontend/src/hooks/search/useSearchOptimizedCache.ts:33 | `btoa`: every three characters, and a final group of one or two, become four digits, so the length is `4 * ceil(n / 3)` |
| OptimizedCache.CacheKey | frontend/src/hooks/search/useSearchOptimizedCache.ts:31-34 | a key exists exactly when `btoa` accepts the query (all characters below 256); it starts with the first 8 characters of the project id and `-`, ends with `-` and the mode, and is at most 26 characters longer than the mode |
| OptimizedCache.Compress | frontend/src/hooks/search/useSearchOptimizedCache.ts:23-25 | decompressing what was compressed gives back the suggestions |
| OptimizedCache.Decompress | frontend/src/hooks/search/useSearchOptimizedCache.ts:27-29 | the response holds exactly the stored suggestions and no search id |
| OptimizedCache.Expired | frontend/src/hooks/search/useSearchOptimizedCache.ts:45-47 | an entry is expired only after its timestamp, and never within two hours of it |
| OptimizedCache.AfterSet | frontend/src/hooks/search/useSearchOptimizedCache.ts:98-139 | a query `btoa` rejects or a write that fails otherwise leaves the stored cache as it was; a quota error clears it; a stored write keeps at most 50 entries, and at most 25 when the serialised cache is over the size limit |
| OptimizedCache.Newest | frontend/src/hooks/search/useSearchOptimizedCache.ts:71-72 | at most `n` entries and no more than the input |
| OptimizedCache.Lookup | frontend/src/hooks/search/useSearchOptimizedCache.ts:77-96 | a hit comes from an unexpired entry whose own project, query and mode equal the request (the corrected lookup) |
| OptimizedCache.Store.constructor | frontend/src/hooks/search/useSearchOptimizedCache.ts:49-57 | the cache starts empty |
| OptimizedCache.LookupAsWritten | frontend/src/hooks/search/useSearchOptimizedCache.ts:77-96 | as written: a hit exactly when `btoa` accepts the query and an unexpired entry sits under the key, whatever query it was stored for; the hit is that entry decompressed |
| OptimizedCache.Store.GetCachedResult | frontend/src/hooks/search/useSearchOptimizedCache.ts:77-96 | as written: the result is `LookupAsWritten` of the stored cache and the clock |
| OptimizedCache.LookupAgrees | frontend/src/hooks/search/useSearchOptimizedCache.ts:77-96 | a hit of the corrected lookup is also what the code returns; the two differ only when the code returns an entry stored under the same key for another project, query or mode |
| OptimizedCache.Store.SetCachedResult | frontend/src/hooks/search/useSearchOptimizedCache.ts:98-139 | the stored object becomes `AfterSet`: entry added, clean-up, 25-entry cut when oversize, cleared on a quota error, unchanged on another error |
| OptimizedCache.Store.ClearCache | frontend/src/hooks/search/useSearchOptimizedCache.ts:141-147 | the cache is removed |
| OptimizedCache.Store.ClearProjectCache | frontend/src/hooks/search/useSearchOptimizedCache.ts:149-164 | the entries of other projects are kept; nothing changes if the write fails |
| OptimizedCache.CleanupCache | frontend/src/hooks/search/useSearchOptimizedCache.ts:59-75 | the collecting loop, sort and cut equal `Cleanup` |
| OptimizedCache.CompressRoundTrip | frontend/src/hooks/search/useSearchOptimizedCache.ts:23-29 | decompress after compress keeps the suggestions and equals the input exactly when it carries no search id |
| OptimizedCache.NewestKeepsNewest | frontend/src/hooks/search/useSearchOptimizedCache.ts:71-72 | kept entries come from the input, all of them when they fit, and none dropped is newer than one kept |
| OptimizedCache.CleanupKeepsNewestValid | frontend/src/hooks/search/useSearchOptimizedCache.ts:59-75 | at most 50 entries, all unexpired and from the input, the newest of the valid ones, and all valid ones when they fit |
| OptimizedCache.AfterSetBound | frontend/src/hooks/search/useSearchOptimizedCache.ts:118-130 | after a write at most 50 entries, at most 25 when oversize |
| OptimizedCache.QuotaClears | frontend/src/hooks/search/useSearchOptimizedCache.ts:132-135 | a quota error leaves an empty cache that misses everything |
| OptimizedCache.ClearProjectKeepsOthers | frontend/src/hooks/search/useSearchOptimizedCache.ts:154-158 | an entry stays exactly when it was present and its `p` is another project |
| OptimizedCache.NewestFirst | frontend/src/hooks/search/useSearchOptimizedCache.ts:71 | a strictly newest entry comes first in every cut |
| OptimizedCache.SetThenGet | frontend/src/hooks/search/useSearchOptimizedCache.ts:98-130 | a stored write is read back, as `{ suggestions }`, by the corrected lookup |
| OptimizedCache.Base64Append | frontend/src/hooks/search/useSearchOptimizedCache.ts:33 | `btoa` of whole 3-character groups concatenates, four characters per group |
| OptimizedCache.KeyIgnoresQueryTail | frontend/src/hooks/search/useSearchOptimizedCache.ts:33 | queries agreeing on their first 12 characters get the same key |
| OptimizedCache.LookupAsWrittenCollides | frontend/src/hooks/search/useSearchOptimizedCache.ts:84-91 | as written, a search for "running shoes for adults" returns the results stored for "running shoes for kids" |
| ResultsCache.Lookup | frontend/src/hooks/search/useSearchResultsCache.ts:38-50 | null for an empty project or query; otherwise a hit exactly when the key is present and not older than five minutes |
| ResultsCache.CacheKey | frontend/src/hooks/search/useSearchResultsCache.ts:20-22 | `${projectId}-${query}-${searchMode}`: the three parts and two dashes, starting with the project id and `-` |
| ResultsCache.Expired | frontend/src/hooks/search/useSearchResultsCache.ts:34-36 | an entry is expired only after its timestamp, and never within five minutes of it |
| ResultsCache.Swept | frontend/src/hooks/search/useSearchResultsCache.ts:70-75 | exactly the unexpired entries remain, each with its value unchanged |
| ResultsCache.Sweep | frontend/src/hooks/search/useSearchResultsCache.ts:70-75 | the deleting loop leaves exactly the unexpired entries, unchanged |
| ResultsCache.Store.constructor | frontend/src/hooks/search/useSearchResultsCache.ts:24-32 | the cache starts empty |
| ResultsCache.Store.GetCachedResult | frontend/src/hooks/search/useSearchResultsCache.ts:38-50 | the result is `Lookup` |
| ResultsCache.Store.SetCachedResult | frontend/src/hooks/search/useSearchResultsCache.ts:52-81 | the stored object is the old one with the entry set and swept, or unchanged when the write throws |
| ResultsCache.Store.ClearCache | frontend/src/hooks/search/useSearchResultsCache.ts:83-89 | the cache is removed |
| ResultsCache.SetThenGet | frontend/src/hooks/search/useSearchResultsCache.ts:59-69 | a write at `now` is read back at `now` for a non-empty project and query |
| ResultsCache.SweptKeepsFresh | frontend/src/hooks/search/useSearchResultsCache.ts:70-75 | after a write no expired entry remains, other unexpired entries are unchanged, and the new entry is present |
| ResultsCache.ClearedMisses | frontend/src/hooks/search/useSearchResultsCache.ts:83-89 | after clearing every lookup misses |
| CollectionSearchCache.LastSearch | frontend/src/hooks/collections/useCollectionSearchCache.ts:20-23 | a result exactly when the id is stored with a non-empty query, and it is that query |
| CollectionSearchCache.Store.constructor | frontend/src/hooks/collections/useCollectionSearchCache.ts:10-18 | the cache starts empty |
| CollectionSearchCache.Store.GetLastSearch | frontend/src/hooks/collections/useCollectionSearchCache.ts:20-23 | the result is `LastSearch` |
| CollectionSearchCache.Store.SetLastSearch | frontend/src/hooks/collections/useCollectionSearchCache.ts:25-33 | the id reads back the query (null when empty) and other ids are unchanged |
| CollectionSearchCache.Store.RemoveCollectionCache | frontend/src/hooks/collections/useCollectionSearchCache.ts:43-51 | the id reads null and other ids are unchanged |
| CollectionSearchCache.Store.ClearCache | frontend/src/hooks/collections/useCollectionSearchCache.ts:35-41 | every id reads null |
| CollectionSearchCache.SetThenGet | frontend/src/hooks/collections/useCollectionSearchCache.ts:20-29 | set then get returns the query, or null for an empty one, and other ids read as before |
| RateLimit.GetKey | backend/app/core/rate_limit.py:29-42 | the key is `prefix:` followed by the user id when there is one, by the first `X-Forwarded-For` entry when there is only that, and by the client host otherwise |
| RateLimit.Window | backend/app/core/rate_limit.py:52-53 | `zremrangebyscore(key, 0, now - seconds)`: the kept scores are the stored ones minus those in `[0, now - seconds]`; every score newer than the window start stays |
| RateLimit.Check | backend/app/core/rate_limit.py:44-67 | the request is refused exactly when more than `times` earlier requests are still in the window, and it is recorded either way |
| RateLimit.RetryAfter | backend/app/core/rate_limit.py:69-71 | the retry-after is the window length in seconds |
| RateLimit.ForwardedKey | backend/app/core/rate_limit.py:37-42 | without a user id the key is `prefix:` and the text before the first comma of `X-Forwarded-For`, untrimmed, so it contains no comma |
| RateLimit.Store.constructor | backend/app/core/rate_limit.py:11-16 | no key has any recorded request |
| RateLimit.Store.IsRateLimited | backend/app/core/rate_limit.py:44-67 | limited exactly when the retained earlier times outnumber `times`; the key's set becomes the retained times plus `now`, and no other key changes |
| RateLimit.Store.Middleware | backend/app/core/rate_limit.py:80-102 | with no limiter the default one (100 per 60 s) applies; a limited request gets 429 "Too many requests" with `retry_after` the window, any other is forwarded |
| RateLimit.Replay | backend/app/core/rate_limit.py:44-67 | one outcome per request |
| RateLimit.BurstOutcomes | backend/app/core/rate_limit.py:52-67 | inside one window, with `m` times already recorded, request `i` of a burst is refused exactly when `m + i` exceeds the limit |
| RateLimit.BurstAllowance | backend/app/core/rate_limit.py:65-67 | from a quiet key, exactly the first `times + 1` requests of a burst pass |
| RateLimit.OldRequestsForgotten | backend/app/core/rate_limit.py:52-56 | times that left the window no longer count |
| LoadMore.SearchWithLoadMore.constructor | frontend/src/hooks/search/useSearchWithLoadMore.ts:12-14 | no results, not loading, count 0 |
| LoadMore.SearchWithLoadMore.CanLoadMore | frontend/src/hooks/search/useSearchWithLoadMore.ts:69 | `loadMoreCount < 5`: open before any load-more, closed once five have loaded |
| LoadMore.SearchWithLoadMore.ParametersChanged | frontend/src/hooks/search/useSearchWithLoadMore.ts:20-24 | results, count and loading flag reset |
| LoadMore.SearchWithLoadMore.InitialDataArrived | frontend/src/hooks/search/useSearchWithLoadMore.ts:27-31 | present initial data replaces the results; nothing else changes |
| LoadMore.SearchWithLoadMore.LoadMore | frontend/src/hooks/search/useSearchWithLoadMore.ts:33-60 | no effect for an empty project or query or while loading; success appends the page and counts it; failure keeps both, toasts `Failed to load more results` and rethrows; not loading afterwards either way |
| SearchContent.Group | frontend/src/pages/Projects/Search/SearchContent.tsx:56-63 | a group holds only results of its kind (missing counted as `or`) and is never longer than the results |
| SearchContent.KindOf | frontend/src/pages/Projects/Search/SearchContent.tsx:57 | `result.matchType ?? 'or'`: the match type when present, `or` otherwise |
| SearchContent.GroupResults | frontend/src/pages/Projects/Search/SearchContent.tsx:56-63 | the `reduce` loop builds exactly the two groups |
| SearchContent.GroupsPartition | frontend/src/pages/Projects/Search/SearchContent.tsx:56-63 | the two groups together are the results, as multisets |
| SearchContent.GroupMembership | frontend/src/pages/Projects/Search/SearchContent.tsx:57 | a result is in the group of its kind, with a missing type counted as `or`, and in no other |
| SearchContent.GroupAppend | frontend/src/pages/Projects/Search/SearchContent.tsx:61 | grouping distributes over concatenation, so each group keeps input order |
| SearchContent.GroupOfOneKind | frontend/src/pages/Projects/Search/SearchContent.tsx:56-63 | results all of one kind form that group unchanged |
| SearchContent.GroupPresent | frontend/src/pages/Projects/Search/SearchContent.tsx:58-60 | a group exists exactly when some result has its kind |
| SearchContent.MultipleIffBothKinds | frontend/src/pages/Projects/Search/SearchContent.tsx:66 | the headings show exactly when both an `and` and an `or` result exist |
| SearchContent.HasMultipleMatchTypes | frontend/src/pages/Projects/Search/SearchContent.tsx:66 | more than one group exactly when both the `and` and the `or` group are non-empty |
| SearchContent.TermId | frontend/src/pages/Projects/Search/SearchContent.tsx:84 | `${result.word}-${kind}-${index}`: starts with the word and `-`, and is at least four characters longer |
| SearchContent.WordOf | frontend/src/pages/Projects/Search/SearchContent.tsx:21 | `termId.split('-')[0]`: the longest prefix without `-`; it ends just before the first `-`, or is the whole id when there is none |
| SearchContent.TermIdsDistinct | frontend/src/pages/Projects/Search/SearchContent.tsx:84 | ids at different indices of a group differ whatever the words |
| SearchContent.WordRecovered | frontend/src/pages/Projects/Search/SearchContent.tsx:21 | the handler gets back the shown word exactly when it contains no `-` |
| SearchContent.TargetCollection | frontend/src/pages/Projects/Search/SearchContent.tsx:24 | the selection when non-empty, else the first collection's id when present and non-empty, else none |
| SearchContent.Page.constructor | frontend/src/pages/Projects/Search/SearchContent.tsx:16 | nothing selected |
| SearchContent.Page.SelectCollection | frontend/src/pages/Projects/Search/SearchContent.tsx:135 | the sidebar's choice becomes the selection |
| SearchContent.Page.OnSelectWord | frontend/src/pages/Projects/Search/SearchContent.tsx:20-38 | without a target only the toast; otherwise the recovered word is requested for the target and, when nothing was selected, the target becomes the selection whatever the add's fate, so the next word goes to the same collection |
| SearchContent.Page.OnUnselectWord | frontend/src/pages/Projects/Search/SearchContent.tsx:40-53 | without a target only the toast; otherwise the recovered word's removal is requested from the target; the selection never changes |
| CollectionMutations.Settle | frontend/src/hooks/collections/useAddWordToCollectionMutation.ts:11-20 | a resolved add toasts success and invalidates the collection and the collections list; a rejected one toasts its message, or `Failed to save word` when the message is empty, and invalidates nothing; the toast is never empty. `useRemoveWordFromCollectionMutation.ts` lines 11-20 are the same with `Word removed successfully` and `Failed to remove word` |
| ProjectSearchContent.Added | frontend/src/pages/Projects/ProjectSearch/ProjectSearchContent.tsx:14-20 | the id becomes a member and the others stay; no duplicates arise |
| ProjectSearchContent.Where | frontend/src/pages/Projects/ProjectSearch/ProjectSearchContent.tsx:34-36 | an id is kept exactly when it is present and passes the test; never longer; no duplicates arise |
| ProjectSearchContent.Deleted | frontend/src/pages/Projects/ProjectSearch/ProjectSearchContent.tsx:22-28 | the id stops being a member and the others stay |
| ProjectSearchContent.Clicked | frontend/src/pages/Projects/ProjectSearch/ProjectSearchContent.tsx:50-52 | a click toggles exactly the clicked id: it is active afterwards exactly when it was not, every other id keeps its state, and no id appears twice |
| ProjectSearchContent.TermId | frontend/src/pages/Projects/ProjectSearch/ProjectSearchContent.tsx:45 | `${result.word}-${index}`: starts with the word and `-` |
| ProjectSearchContent.ActiveWords | frontend/src/pages/Projects/ProjectSearch/ProjectSearchContent.tsx:30 | one word per active id, the text before its first `-` |
| ProjectSearchContent.WithoutWord | frontend/src/pages/Projects/ProjectSearch/ProjectSearchContent.tsx:32-39 | exactly the ids whose word is `w` are removed |
| ProjectSearchContent.Page.constructor | frontend/src/pages/Projects/ProjectSearch/ProjectSearchContent.tsx:12 | no active id |
| ProjectSearchContent.Page.SelectWord | frontend/src/pages/Projects/ProjectSearch/ProjectSearchContent.tsx:14-20 | the ids become `Added`, still without duplicates |
| ProjectSearchContent.Page.UnselectWord | frontend/src/pages/Projects/ProjectSearch/ProjectSearchContent.tsx:22-28 | the ids become `Deleted` |
| ProjectSearchContent.Page.Click | frontend/src/pages/Projects/ProjectSearch/ProjectSearchContent.tsx:50-52 | a click flips whether the id is active |
| ProjectSearchContent.Page.RemoveWord | frontend/src/pages/Projects/ProjectSearch/ProjectSearchContent.tsx:32-39 | the word no longer appears among the active words |
| ProjectSearchContent.ClickTwiceInactive | frontend/src/pages/Projects/ProjectSearch/ProjectSearchContent.tsx:50-52 | two clicks on an inactive button restore the ids exactly |
| ProjectSearchContent.ClickTwiceActive | frontend/src/pages/Projects/ProjectSearch/ProjectSearchContent.tsx:50-52 | two clicks on an active button restore the set of ids but move the id to the end |
| ProjectSearchContent.TermIdsDistinct | frontend/src/pages/Projects/ProjectSearch/ProjectSearchContent.tsx:45 | ids of different buttons differ whatever the words |
| ProjectSearchContent.ActiveWordShown | frontend/src/pages/Projects/ProjectSearch/ProjectSearchContent.tsx:30 | the sidebar shows the button's word exactly when it contains no `-` |
| UpdateProject.ReplaceById | frontend/src/hooks/projects/useUpdateProjectMutation.ts:19-21 | same length and order; entries with the id are replaced and the others unchanged |
| UpdateProject.UpdatedList | frontend/src/hooks/projects/useUpdateProjectMutation.ts:17-22 | an absent list becomes `[updatedProject]`; a present one keeps its length and order, with every project of the updated id replaced and the others unchanged |
| UpdateProject.QueryCache.constructor | frontend/src/hooks/projects/useUpdateProjectMutation.ts:7 | both cache entries start absent |
| UpdateProject.QueryCache.OnSuccess | frontend/src/hooks/projects/useUpdateProjectMutation.ts:12-22 | the single-project entry becomes the update; an absent list becomes `[updated]`, otherwise it is replaced by id |
| UpdateProject.AbsentUnchanged | frontend/src/hooks/projects/useUpdateProjectMutation.ts:19-21 | with no matching entry the list is unchanged and nothing is appended |
| UpdateProject.EchoedIdKeepsUnique | frontend/src/hooks/projects/useUpdateProjectMutation.ts:19-21 | when the update carries the same id, ids stay unique and a matched list holds the update |
| KeywordSearch.Scored | backend/app/routes/search.py:67 | one suggestion per word, each with score 1.0 |
| KeywordSearch.ParseSuggestions | backend/app/routes/search.py:65-70 | every suggestion has score 1.0 and a non-empty, stripped word without a newline |
| KeywordSearch.SearchKeywords | backend/app/routes/search.py:29-75 | 404 "Project not found" exactly when the project is missing; a raised error becomes 500 with its message; a result exactly when the reply has content |
| KeywordSearch.SuggestedWords | backend/app/routes/search.py:65-70 | a word is suggested exactly when it is the non-empty strip of some line of the stripped reply |

## Left out

- The language-model client and the prompt texts are not modelled. Only the choice of prompt kind and match type is modelled, and the delta stream is an input.
- Concurrency is not modelled. This covers the process-wide `session_words` table shared by concurrent requests, async generators, `AbortController` timing, React effects and rendering. Requests are served one at a time, and reducers are applied in order.
- The Supabase project lookups in both handlers are a boolean "project found". Authentication is not part of this model.
- `StreamingSearch.MoreRequest` and `StreamingSearch.StreamingSearchHook.LoadMore` read the latest state. In the source, `loadMore` is a `useCallback` memoised on `[state.sessionId, state.isLoadingMore, state.canLoadMore]` (useStreamingSearch.ts:339), so the `state.suggestions` it reads for `exclude_words` (line 241) can be those of an earlier render. For example, after a cache hit from the initial state none of the three changes, and the source sends `exclude_words: []` where the model sends the cached words. The server ignores the field (see Observations).
- String lengths count Unicode scalar values, not UTF-16 code units: `slice(0, 8)` in `OptimizedCache.Prefix` and `OptimizedCache.CacheKey` differs for ids with characters outside the Basic Multilingual Plane (project ids are UUIDs).
- Lower-casing covers ASCII letters only; there is no Unicode case folding. Whitespace is modelled per runtime (`Text.IsSpace`): Python's `str.isspace` set for the backend, ECMAScript's WhiteSpace and LineTerminator set for the frontend.
- Storage back-ends are abstracted. `localStorage`, `sessionStorage`, `JSON.stringify`/`JSON.parse` and `Blob` sizes become maps and insertion-ordered entry lists. A write's success, quota error or other error is a parameter, and the 4 MB size check is an `oversize` flag.
- Reading stored items that fail to parse (the `catch` returning `{}`) is not modelled.
- `getStorageInfo`, `getCacheStats`, `prefetchSearch` and `invalidateSearch` of the hybrid cache are not modelled. They are diagnostics or React Query calls that do not change the cached data. The same holds for `getCacheStats` and `getStorageSize` of the optimised cache.
- React Query's own garbage collection and staleness are not modelled; its cache is a map from query keys.
- `useSearchIndexedDBCache.ts` is not part of this model.
- Integer-like keys are not ordered first. JavaScript orders such object keys ahead of the others, and the entry lists here keep plain insertion order.
- `RateLimit.Store.IsRateLimited`: Redis key expiry (`expire`) and float wall-clock time are not modelled; times are integers. With time moving forward, expiry removes only times the window would drop anyway.
- Duplicate times are not modelled separately. A sorted-set member is the time's string, so two requests at the same instant are recorded once; the model's set of times behaves the same.
- `StreamingSearch`: `TextDecoder` is the identity on already-decoded reads; the network reply is an input.
- `SearchBar.GenerateProjectName`, `SearchBar.NumberedNameNumber`, `SearchBar.GeneratedNameIsFresh` and `SearchBar.OnSearch` compute on exact integers. JavaScript's `parseInt` and `maxNumber + 1` compute on doubles, which are exact only up to `Number.MAX_SAFE_INTEGER` (2^53 − 1). Freshness is therefore promised only while every existing trailing number is below that bound. Past it, `+ 1` can round back to the maximum; for example, an existing `Untitled Project (9007199254740992)` would be generated again.
- The URL encoding and navigation in `onSearch` are not modelled. Navigation is an outcome value.
- The collection mutations' server calls are not modelled; how each settles is a parameter of `CollectionMutations.Settle`.
- `LoadMore.SearchWithLoadMore.LoadMore`: the `exclude_words` passed to the search API is not modelled, and neither is the fewer-than-10 log line.
- `KeywordSearch.SearchKeywords`: the request's query reaches only the prompt and is not modelled.
- The shapes of HTTP responses are not modelled. Only status, detail and the suggestion list are kept.

Observations about the code that the model reproduces as written:

- The server sends `match_type`, but the client reads `matchType`. A streamed suggestion therefore has no match type, and `SearchContent` puts it in the `or` group.
- The client sends `exclude_words` on a load-more without a session. The server's request model has no such field and ignores it.
- Every entry of `RATE_LIMITS` uses the prefix `rate_limit`, so the default, search and bulk limiters count into the same per-user set.
- `useSearchWithLoadMore.loadMore` does not consult `canLoadMore`.
- The limiter compares the count of earlier requests with `>`, so `times + 1` requests pass in a window (`RateLimit.BurstAllowance`): 101, 21 and 11 for the `default`, `search` and `bulk` limiters. The comments at `rate_limit.py` lines 21 and 75-77 speak of 100, 20 and 10.
- The hybrid cache's memory layer clears a project by key prefix. Its session layer drops entries whose query key mentions the project id in any position.
- The `catch` blocks of `onSelectWord` and `onUnselectWord` in `SearchContent.tsx` cannot run: the mutation functions return without awaiting the request and never throw. Their toasts `Failed to add word to collection` and `Failed to remove word from collection` are never shown; a failure shows the hook's toast instead.
- `OptimizedCache.Store.GetCachedResult` reads the cache as the code does (`LookupAsWritten`), so it shows the key collision listed under Findings. `OptimizedCache.Lookup` is the corrected reading that also checks the entry's own `p`, `q` and `m`; `OptimizedCache.LookupAgrees` relates the two.
- `cleanupOldestEntries(cache, 0)` keeps everything, because `slice(-0)` is the whole array. No caller passes 0.

## Findings

| source | as written | input that shows it | evidently intended | confidence | as-written member | corrected member |
|---|---|---|---|---|---|---|
| frontend/src/hooks/search/useSearchOptimizedCache.ts:33 | the key keeps only `btoa(query).slice(0, 16)`, the encoding of the first 12 characters, and `getCachedResult` (lines 84-91) returns whatever entry sits under the key | store results for "running shoes for kids", then look up "running shoes for adults" in the same project and mode: the stored results come back | a lookup returns only results stored for the same project, query and mode (the entry's own `p`, `q`, `m` are stored for this) | not executed | OptimizedCache.LookupAsWrittenCollides | OptimizedCache.SetThenGet |
