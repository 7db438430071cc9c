# LocalReason chat front end and chat endpoints, modelled in Dafny

LocalReason is a local chat application. The user types a prompt, picks a strategy
("Plain", "Pipeline", "RAG", "RAG-2") and may select stored *libraries* (named
documentation texts) to ground the answer. This project models:

- the React provider `LibraryProvider` (`LibraryContext.tsx`). It holds the snapshot of
  library records and the selected ids. It fetches, adds, updates, deletes and reads
  single records over REST, and `useLibrary` returns it. Here it is a `class` with the two
  state fields. Each operation is a method tied to a pure step function over a `Store`
  value (`AfterFetch`, `AfterAdd`, `AfterUpdate`, `AfterDelete`).
- the library toggle panel (`LibraryToggle.tsx`): the multi-select group, the
  "Delete Selected" handler with its loop of deletes, and the button's disabled rule;
- the version picker (`VersionToggle.tsx`): the token guard and the label table;
- `sendPrompt` (`chat.ts`): the POST and the classification of its outcome into a
  `{response, error}` value;
- the four chat endpoints of the backend (`routers/chat.py`). Each is a pure function of
  the request body, the configuration files, and the language model and retrieval given
  as parameters. Its result records every model call, in order, and the answer or the
  HTTP status;
- the server's delete rule (`routers/db.py`). It is the counterpart against which the
  client's idempotent delete is proved.

The helper modules hold the JavaScript and Python library behaviour the core relies on:
`Seqs.Filter` is `Array.prototype.filter`; `Text` is Python's `str.replace` and
`str.join`, with a split (`Text.Split`, never called by the source) kept only as a
reference definition that characterises `replace`; `JsNumbers` is `String(n)` and
`parseInt(s, 10)`.

What the code does, where a reader might expect otherwise:

- No component maps a version to an endpoint. `sendPrompt` always posts to
  `{backendUrl}/api/chat` with only the prompt in the body. Model, version and selection
  are never sent. `VersionToggle` only stores the token.
- `setSelectedLibraries` replaces the selection wholesale. Ids outside the snapshot are
  kept, and a refresh never prunes the selection (`FetchMayStrandSelection`). Only
  `deleteLibrary` keeps "every selected id names a library", and
  `DeletePreservesSelectionWithin` proves that.
- `addLibrary` and `updateLibrary` refetch after writing. `deleteLibrary` updates the
  snapshot locally, with no refetch.
- Failures are thrown, not returned as data. `addLibrary`, `updateLibrary` and
  `deleteLibrary` re-throw, modelled as `Rejected`. `fetchLibraries` and
  `getLibraryById` swallow every failure, and `sendPrompt` alone returns a result value.
- The selection is typed `number[]`. The toggle group fills it with the strings
  `String(id)`, and the delete handler parses them back. The model keeps integer ids
  and puts the conversion at the toggle (`ToggleValue`, `ParsedId`). What the mismatch
  does to `deleteLibrary` is under "Findings".
- `routers/chat.py:7-8` imports `retrieve_relevant_chunks_surrounding` and
  `get_libraries(ids)`, but neither is defined with that signature in the other
  files of the repository. Both are parameters of the model (`Retriever`,
  `LibraryTexts`), and so is the language-model call.

## Model

| member | source | states |
|---|---|---|
| Seqs.Filter | frontend/src/context/LibraryContext.tsx:106-107 | the result holds exactly the elements of the input that pass the test, and is no longer |
| Seqs.FilterAppend | frontend/src/context/LibraryContext.tsx:106-107 | filtering a concatenation filters each part, so survivors keep their order |
| Seqs.FilterKeepsAll | frontend/src/context/LibraryContext.tsx:106-107 | a filter whose test passes every element returns the input unchanged |
| Seqs.FilterFilter | frontend/src/context/LibraryContext.tsx:106-107 | two filters in a row are one filter whose test holds exactly where both tests hold |
| Seqs.FilterCongruent | frontend/src/context/LibraryContext.tsx:106-107 | two tests that agree on every element filter the sequence alike |
| Seqs.FilterIdempotent | frontend/src/context/LibraryContext.tsx:106-107 | filtering twice with the same test equals filtering once |
| Text.ReplaceAll | routers/chat.py:77 | definition; no contract. Characterised by `ReplaceAllIsJoinOfSplit`, `ReplaceWithItself`, `ReplaceAllWithoutOccurrence` and `ReplaceWholeTemplate`. The same code is also at lines 128, 131, 190, 208, 261, 279 |
| Text.Join | routers/chat.py:117 | definition; no contract. Characterised by `JoinShort` and `ReplaceAllIsJoinOfSplit`. The same code is also at lines 186, 253 |
| Text.Split | routers/chat.py:77 | the split used to characterise `replace` (a proof aid, not called by the source) always yields at least one piece |
| Text.ReplaceAllIsJoinOfSplit | routers/chat.py:77 | `s.replace(p, r)` equals `r.join(s.split(p))` for every string |
| Text.ReplaceWithItself | routers/chat.py:77 | replacing the placeholder by itself leaves any template unchanged |
| Text.SplitJoinRoundTrip | routers/chat.py:77 | a corollary of `ReplaceAllIsJoinOfSplit` and `ReplaceWithItself` about the reference split: joining the pieces of a split with the pattern it split on gives back the string |
| Text.ReplaceAllWithoutOccurrence | routers/chat.py:77 | a template without the placeholder passes through `replace` unchanged |
| Text.ReplaceWholeTemplate | routers/chat.py:190 | a template that is exactly the placeholder becomes exactly the replacement |
| Text.JoinShort | routers/chat.py:117 | joining no chunks gives "" and joining one chunk gives that chunk |
| JsNumbers.IntToString | frontend/src/components/LibraryToggle.tsx:85 | definition; no contract. Characterised by `ParseIntOfString` and `IntToStringInjective` |
| JsNumbers.ParseInt10 | frontend/src/components/LibraryToggle.tsx:38 | definition; no contract. Characterised by `ParseDigits`, `ParseNegatedDigits` and `ParseIntOfString` |
| JsNumbers.Digits | frontend/src/components/LibraryToggle.tsx:85 | the decimal digits of a natural number are non-empty and all digits |
| JsNumbers.LeadingDigits | frontend/src/components/LibraryToggle.tsx:38 | the digit run `parseInt` reads is a prefix made of digits, and the next character is not a digit |
| JsNumbers.TrimStart | frontend/src/components/LibraryToggle.tsx:38 | the white-space skip returns a suffix of the input that does not start with white space, and everything it skipped is white space |
| JsNumbers.DigitsValueOfDigits | frontend/src/components/LibraryToggle.tsx:85 | the value of `String(n)`'s digits is `n` again |
| JsNumbers.LeadingDigitsStopsAt | frontend/src/components/LibraryToggle.tsx:38 | `parseInt` reads exactly a digit run that no further digit follows |
| JsNumbers.ParseDigits | frontend/src/components/LibraryToggle.tsx:38 | `parseInt` of a digit run followed by a non-digit is that run's value |
| JsNumbers.ParseNegatedDigits | frontend/src/components/LibraryToggle.tsx:38 | `parseInt` of "-" and such a run is the negated value |
| JsNumbers.ParseIntOfString | frontend/src/components/LibraryToggle.tsx:38 | `parseInt(String(n) + rest, 10) == n` for every integer `n` and any `rest` that does not start with a digit |
| JsNumbers.IntToStringInjective | frontend/src/components/LibraryToggle.tsx:85 | distinct ids have distinct toggle values |
| DbRouter.DeleteLibrary | routers/db.py:26-33 | a missing id is answered 404 and the table is unchanged; otherwise exactly that id is removed and the answer is 204 |
| DbRouter.DeleteTwice | routers/db.py:28-30 | a second delete of the same id is always answered 404 and changes nothing |
| LibraryContext.WithoutLibrary | frontend/src/context/LibraryContext.tsx:106 | definition; no contract. Characterised by `AfterDelete` and `DeleteKeepsOrder` |
| LibraryContext.WithoutId | frontend/src/context/LibraryContext.tsx:107 | definition; no contract. Characterised by `AfterDelete` and `LibraryToggle.PruneRemovesDeletedId` |
| LibraryContext.DeleteAccepted | frontend/src/context/LibraryContext.tsx:102 | definition; no contract. Characterised by `AfterDelete`: a delete resolves exactly on 2xx or 404 |
| LibraryContext.AfterFetch | frontend/src/context/LibraryContext.tsx:40-52 | a delivered list replaces the snapshot wholesale; every failure leaves the state unchanged; the selection is never touched |
| LibraryContext.AfterAdd | frontend/src/context/LibraryContext.tsx:60-75 | POST first. It resolves exactly on a 2xx answer, followed by a GET refresh. Otherwise it rejects with the status or network failure and the state is unchanged |
| LibraryContext.AfterUpdate | frontend/src/context/LibraryContext.tsx:78-93 | PUT to the item URL first. It resolves exactly on a 2xx answer, followed by a refresh. Otherwise it rejects and the state is unchanged |
| LibraryContext.AfterDelete | frontend/src/context/LibraryContext.tsx:96-114 | one DELETE. It resolves exactly on 2xx or 404 and then the snapshot and the selection are exactly the filtered ones (`WithoutLibrary`, `WithoutId`): the id is gone and the rest keep their order. Otherwise it rejects and the state is unchanged |
| LibraryContext.DeleteKeepsOrder | frontend/src/context/LibraryContext.tsx:106 | the remaining records keep their relative order |
| LibraryContext.DeleteAbsentIdKeepsSnapshot | frontend/src/context/LibraryContext.tsx:101-106 | deleting an id no record carries (the 404 case) leaves the snapshot as it was |
| LibraryContext.DeleteTwiceSameAsOnce | frontend/src/context/LibraryContext.tsx:101-107 | a second delete of the same id answered 404 resolves and changes nothing |
| LibraryContext.DeleteTwiceAgainstServer | frontend/src/context/LibraryContext.tsx:96-114 | against the server's rule, the second delete is answered 404, both resolve, and the state is the one after the first |
| LibraryContext.DeletePreservesSelectionWithin | frontend/src/context/LibraryContext.tsx:106-107 | if every selected id names a library before a delete, it does after |
| LibraryContext.FetchMayStrandSelection | frontend/src/context/LibraryContext.tsx:46-47 | a refresh that drops a selected library leaves its id selected |
| LibraryContext.ItemUrlInjective | frontend/src/context/LibraryContext.tsx:98 | distinct ids address distinct item URLs |
| LibraryContext.LibraryProvider.constructor | frontend/src/context/LibraryContext.tsx:35-36 | snapshot and selection start empty |
| LibraryContext.LibraryProvider.FetchLibraries | frontend/src/context/LibraryContext.tsx:40-52 | issues `GET /db/libraries/` and moves the state as `AfterFetch` says |
| LibraryContext.LibraryProvider.AddLibrary | frontend/src/context/LibraryContext.tsx:60-75 | requests, settlement and new state are those of `AfterAdd` |
| LibraryContext.LibraryProvider.UpdateLibrary | frontend/src/context/LibraryContext.tsx:78-93 | requests, settlement and new state are those of `AfterUpdate` |
| LibraryContext.LibraryProvider.DeleteLibrary | frontend/src/context/LibraryContext.tsx:96-114 | requests, settlement and new state are those of `AfterDelete` |
| LibraryContext.LibraryProvider.GetLibraryById | frontend/src/context/LibraryContext.tsx:117-129 | GET to the item URL; returns a record exactly when a 2xx answer with a readable body arrives, and null otherwise |
| LibraryContext.LibraryProvider.SetSelectedLibraries | frontend/src/context/LibraryContext.tsx:36 | the selection becomes the given ids, unchecked; the snapshot is unchanged |
| LibraryContext.UseLibrary | frontend/src/context/LibraryContext.tsx:148-154 | returns the provider when there is one, otherwise fails with the hook's error message |
| LibraryToggle.DeleteDisabled | frontend/src/components/LibraryToggle.tsx:68 | definition; no contract. Characterised by `DisabledExactlyWhenNothingIssued` |
| LibraryToggle.DeleteAll | frontend/src/components/LibraryToggle.tsx:42 | definition; no contract. Characterised by `DeleteAllLibraries` and `StepDeleteAll` |
| LibraryToggle.PruneAsWritten | frontend/src/context/LibraryContext.tsx:107 | definition; no contract. Characterised by `PruneAsWrittenKeepsDeletedId` and `PruneAsWrittenExample` |
| LibraryToggle.ToggleValueParsesBack | frontend/src/components/LibraryToggle.tsx:38 | `parseInt(String(id), 10)` is `id`, so the delete goes to the selected library |
| LibraryToggle.DeletedByStep | frontend/src/components/LibraryToggle.tsx:42 | an id is deleted by a run with one more delete exactly when the shorter run deleted it, or the new delete names it and is accepted |
| LibraryToggle.SurvivesStep | frontend/src/components/LibraryToggle.tsx:42 | a record survives the longer run exactly when it survived the shorter one and an accepted new delete names another id |
| LibraryToggle.FilterStepAccepted | frontend/src/components/LibraryToggle.tsx:42 | after an accepted delete, the snapshot filtered by the shorter run and then by the new id equals the snapshot filtered by the longer run |
| LibraryToggle.FilterStepRejected | frontend/src/components/LibraryToggle.tsx:42 | a rejected delete does not change which records survive the run |
| LibraryToggle.DeleteAllLibraries | frontend/src/components/LibraryToggle.tsx:42 | after the run of deletes, the snapshot is the original one, in its original order, minus exactly the records whose id an accepted delete named |
| LibraryToggle.DeleteSelected | frontend/src/components/LibraryToggle.tsx:35-51 | an empty selection does nothing. Otherwise it issues one delete per selected id, in order, and clears the selection even when deletes failed. The snapshot is the original one, in its original order, minus exactly the records an accepted delete named |
| LibraryToggle.DisabledExactlyWhenNothingIssued | frontend/src/components/LibraryToggle.tsx:68 | the button is disabled exactly when the handler would issue no delete |
| LibraryToggle.DeleteSelectedLeavesSelectionWithin | frontend/src/components/LibraryToggle.tsx:50 | after the handler, from any state, every selected id names a library, because the handler ends by clearing the selection |
| LibraryToggle.HandleDeleteSelected | frontend/src/components/LibraryToggle.tsx:35-51 | the provider's new state and the issued ids are those of `DeleteSelected` |
| LibraryToggle.DeleteEach | frontend/src/components/LibraryToggle.tsx:38-42 | issues one delete per id, in order, and ends in the state `DeleteAll` gives |
| LibraryToggle.IdOfToggle | frontend/src/components/LibraryToggle.tsx:38 | parsing an id's toggle value returns that id |
| LibraryToggle.StepDeleteAll | frontend/src/components/LibraryToggle.tsx:42 | one more delete extends the run by exactly that delete |
| LibraryToggle.HandleValueChange | frontend/src/components/LibraryToggle.tsx:29-32 | the group's value replaces the selection, unchecked against the snapshot |
| LibraryToggle.StoredSelection | frontend/src/components/LibraryToggle.tsx:85 | the stored selection holds, position by position, the string value of each chosen id |
| LibraryToggle.PruneAsWrittenKeepsDeletedId | frontend/src/context/LibraryContext.tsx:107 | as written, pruning a selection of strings with a numeric id removes nothing |
| LibraryToggle.PruneAsWrittenExample | frontend/src/context/LibraryContext.tsx:107 | with selection ["5"], deleting library 5 leaves "5" selected |
| LibraryToggle.PruneRemovesDeletedId | frontend/src/context/LibraryContext.tsx:107 | with numeric ids, the prune removes the deleted id, keeps every other id, and keeps their order |
| VersionToggle.Label | frontend/src/components/VersionToggle.tsx:29-42 | definition; no contract. Characterised by `LabelTable` |
| VersionToggle.Forwarded | frontend/src/components/VersionToggle.tsx:23-24 | a value is passed to `setVersion` exactly when it is one of the four tokens, and then unchanged |
| VersionToggle.OnValueChange | frontend/src/components/VersionToggle.tsx:19-26 | a token becomes the version; any other value keeps the current one |
| VersionToggle.VersionTokens | frontend/src/components/VersionToggle.tsx:6 | the version type holds exactly "0", "1", "2", "3" |
| VersionToggle.LabelTable | frontend/src/components/VersionToggle.tsx:29-42 | the labels are Plain, Pipeline, RAG, RAG-2, and the table is one-to-one |
| VersionToggle.DeselectKeepsVersion | frontend/src/components/VersionToggle.tsx:20-24 | deselecting (the group reports "") keeps the version |
| VersionToggle.ReselectKeepsVersion | frontend/src/components/VersionToggle.tsx:23-24 | choosing the current token keeps the version |
| ChatApi.Classify | frontend/src/api/chat.ts:6-20 | there is an error exactly when the POST did not deliver, and a delivered text is the response. A received status gives "HTTP error! status: " and the status, a request without response gives the no-response sentence, and anything else gives "Error: " and the error's message |
| ChatApi.SendPrompt | frontend/src/api/chat.ts:3-22 | posts `{prompt}` to `backendUrl + "/api/chat"`. An error and a response never coexist. There is an error exactly when the POST failed, and the result is always `Classify` of the POST's outcome |
| ChatApi.HttpMessageReadBack | frontend/src/api/chat.ts:11 | the status can be parsed back out of the HTTP error message |
| ChatApi.NoResponseReadBack | frontend/src/api/chat.ts:16 | the no-response sentence is read back as that class, not as an HTTP error |
| ChatApi.SetupReadBack | frontend/src/api/chat.ts:19 | an "Error: " message, whatever the error's message, is neither an HTTP message nor the no-response sentence |
| ChatApi.ClassRecoverable | frontend/src/api/chat.ts:7-20 | the three failure messages never collide, and the HTTP status can be read back from its message |
| ChatApi.ResponseWinsOverRequest | frontend/src/api/chat.ts:8-11 | a received status decides the message, whatever the request flag and message say |
| ChatRouter.RagPrompt | routers/chat.py:128 | definition; no contract. Characterised by `ChatRag` |
| ChatRouter.RetrievedContext | routers/chat.py:116-119 | definition; no contract. Characterised by `ChatRag`, `Text.JoinShort` and `Rag2Condensation` |
| ChatRouter.Stage1Prompt | routers/chat.py:190 | definition; no contract. Characterised by `QuestionFilledFirst` and `PipelineCalls`. The same code is also at line 261 |
| ChatRouter.Stage2Prompt | routers/chat.py:208 | definition; no contract. Characterised by `AnalysisIsFramedContext`. The same code is also at line 279 |
| ChatRouter.PipelineStage1 | routers/chat.py:183-190 | definition; no contract. Characterised by `PipelineCalls` |
| ChatRouter.Rag2Stage1 | routers/chat.py:248-261 | definition; no contract. Characterised by `Rag2Condensation` |
| ChatRouter.Rag2Fallback | routers/chat.py:255-257 | definition; no contract. Characterised by `Rag2Condensation`. The same code is also at lines 272-274 |
| ChatRouter.Ask | routers/chat.py:39-59 | records the call; the answer is the model's reply, and a failed call is a 500 |
| ChatRouter.TwoStage | routers/chat.py:183-219 | All calls use one model. A success answers the last call, and a model failure is reported only after a failed call. There is a first call only when given one, and a second only when the first replied. The final prompt frames the analysis, which is returned |
| ChatRouter.PlainChat | routers/chat.py:63-92 | A missing prompt is a 400; a malformed body or missing preprompt is a 500, all with no model call. Otherwise there is one call with the placeholder filled in and the requested or default model |
| ChatRouter.ChatRag | routers/chat.py:96-164 | Every failure is a 500 (the 400 is swallowed). There is one call: the bare question without libraries, or the retrieved chunks or the not-found sentence framed before it |
| ChatRouter.ChatPipeline | routers/chat.py:168-226 | Every failure is a 500 and there are at most two calls. A ready request runs the two-stage flow: stage 1 over the libraries' texts when any are selected, else the nothing-selected sentence |
| ChatRouter.ChatRag2 | routers/chat.py:230-298 | Every failure is a 500 and there are at most two calls. A ready request condenses the retrieved chunks, or falls back to the not-found or nothing-selected sentence |
| ChatRouter.PromptRequiredEverywhere | routers/chat.py:70-71 | a missing or empty prompt is refused before any model call: 400 by `/chat`, 500 by the others |
| ChatRouter.DefaultModelEverywhere | routers/chat.py:13 | without a `model` field every call of every endpoint uses llama3.2:3b |
| ChatRouter.PipelineCalls | routers/chat.py:183-214 | Without libraries there is one call and the analysis is the nothing-selected sentence. With libraries the first call is the stage-1 prompt, and a second follows exactly when the first replies |
| ChatRouter.Rag2Condensation | routers/chat.py:248-279 | it condenses exactly when libraries are selected and retrieval finds chunks; otherwise its one call frames the right sentence |
| ChatRouter.AnalysisIsFramedContext | routers/chat.py:278-290 | on success both two-stage endpoints return as analysis exactly the context their final prompt framed |
| ChatRouter.QuestionFilledFirst | routers/chat.py:190 | for every question and documentation text, the question is filled before the documentation, so every documentation placeholder typed in the question is filled too |
| ChatRouter.TemplateWithoutSlot | routers/chat.py:77 | a preprompt without the placeholder is sent unchanged |

## Left out

- The network, React rendering, `useEffect`'s fetch on mount, and `console` logging are
  left out. Every response the client receives is an input of the operation that sends
  the request.
- LibraryToggle.HandleDeleteSelected: the deletes run one after another. The source starts
  them all at once with `Promise.all`. If one rejects, the source clears the selection
  before the others settle; they then change only the snapshot. The final state is the
  same once every delete has settled, but the intermediate states are not modelled.
- LibraryContext.AfterFetch: a 2xx body that parses as JSON but is not a library list is
  stored as is by the source. The model has only "a library list" or "unreadable".
- LibraryContext.AfterAdd: the server's create (`POST /db/libraries/`) and list are not
  modelled, so no lemma relates the refreshed snapshot to the added record.
- JsNumbers.IntToString: numbers of magnitude at least 10^21, which `String` writes in
  exponent form, are left out. Ids beyond 2^53, where JavaScript numbers lose precision,
  are left out too.
- ChatRouter: the `detail` strings of the HTTP errors are not kept, only their status and
  cause. Sampling options, the Ollama host and the JSON decoding of its answer are left
  out; a failed or unreadable model answer is one `None` reply.
- ChatRouter: a non-string prompt, a `null` model and a non-list `selected_libraries`
  are left out. The body is modelled as a string prompt, an optional model name and a
  list of ids.
- ChatRouter: the endoff file is read and never used. It counts only as one of the files
  whose absence is a 500.
- ChatRouter: retrieval and the library lookup never fail in the model. A raise from them
  (routers/chat.py:116, 185, 252) is a 500 in the source.
- ChatApi: a 2xx answer whose `data.response` is not a string is left out.
- The library form sheet and page, `App`, `main`, the Monaco editor, `main.py`,
  `database.py` and `rag_service.py` are not part of this model.

## Findings

| source | as written | input that shows it | evidently intended | confidence | as-written member | corrected member |
|---|---|---|---|---|---|---|
| frontend/src/context/LibraryContext.tsx:107 | the selection holds the strings `String(id)` from the toggle group, and the prune compares them with `!==` against the numeric id, so nothing is removed; its only caller clears the selection right after the deletes (LibraryToggle.tsx:50), so the stale id shows only until that clear, or to a future direct caller | selection `["5"]`, `deleteLibrary(5)` answered 204 | the deleted id leaves the selection | medium, not executed | LibraryToggle.PruneAsWrittenKeepsDeletedId | LibraryToggle.PruneRemovesDeletedId |
