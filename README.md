# Relay-and-reconcile model of the AI chat endpoints

This project models the two serverless HTTP handlers of the AI mini app and proves properties of the model.
Each handler takes a user message, forwards it to a text-generation provider (Gemini), writes the message and the reply to a Firestore document store, and maps every outcome to an HTTP status and a JSON body.

- `api/ai-sync.js` is the two-phase handler. It runs the method gate (OPTIONS answers 200, anything but POST answers 405), then validates `userId`/`messageText`. It `set`s a fresh `user_messages` document holding `{userId, messageText, timestamp}`, calls the provider and extracts `candidates[0].content.parts[0].text`. It then `update`s the same document with `{responseText, botTimestamp}` and answers `{responseText}`. Any exception in the `try` becomes a 500 `{error}` whose empty message falls back to "Internal Server Error".
- `api/ai-response.js` is the older single-phase handler. Only POST is accepted. It validates `message`/`messageId`, calls the provider and extracts `candidates[0].output`. It merge-writes `{response_text}` into `messages/<messageId>` and answers `{response}`. Any exception becomes a 500 carrying `error.message` as it is.

Files and modules:

- `wrappers.dfy` (`Wrappers`): `Option`.
- `js.dfy` (`Js`): JSON values (integers only), JavaScript truthiness, and the optional-chaining steps `v?.name` and `v?.[0]` with `v || fallback`.
- `extraction.dfy` (`Extraction`): the two reply-extraction expressions and the canonical answer shapes they invert.
- `store.dfy` (`Store`): documents keyed by collection and id. The three writes (`set`, `update`, `setDoc` with `merge: true`) are pure functions, and a `DocumentStore` class applies them in place. Whether the backend commits is an injected `Fate`.
- `provider.dfy` (`Provider`): the provider's injected `Answer`. This is `Ok(json)`, `NotOk(body text)` or `Throws(message)`; a failing `json()` counts as `Throws`. A `Client` object records every prompt it is sent, so the number of calls is `|sent|`.
- `http.dfy` (`Http`): requests, reply payloads, and body destructuring.
- `sync.dfy` (`Sync`): the two-phase handler. `Handle` is its specification function, and `Serve` is the imperative handler proved equal to it.
- `legacy.dfy` (`Legacy`): the single-phase handler. `HandleAsWritten` is the code as written. `Handle` and `Serve` are the handler with its missing imports in place.
- `lifecycle.dfy` (`Lifecycle`): any sequence of requests to either handler. It shows that a turn is changed only by the request that created it, and that a 200 stays durable.

Inputs that the code reads from outside are parameters (`Sync.Env`, `Legacy.Env`): the provider's answer, the fate of each write, the auto-id, the `Timestamp.now()` ticks and the error message `doc()` raises.

The model follows the code on these points:

- Validation is JavaScript truthiness: any truthy value passes, not only a non-empty string (a numeric `userId` passes), and that value is what is stored.
- The extracted reply is whatever truthy value sits at the path, not necessarily a string.
- The timestamp fields are named `timestamp` and `botTimestamp`.
- The legacy handler has no OPTIONS case.
- As written, the legacy handler can never answer 200 (see Findings).

## Model

| member | source | states |
|---|---|---|
| `Extraction.GeminiReply` | api/ai-sync.js:82-84 | the reply is always truthy; it is the value at `candidates[0].content.parts[0].text` when that is defined and truthy, and exactly "No response from AI" otherwise |
| `Extraction.BisonReply` | api/ai-response.js:31 | the reply is always truthy; it is the value at `candidates[0].output` when that is defined and truthy, and exactly "No AI response" otherwise |
| `Extraction.GeminiRoundTrip` | api/ai-sync.js:82-84 | extracting from the one-candidate answer shape returns the text when it is truthy, else the placeholder |
| `Extraction.BisonRoundTrip` | api/ai-response.js:31 | extracting from `{candidates:[{output}]}` returns the output when it is truthy, else the placeholder |
| `Extraction.GeminiReadsFirstCandidateOnly` | api/ai-sync.js:83 | candidates after the first, and other top-level members, do not affect the reply |
| `Extraction.BisonReadsFirstCandidateOnly` | api/ai-response.js:31 | candidates after the first, and other top-level members, do not affect the reply |
| `Extraction.GeminiReplyOfFullAnswer` | api/ai-sync.js:82-84 | an answer with other members at every level and further candidates and parts still yields its first candidate's first text, when truthy |
| `Extraction.BisonReplyOfFullAnswer` | api/ai-response.js:31 | an answer with other members at both levels and further candidates still yields the first candidate's output, when truthy |
| `Extraction.EmptyOrForeignAnswersDegrade` | api/ai-sync.js:82-84 | an answer that is not an object, has no `candidates`, or has an empty candidate list, yields the placeholder of each handler and does not fail |
| `Extraction.EmptyTextDegrades` | api/ai-sync.js:82-84 | an empty text at the path is falsy and is replaced by the placeholder |
| `Extraction.ObjectCandidatesAccepted` | api/ai-response.js:31 | `?.[0]` also reads member "0" of an object, so an object-valued `candidates` is accepted |
| `Store.SetWrite` | api/ai-sync.js:54 | a committed `set` makes the document exactly the data, adding its key; a rejected one reports its message and changes nothing; other documents are unchanged |
| `Store.UpdateWrite` | api/ai-sync.js:87-90 | `update` succeeds only on an existing document and a committed write; it then merges the fields, keeping every other field; otherwise it reports an error and changes nothing; other documents and the key set are unchanged |
| `Store.MergeWrite` | api/ai-response.js:35 | a committed merge creates or extends the document with the fields, keeping its other fields; a rejected one changes nothing; other documents are unchanged |
| `Store.PieceLength` | api/ai-response.js:34 | the leading piece of a path runs up to, and not including, its first "/" |
| `Store.Segments` | api/ai-response.js:34 | splitting a path on "/" and dropping empty pieces gives non-empty pieces free of "/"; a non-empty path without "/" is its own single piece |
| `Store.SegmentsCons` | api/ai-response.js:34 | a plain piece followed by "/" is split off as the first segment |
| `Store.NoDoubleSlashJoin` | api/ai-response.js:34 | joining a plain piece and a rest with one "/" introduces no "//" |
| `Store.DocumentStore.Set` | api/ai-sync.js:54 | the in-place `set` leaves the store and error exactly as `SetWrite` says |
| `Store.DocumentStore.Update` | api/ai-sync.js:87-90 | the in-place `update` leaves the store and error exactly as `UpdateWrite` says |
| `Store.DocumentStore.Merge` | api/ai-response.js:34-35 | the in-place merge leaves the store and error exactly as `MergeWrite` says |
| `Provider.FailureMessage` | api/ai-sync.js:76-79 | a non-ok answer becomes "Gemini API error: " followed by the body text, which is never empty; a thrown exception keeps its own message |
| `Provider.Client.Generate` | api/ai-sync.js:70-74 | every call is recorded with its prompt, whatever the provider answers |
| `Sync.ServerError` | api/ai-sync.js:94-96 | the catch block answers 500 with the exception's message, or with "Internal Server Error" when that is empty; the body's error is never empty |
| `Sync.Handle` | api/ai-sync.js:27-43 | OPTIONS gives 200 with no body; other non-POST methods give 405 "Method not allowed"; a missing or falsy field gives 400 "Missing userId or messageText"; none of these writes or calls the provider; a null body escapes the handler; only the turn's own document is written, nothing is deleted, and turns stay well formed |
| `Sync.Relay` | api/ai-sync.js:43-54 | a rejected phase-1 write gives 500 with zero provider calls and an unchanged store; a committed one stores `{userId, messageText, timestamp}` under the fresh key before the provider is called, exactly once, with the message text |
| `Sync.Reconcile` | api/ai-sync.js:70-93 | a failed provider call gives 500 "Gemini API error: …" or the thrown message, and leaves the phase-1 record without a reply (an orphaned turn); a failed update gives 500 and leaves the turn open; 200 happens exactly when the call and the update both succeed, and then the reply equals the stored `responseText`, written together with `botTimestamp` into the same document with its own fields kept |
| `Sync.Serve` | api/ai-sync.js:16-98 | the imperative handler's reply, store and provider calls are exactly those of `Handle` |
| `Sync.SuccessOutcome` | api/ai-sync.js:45-93 | when both writes commit and the provider answers, the reply is 200 with the extracted text, the store gains exactly the turn holding the phase-1 fields plus `responseText`/`botTimestamp`, and the provider is called once with the message text |
| `Sync.HelloScenario` | api/ai-sync.js:38-93 | `{userId:"u1", messageText:"hello"}` answered "hi there" gives 200 "hi there" and one new turn holding both texts |
| `Sync.EmptyUserIdScenario` | api/ai-sync.js:38-41 | `{userId:"", messageText:"hi"}` gives 400, no write and no provider call |
| `Legacy.Reject` | api/ai-response.js:2-11 | every non-POST method (OPTIONS included) gives 405; a missing or falsy `message`/`messageId` gives 400 "Message and messageId are required"; a null body escapes; only a validated request goes on |
| `Legacy.DocRef` | api/ai-response.js:34 | `doc(db, "messages", id)` has a reference exactly when the id is a string holding no "//" whose non-empty "/"-pieces, after "messages", make an even number of segments; the last piece is the document id and the collection is `messages` followed by the pieces before the last, joined by "/", so it lies under `messages`; a non-empty id without "/" names `messages/<id>` |
| `Legacy.PathKey` | api/ai-response.js:34 | "messages" followed by the pieces names a document exactly when their count is odd; its id is the last piece; its collection is `messages` for one piece and `messages/` followed by the earlier pieces joined by "/" otherwise |
| `Legacy.DocRefDropsEmptyPieces` | api/ai-response.js:34 | `<id>/` and `/<id>` both name `messages/<id>` |
| `Legacy.DocRefNested` | api/ai-response.js:34 | `x/y/z` names document `z` of the nested collection `messages/x/y` |
| `Legacy.NestedPieces` | api/ai-response.js:34 | `x/y/z` splits into the three pieces and holds no "//" |
| `Legacy.DocRefRefused` | api/ai-response.js:34 | `x/y` (an odd number of segments), `x//y` and a non-string id have no reference |
| `Legacy.ServerError` | api/ai-response.js:38-40 | the catch block answers 500 with the exception's message as it is, with no fallback |
| `Legacy.CatchKeepsEmptyMessage` | api/ai-response.js:38-40 | an empty exception message stays empty here, where ai-sync answers "Internal Server Error" |
| `Legacy.HandleAsWritten` | api/ai-response.js:1-41 | as written the store never changes and no reply is ever 200; after a successful provider call the reply is 500 "doc is not defined" |
| `Legacy.Handle` | api/ai-response.js:1-41 | rejected requests make no call and no write; the provider is called once before any write; a failed call gives 500 with the message and no write; 200 happens exactly when call, reference and merge succeed, and then `{response}` equals the stored `response_text`, all other fields and documents unchanged, no key added but the referenced one, and no document outside `messages` and its nested collections touched; a provider exception with an empty message gives 500 `{error: ""}` |
| `Legacy.AsWrittenAgreesBeforeTheWrite` | api/ai-response.js:2-31 | the code as written and the corrected handler agree on every request whose provider call did not succeed |
| `Legacy.AsWrittenFailsAfterProviderSuccess` | api/ai-response.js:34-40 | a concrete request that the corrected handler answers 200 and persists, while the code as written answers 500 "doc is not defined" |
| `Legacy.Serve` | api/ai-response.js:1-41 | the imperative handler's reply, store and provider calls are exactly those of `Handle` |
| `Lifecycle.TurnsOutsideMessages` | api/ai-sync.js:46 | the `user_messages` collection does not lie under `messages`, so the legacy handler's writes never reach a turn |
| `Lifecycle.Apply` | api/ai-response.js:34-35 | a legacy request leaves every `user_messages` document as it was and creates none |
| `Lifecycle.Run` | api/ai-sync.js:45-90 | over any sequence of requests to either handler, turns stay well formed (`responseText` and `botTimestamp` both present or both absent) and no document is ever deleted |
| `Lifecycle.FreshIdsTail` | api/ai-sync.js:46 | after one request, the later requests' auto-ids are still fresh |
| `Lifecycle.FreshIdsSuffix` | api/ai-sync.js:46 | after any prefix of the requests, the rest's auto-ids are still fresh |
| `Lifecycle.EarlierTurnsUntouched` | api/ai-sync.js:45-54 | with fresh auto-ids, a stored turn is never changed by later requests: completed turns are terminal and orphaned turns are never repaired |
| `Lifecycle.TurnKeptToTheEnd` | api/ai-sync.js:46-54 | a turn present after some prefix of the requests is unchanged at the end |
| `Lifecycle.SuccessIsDurable` | api/ai-sync.js:87-93 | a 200 from any ai-sync request in a sequence leaves its turn holding exactly that reply at the end |
| `Lifecycle.IdCollisionReopensTurn` | api/ai-sync.js:46-54 | without fresh auto-ids, a later phase-1 `set` overwrites a completed turn with an open one |

## Left out

- Firebase Admin initialisation and its init-once guard (api/ai-sync.js:1-14): this is process setup. The store is a parameter instead.
- `fetch`, URL and key construction, and `JSON.stringify` of the payload (api/ai-sync.js:57-74, api/ai-response.js:14-23): these are network transport. The provider's answer is an injected `Answer`. The prompt envelope is not modelled; the model only records that the message text alone is sent.
- The CORS headers (api/ai-sync.js:20-22): they are a response side effect with no logic.
- `Timestamp.now()` (api/ai-sync.js:51, 89): its values are injected ticks, and only their presence is stated.
- Firestore auto-id generation (api/ai-sync.js:46): the id is injected. Its freshness is a hypothesis of the lemmas in `Lifecycle`.
- `console.error` (api/ai-sync.js:95): it is logging only.
- Async execution and concurrency between requests: each invocation is sequential and independent, and sequences of requests run one after another.
- The response object `res` is mutated by `status`/`json`/`end` in the source. The model returns the status and payload as a value instead.
- The answer to an exception that escapes a handler (a null request body makes the destructuring throw): the hosting platform decides it. The model only reports `Escaped`. A missing body is modelled as `null`.
- JSON numbers are integers only. Floating point, `NaN` and `-0` are not modelled.
- `Js.First` takes a Dafny character as a string's first element, where JavaScript takes a UTF-16 code unit.
- `Js.Member` finds only an object's own members. The property names used (`candidates`, `content`, `parts`, `text`, `output`, `userId`, `messageText`, `message`, `messageId`) are neither inherited ones nor built-in properties of strings, arrays or numbers.
- Store.MergeWrite: does not model the deep merge that `setDoc(..., {merge: true})` applies when both the stored and the new `response_text` are maps. The model replaces the field whole.
- Store.UpdateWrite: the text of the rejection on a missing document stands for the client library's message. The library is not part of this model.
- Legacy.DocRef: the client library's other id rules (reserved ids such as `__x__`, length limits) are not modelled, and every refusal (a non-string id, an id holding "//", or an odd number of segments) gives the same injected error message `env.refError`, whereas the library reports each case with its own message, naming the value or the path.
- Thrown values without a `message` (which make `{error: undefined}`) are not modelled: every exception carries a string message.
- Orphaned turns are never swept: the source has no such mechanism, and neither does the model.

## Findings

| source | as written | input that shows it | evidently intended | confidence | as-written member | corrected member |
|---|---|---|---|---|---|---|
| api/ai-response.js:34-35 | `doc`, `db` and `setDoc` are used but never imported or declared, so evaluating `doc` throws a ReferenceError and the catch answers 500 "doc is not defined" after every successful provider call | POST `{message:"hello", messageId:"m1"}` with provider answer `{candidates:[{output:"hi there"}]}` answers 500 and stores nothing (`Legacy.AsWrittenFailsAfterProviderSuccess`) | merge `response_text: "hi there"` into `messages/m1` and answer 200 `{response:"hi there"}` | not executed | `Legacy.HandleAsWritten` | `Legacy.Handle` |
