# Verified model of the gateway's protocol translators

The desktop gateway stands between a client that speaks the Anthropic Messages protocol and upstreams that speak
something else. This project models the parts that translate streams and histories, and the model catalog that
several gateway processes share, and proves what each of them promises.

- `MessageStream.dfy` is the common ground: the lifecycle of a message stream, the grammar it recognises, and
  the message a client assembles. `SseValidator.dfy` is the incremental validator over bytes, `Framing.dfy` the
  frame rules that three readers share, `SseDecoding.dfy` the decoder of upstream events, `Utf8Text.dfy` the
  decoding of UTF-8 chunk by chunk. `StreamEndings.dfy` says how a stream may end, `SseWriting.dfy` what written
  events are decoded to, `EscapedText.dfy` what the size counts stand for.
- `ResponsesReducer.dfy` specifies, event by event, how Responses events become Messages events.
  `ReducerInvariant.dfy`, `ReducerBudgets.dfy`, `ReducerSteps.dfy` and `ReducerRuns.dfy` carry its invariant
  over every run; `OneShotAnswer.dfy` compares the stream with the one-shot answer, `ReducerEnding.dfy` says
  what both report, and `OrderlyRuns.dfy` (over `OrderlyResponses.dfy`, `OrderlySteps.dfy` and
  `OrderlyCalls.dfy`) which responses are accepted. `ReducerObject.dfy` is the reducer as the object that
  updates its fields.
- Signed reasoning goes back into the next request, which `HistoryTranslation.dfy` translates;
  `HistoryItems.dfy` says which messages are accepted and what each block of them becomes. `UpstreamAccount.dfy`
  reads off the upstream events alone what a response said, `CloserWatch.dfy` which calls closed a reasoning
  item; `SealOrder.dfy` and `ReplayTurn.dfy` follow the seals through the reducer and back, `ReplayUpstream.dfy`
  is the round trip from events to items, `ReplayWitness.dfy` a run where it fails.
- `ThinkingSignature.dfy` (over `Base64Url.dfy`), `ToolNames.dfy` and `StrictSchema.dfy` (over `Worklist.dfy`)
  are the signature format, the collision-free renaming and the strict-schema check. `SealTerms.dfy` and
  `Base64Digits.dfy` say what is sealed and what opens, and `SchemaReading.dfy` which schemas are accepted,
  without the code's own steps.
- `DsmlText.dfy` is the tag language and the one-shot segmentation, `DsmlBody.dfy` the rewriting of a whole
  body, `DsmlRewriter.dfy` the streaming rewriter. `DsmlLocality.dfy`, `DsmlRefinement.dfy`,
  `DsmlStranding.dfy`, `DsmlStream.dfy` and `DsmlMessage.dfy` prove that the stream refines the body;
  `DsmlLimit.dfy`, `DsmlReading.dfy` and `DsmlAgreement.dfy` say exactly when, `DsmlCalls.dfy` which calls are
  made. `DsmlLifecycle.dfy`, `DsmlConservation.dfy` and `DsmlPasses.dfy` prove the lifecycle and that no text,
  nor anything around the blocks, is lost. `DsmlObject.dfy` is the rewriter as an object fed with bytes,
  `DsmlDelivery.dfy` the refinement from bytes to what a client assembles.
- `KimiFilter.dfy` is the thinking filter on values, `KimiStream.dfy` what it does to whole streams,
  `KimiObject.dfy` the filter as an object fed with bytes, `KimiAccepts.dfy` which streams it lets through and
  what a client keeps, `KimiPasses.dfy` what comes through as it is.
- `ModelCatalog.dfy`, `CatalogInvalidation.dfy` and `CatalogHistory.dfy` are processes over one disk, step by
  step; `CatalogExposure.dfy` says which of their runs can serve invalidated models, `CatalogListing.dfy` how
  each call is answered; `CatalogObject.dfy` is the same with objects.
- `JsonSpacing.dfy`, `ChatSigning.dfy`, `ChatHistory.dfy`, `ChatTranscript.dfy`, `RelayHistory.dfy` and
  `ChatReplay.dfy` are the chat translator, the relay's history check, and the round trip of a chat answer.
  `JsonTokens.dfy`, `ChatSaid.dfy`, `ChatAnswer.dfy` and `RelayPairing.dfy` say of them, message by message and
  block by block, what is accepted and what it becomes.

Where the source updates an object or loops over mutable state, the model has a class or a method that does the
same and is proved against a specification on values; the long-run properties are proved about the
specification.

What stands for things outside the model: tags, digests and the JSON codec are function parameters of which only
the laws stated in a `Lawful` predicate are used (a value that was read is written so that it reads back; tags
and payloads are not empty); of a JSON reader one more law is used where it says so, that a space after a comma
or colon outside strings does not matter. Reading a frame's fields is a function parameter too, so each event
arrives with its members read. `parse_dsml_tool_calls` is one function used by both sides. A network answer, a
clock reading, a random nonce and how far a disk write got are inputs of a step; nonces are taken never to
repeat.

Additions that the source guards with a checked add and a limit are unbounded naturals with the same limit:
overflow and limit report the same error there. Block indexes keep their 64-bit bound. The fields `seals` of the
reducer's state, `pieces` of a rewriter's step and `began` of a cache are records for the specification only.

Three promises turned out to hold under a condition, which is proved exactly.

- Replayed reasoning opens its signatures if and only if every call whose registration closed a reasoning item
  is the next item to open a block, which can be read off the upstream events
  (`ReplayUpstream.ReplayRestoresUpstream`). Two calls announced after one reasoning item and completed in the
  other order are a completed answer that cannot be handed back (`ReplayWitness.CrossedCallsAreNotHandedBack`).
  Names come back unless the reserved one was called and declared.
- The streaming rewriter agrees with the rewritten body on every cut of a message into deltas if and only if
  every block may follow whatever characters can be held back when it begins (`DsmlAgreement.CutsAgreeIffSafe`).
  What can be held back is read off the texts: fewer than 32 characters after a wrapper, or after a capture that
  can be given up. A text may follow if the two divide together as they do apart and each wrapper region fits
  the capture buffer up to its last character or holds nothing to recognise; any other block, only if nothing
  can be held back. A wrapper, three letters and then a tool call lose the letters for the client's text
  (`DsmlAgreement.TextAfterWrapperIsLost`).
- An invalidated catalog is served again in some continuation if and only if its removal was not done and either
  the cache is that identity's or, the marker not written either, another process's call still has the marker's
  nonce (`CatalogExposure.ServedAgainIffSurvives`). As long as later writes go through whole or not at all, the
  marker alone is enough (`CatalogExposure.HeldOffIffMarkedOrGone`).

## Model

| member | source | states |
|---|---|---|
| `MessageStream.AcceptedIffMessage` | desktop/gateway/src/anthropic_sse.rs:153-234 | The lifecycle acceptor reaches its end exactly on message_start, complete blocks numbered 0, 1, 2, ..., message_delta, message_stop, with pings anywhere before the stop; the blocks of that reading are the assembled ones. |
| `MessageStream.PingsMayBeInserted` | desktop/gateway/src/anthropic_sse.rs:154-159 | Pings before the end do not change where the lifecycle stands. |
| `MessageStream.BlocksRun` | desktop/gateway/src/anthropic_sse.rs:170-217 | Complete blocks numbered from zero are accepted after message_start and assemble to themselves. |
| `Framing.RulesAgree` | desktop/gateway/src/anthropic_sse.rs:252-267 | The rule that compares where blank lines end and the rule that compares where they start find the same frame end. |
| `Framing.ChunksDoNotMatter` | desktop/gateway/src/anthropic_compat.rs:392-404 | Feeding a buffer in two pieces finds the frames, and leaves the rest, of feeding it at once. |
| `Framing.NothingDropped` | desktop/gateway/src/anthropic_compat.rs:392-404 | Frames and rest concatenate to the buffer, and the rest holds no complete frame. |
| `Framing.LocateBoundary` | desktop/gateway/src/anthropic_compat.rs:392-404 | The scan returns the first blank line of either spelling and never points past the buffer. |
| `Framing.LocateEnd` | desktop/gateway/src/anthropic_sse.rs:252-267 | The scan returns the end of the first blank line of either spelling. |
| `SseValidator.OnlyCopies` | desktop/gateway/src/anthropic_sse.rs:58-85 | For any cut into chunks: what was released, kept back and left pending is determined by the whole frames of all bytes fed. |
| `SseValidator.ReleasedIsWholeFrames` | desktop/gateway/src/anthropic_sse.rs:58-103 | Released bytes are the bytes of some first frames, none of them message_stop; with the frame kept back and the pending rest they are all bytes fed. |
| `SseValidator.CompletesIffMessage` | desktop/gateway/src/anthropic_sse.rs:58-103 | Within the buffer bound and with nothing after the last frame, a stream completes exactly when its frames read as a message of the grammar, and then everything fed comes out again, message_stop from the end only. |
| `SseValidator.ReadableIsFed` | desktop/gateway/src/anthropic_sse.rs:58-85 | A stream whose frames are acceptable in order is never refused because of how it was cut, as long as each chunk fits the buffer. |
| `SseValidator.Validator.ValidateEvent` | desktop/gateway/src/anthropic_sse.rs:153-234 | The phase, open block and next index after an event are those of the lifecycle, or the event is refused exactly when the lifecycle refuses it. |
| `SseValidator.Validator.ValidateFrame` | desktop/gateway/src/anthropic_sse.rs:105-235 | A frame is refused exactly when it cannot be read or comes at the wrong time. |
| `SseValidator.Validator.TakeFrame` | desktop/gateway/src/anthropic_sse.rs:66-84 | One frame is released, kept back, or ends the stream; data after a failure refuses the chunk. |
| `SseValidator.Validator.DrainFrames` | desktop/gateway/src/anthropic_sse.rs:66-85 | All complete frames of the buffer are dealt with; the chunk is refused exactly when they are not all acceptable. |
| `SseValidator.Validator.Feed` | desktop/gateway/src/anthropic_sse.rs:58-85 | The object's fields and output after a chunk are those of the specification, or both refuse. |
| `SseValidator.Validator.FinishStream` | desktop/gateway/src/anthropic_sse.rs:87-103 | message_stop comes out here or not at all; a partial frame or an unfinished message is refused. |
| `StreamEndings.FailedIffError` | desktop/gateway/src/anthropic_sse.rs:153-234 | An acceptable stream has failed exactly if it holds an error, which is then its last event. |
| `StreamEndings.ErrorsEndIt` | desktop/gateway/src/anthropic_sse.rs:153-234 | An error may come at any time before the end; nothing comes after it, nor after the end. |
| `StreamEndings.SoFarIffCompletable` | desktop/gateway/src/anthropic_sse.rs:153-234 | Events without an error are acceptable so far exactly if further events make a complete message of them. |
| `StreamEndings.ErrorsAreLetThrough` | desktop/gateway/src/anthropic_sse.rs:58-103 | However it is cut, a stream that ends with an error is let through whole and may end there; any other end but message_stop is refused. |
| `ReducerRuns.EmittedIsAccepted` | desktop/gateway/src/codex_protocol.rs:1569-1685 | For every sequence of upstream events up to the first error, everything emitted is a stream the lifecycle accepts so far, its blocks mirror the tables, and it is complete exactly when the reducer is. |
| `ReducerRuns.RunKeeps` | desktop/gateway/src/codex_protocol.rs:1569-1685 | Every run keeps the invariant over block order, tables, active and pending block, claimed ids, signatures and byte totals, together with the emitted stream. |
| `ReducerRuns.ApplyKeeps` | desktop/gateway/src/codex_protocol.rs:1569-1685 | One event keeps that invariant and what it emits moves the stream's lifecycle along. |
| `ReducerRuns.ReachableIsBalanced` | desktop/gateway/src/codex_protocol.rs:2327-2393 | In every reachable state the stored bytes are the exact size of all that is held, the estimate that of its JSON, the text and reasoning totals their sums, each within its limit. |
| `ReducerBudgets.ReleaseIsExact` | desktop/gateway/src/codex_protocol.rs:2391-2393 | Releasing ciphertext when a block is sealed takes off exactly its bytes: the subtraction never saturates. |
| `ReducerBudgets.ClosePendingBalanced` | desktop/gateway/src/codex_protocol.rs:2099-2142 | Sealing a pending block trades ciphertext for its signature and keeps every total exact. |
| `EscapedText.EscapesCounted` | desktop/gateway/src/codex_protocol.rs:2418-2427 | The size estimated for a string is the number of bytes it takes inside a JSON literal (section 7 of RFC 8259). |
| `EscapedText.BytesCounted` | desktop/gateway/src/codex_protocol.rs:2327-2362 | The size stored for a string is the number of its bytes in UTF-8. |
| `ReducerSteps.ClosePendingKeeps` | desktop/gateway/src/codex_protocol.rs:2099-2142 | Sealing emits the signature and the stop of the block that was open, and keeps the invariant. |
| `ReducerSteps.RegisterToolKeeps` | desktop/gateway/src/codex_protocol.rs:1920-1968 | Registering a tool call seals what is pending, refuses a changed or reused identity, and keeps the invariant. |
| `ReducerSteps.FinishToolKeeps` | desktop/gateway/src/codex_protocol.rs:2144-2199 | Finishing a tool call settles its arguments, closes its block and keeps the invariant. |
| `ReducerSteps.FinishReasoningKeeps` | desktop/gateway/src/codex_protocol.rs:2047-2097 | Finishing a reasoning item settles its summary, holds its ciphertext and keeps the invariant. |
| `ReducerRuns.FinishTerminalKeeps` | desktop/gateway/src/codex_protocol.rs:2233-2278 | The terminal event closes what is left, refuses open blocks, gives an answer without any an empty text, and completes the stream. |
| `OrderlyRuns.OrderlyIffFits` | desktop/gateway/src/codex_protocol.rs:1569-2427 | Responses whose items come one after the other, each announced, sent in any pieces, and completed with or without repeating the whole: accepted exactly if ids and names are in order, calls parse to objects, signatures can be made and the byte totals stay within their limits, said of the items; then complete, and their account is the items. |
| `ReducerEnding.AcceptedMayCome` | desktop/gateway/src/codex_protocol.rs:1569-1685 | A run without an error begins with response.created, has it once, has no failure, untyped event or other incompletion, and nothing after the terminal event. |
| `ReducerEnding.CompletedReports` | desktop/gateway/src/codex_protocol.rs:2233-2278 | Complete exactly after the terminal event; then stream and one-shot answer carry the id first given and the tokens last reported, and stop for max_tokens exactly if cut short, else for tool_use exactly if a call was told of, else for end_turn. There is no one-shot answer before. |
| `ReducerEnding.CompletedTells` | desktop/gateway/src/codex_protocol.rs:1701-1765 | The blocks of both answers are the items told of, one for one and in order: texts, summaries under a seal of their own ciphertext, and calls with id, name and parsed arguments. |
| `OneShotAnswer.StreamAndAnswerAgree` | desktop/gateway/src/codex_protocol.rs:1701-1765 | For every completed run the one-shot answer fails for its size only, holds exactly what a client assembles from the emitted events, and says tool_use only if it holds a tool call. |
| `OneShotAnswer.CompletedAnswer` | desktop/gateway/src/codex_protocol.rs:1701-1765 | Every lookup along the block order succeeds: the answer is the held blocks in order. |
| `OneShotAnswer.BlockAgrees` | desktop/gateway/src/codex_protocol.rs:1701-1765 | One assembled block reads as the table entry of its key. |
| `ReducerObject.ResponsesReducer.ReserveText` | desktop/gateway/src/codex_protocol.rs:2327-2335 | Counts text bytes against the text, stored and estimated totals, or refuses. |
| `ReducerObject.ResponsesReducer.ReserveReasoning` | desktop/gateway/src/codex_protocol.rs:2337-2345 | Counts reasoning bytes against their totals, or refuses. |
| `ReducerObject.ResponsesReducer.ReserveReasoningOpaque` | desktop/gateway/src/codex_protocol.rs:2347-2355 | Counts ciphertext against the reasoning and stored totals, or refuses. |
| `ReducerObject.ResponsesReducer.ReserveIdentity` | desktop/gateway/src/codex_protocol.rs:2357-2362 | Counts an id with its overhead, raw and escaped. |
| `ReducerObject.ResponsesReducer.ReservePayload` | desktop/gateway/src/codex_protocol.rs:2364-2378 | Counts stored and escaped bytes against both limits. |
| `ReducerObject.ResponsesReducer.ReserveStored` | desktop/gateway/src/codex_protocol.rs:2380-2389 | Counts stored bytes against their limit. |
| `ReducerObject.ResponsesReducer.ReleaseStored` | desktop/gateway/src/codex_protocol.rs:2391-2393 | Takes released bytes off the stored total. |
| `ReducerObject.ResponsesReducer.ClaimOutputItem` | desktop/gateway/src/codex_protocol.rs:2299-2317 | An id is claimed for one kind only, and at most 1024 of them. |
| `ReducerObject.ResponsesReducer.NoteOutputItem` | desktop/gateway/src/codex_protocol.rs:2280-2297 | Notes an output item's id and kind as they are reported. |
| `ReducerObject.ResponsesReducer.RequireNoActiveBlock` | desktop/gateway/src/codex_protocol.rs:2319-2325 | Refuses a new block while one is open. |
| `ReducerObject.ResponsesReducer.AllocateIndex` | desktop/gateway/src/codex_protocol.rs:2411-2416 | Hands out the next block index. |
| `ReducerObject.ResponsesReducer.AppendText` | desktop/gateway/src/codex_protocol.rs:1790-1834 | Seals pending reasoning, opens the item's text block if need be, refuses overlaps and late deltas, appends and emits. |
| `ReducerObject.ResponsesReducer.FinishText` | desktop/gateway/src/codex_protocol.rs:1836-1855 | Closes the item's text block once. |
| `ReducerObject.ResponsesReducer.FinishMessageItem` | desktop/gateway/src/codex_protocol.rs:2201-2231 | A finished message adds text that was not streamed, and closes its block. |
| `ReducerObject.ResponsesReducer.AppendReasoning` | desktop/gateway/src/codex_protocol.rs:1857-1918 | Opens the item's thinking block if need be and appends, sealing another pending block first. |
| `ReducerObject.ResponsesReducer.FinishReasoning` | desktop/gateway/src/codex_protocol.rs:2047-2097 | Settles the summary, holds the ciphertext and leaves the block pending. |
| `ReducerObject.ResponsesReducer.ClosePendingReasoning` | desktop/gateway/src/codex_protocol.rs:2099-2142 | Seals the pending block for the tool that closed it, releases the ciphertext and emits signature and stop. |
| `ReducerObject.ResponsesReducer.RegisterTool` | desktop/gateway/src/codex_protocol.rs:1920-1968 | Registers a call under its item and call id, and binds the pending reasoning to it. |
| `ReducerObject.ResponsesReducer.StartRegisteredTool` | desktop/gateway/src/codex_protocol.rs:1970-2006 | Opens the block of a registered call when no other is open. |
| `ReducerObject.ResponsesReducer.AppendTool` | desktop/gateway/src/codex_protocol.rs:2008-2045 | Starts the call's block and appends argument text within the limit. |
| `ReducerObject.ResponsesReducer.FinishTool` | desktop/gateway/src/codex_protocol.rs:2144-2199 | Final arguments must extend the streamed ones and parse to an object; the block is closed. |
| `ReducerObject.ResponsesReducer.EnsureStarted` | desktop/gateway/src/codex_protocol.rs:1767-1788 | Emits message_start once. |
| `ReducerObject.ResponsesReducer.ReadUsage` | desktop/gateway/src/codex_protocol.rs:2395-2409 | Takes over the token counts an event reports. |
| `ReducerObject.ResponsesReducer.FinishTerminal` | desktop/gateway/src/codex_protocol.rs:2233-2278 | Closes what is left and emits message_delta and message_stop, or refuses an unfinished answer. |
| `ReducerObject.ResponsesReducer.Apply` | desktop/gateway/src/codex_protocol.rs:1569-1685 | An event's emissions and the new fields are those of the specification, and the emitted stream stays accepted; or both refuse with the same error. |
| `ReducerObject.ResponsesReducer.NonstreamResponse` | desktop/gateway/src/codex_protocol.rs:1701-1765 | The one-shot answer built by emptying the tables is the specified one. |
| `SealOrder.ReachableIsFollowed` | desktop/gateway/src/codex_protocol.rs:1920-1968 | In every reachable state, a sealed reasoning block that no tool closed is never directly followed by a tool block. |
| `UpstreamAccount.RunHoldsAccount` | desktop/gateway/src/codex_protocol.rs:1569-1685 | A completed run's blocks are the items its events reported complete, in that order, each held as reported: text, reasoning with its summary and ciphertext, calls with their id, name and arguments, streamed or final. |
| `CloserWatch.RunWatches` | desktop/gateway/src/codex_protocol.rs:1920-1968 | For a completed run: each call that a reasoning block was sealed for is the next block, exactly when a small automaton over the events says that each call registered while a reasoning item waited is the next item to open a block. |
| `ReplayUpstream.ReplayRestoresUpstream` | desktop/gateway/src/codex_protocol.rs:565-719 | Handing back the answer of a completed run is accepted exactly when every call whose registration closed a reasoning item is the next item to open a block; then the turn is the items the events told of, in order: texts, reasoning ids, summaries and ciphertext, call ids, names and parsed arguments; names differ only for the reserved one, if it was called and declared. |
| `ReplayWitness.CrossedCallsAreNotHandedBack` | desktop/gateway/src/codex_protocol.rs:1920-1968 | A reasoning item, calls A and B announced, B completed, A completed: the run completes and yields an answer, and the history that hands the answer back is refused. |
| `ReplayTurn.TurnRestores` | desktop/gateway/src/codex_protocol.rs:565-719 | For a completed reducer, the handed-back blocks translate exactly when each closing call is the next block, and then to what the reducer holds, adjacent texts joined. |
| `ReplayTurn.SealsMatchIffClosersFollow` | desktop/gateway/src/codex_protocol.rs:1920-1968 | Every seal is bound to the call right after its block exactly when each closing tool call is the next block. |
| `ReplayTurn.BlockStep` | desktop/gateway/src/codex_protocol.rs:565-719 | Each handed-back block translates exactly when its seal was made for what follows it, and adds its upstream item. |
| `HistoryItems.MessageAddsItsBlocks` | desktop/gateway/src/codex_protocol.rs:565-719 | A message of either role is accepted exactly if each block may stand where it does and the sizes fit; its blocks become, one for one and in order, the parts and items added, and the calls, answers and sizes known grow by just what they hold. |
| `HistoryTranslation.Translate` | desktop/gateway/src/codex_protocol.rs:565-719 | A message, its content a string or blocks, is translated to the specified turn, or to its first error. |
| `HistoryTranslation.PlainTextIsOneBlock` | desktop/gateway/src/codex_protocol.rs:584-588 | Between messages, string content becomes what the one text block with that string becomes, limit included. |
| `ThinkingSignature.SealedOpensOnlyInContext` | desktop/gateway/src/codex_protocol.rs:99-205 | A sealed signature opens under exactly the identity and tool it was sealed for, and yields what was sealed; elsewhere it reports a changed context. |
| `ThinkingSignature.OpenedWasTagged` | desktop/gateway/src/codex_protocol.rs:141-205 | Whatever opens carries this signer's tag over its payload and was sealed for that tool. |
| `SealTerms.SealedIffProper` | desktop/gateway/src/codex_protocol.rs:91-139 | A signature is made exactly for two digests, an item id and a call id of proper length, and a content and result of at most 8 MiB; and how it is spelled. |
| `SealTerms.OpensIffSpelled` | desktop/gateway/src/codex_protocol.rs:141-205 | A string opens exactly if it is the three fixed words, some encoded bytes and their encoded tag, the bytes being a payload made for that epoch, account and call; and it yields that payload's item and content. |
| `Base64Url.DecodeOfEncode` | desktop/gateway/src/codex_protocol.rs:117-139 | Decoding undoes unpadded base64url encoding (section 5 of RFC 4648). |
| `Base64Url.EncodeOfDecode` | desktop/gateway/src/codex_protocol.rs:157-170 | Nothing but an encoding decodes, so a payload or tag has one spelling. |
| `Base64Url.EncodingHasNoDot` | desktop/gateway/src/codex_protocol.rs:99-139 | Encoded parts never hold the dot that separates them. |
| `Base64Digits.EncodingSpellsBits` | desktop/gateway/src/codex_protocol.rs:117-130 | An encoding has a digit for every six bits begun, each the alphabet's digit for these bits, and no padding. |
| `ToolNames.FromRequest` | desktop/gateway/src/codex_protocol.rs:334-371 | The suffix search ends within as many steps as there are names and finds an alias no name of the request has. |
| `ToolNames.RenamingIsInjective` | desktop/gateway/src/codex_protocol.rs:334-382 | Renaming is injective on the names of a request, and mapping back undoes it. |
| `ToolNames.UpstreamNameSurvives` | desktop/gateway/src/codex_protocol.rs:373-382 | A name from upstream survives the round trip exactly unless it is the reserved name and the request declares that name. |
| `Decimals.DecimalReads` | desktop/gateway/src/codex_protocol.rs:334-371 | A numbered suffix reads as its number, without a leading zero. |
| `Decimals.ReadsDecimal` | desktop/gateway/src/codex_protocol.rs:334-371 | A string of digits without a leading zero is the spelling of what it reads as. |
| `Worklist.VisitAnyEntry` | desktop/gateway/src/codex_protocol.rs:993-1208 | Whichever entry of the worklist is visited next, and with whatever was counted before, the verdict is the same. |
| `Worklist.AnyOrderDecides` | desktop/gateway/src/codex_protocol.rs:993-1208 | Visiting the tree from its root in any order that comes to a verdict accepts exactly what the recursive reading with its depth and totals accepts. |
| `StrictSchema.ValidateStrictSchema` | desktop/gateway/src/codex_protocol.rs:922-1217 | The check accepts exactly when the root is an object schema, every subschema read recursively is legal and at most ten levels deep, and the totals are within budget. |
| `StrictSchema.CheckTree` | desktop/gateway/src/codex_protocol.rs:993-1216 | The explicit stack with running totals decides the recursive reading, and ends within the node budget. |
| `SchemaReading.StrictIffLawful` | desktop/gateway/src/codex_protocol.rs:922-1217 | Accepted exactly if the root is an object schema and no union, everything reached from it through branches, properties, items and definitions is fewer than ten steps in and keeps the law of its kind, and the totals over all of it are within their limits. |
| `SchemaReading.LawIsLegal` | desktop/gateway/src/codex_protocol.rs:1002-1208 | One subschema passes exactly if it is a lone reference that resolves, a union of two or more with nothing but a description and definitions beside it, or a typed schema whose keywords, required names, enum and constant fit its types, named as JSON Schema names them. |
| `SchemaReading.InsideIsDirect` | desktop/gateway/src/codex_protocol.rs:1002-1208 | What is visited next is exactly the branches of a union, the properties of an object, the items of an array, and the definitions. |
| `SchemaReading.ReferencesResolve` | desktop/gateway/src/codex_protocol.rs:1002-1040 | A reference to a definition under an escaped name (section 3 of RFC 6901) resolves exactly if the root has an object under that name. |
| `StrictSchema.FoundIsFirst` | desktop/gateway/src/codex_protocol.rs:1002-1012 | The member read is the first of that name. |
| `StrictSchema.Visit` | desktop/gateway/src/codex_protocol.rs:1000-1208 | One step checks a subschema's own rules, adds its cost and yields its children, or refuses. |
| `StrictSchema.CheckObject` | desktop/gateway/src/codex_protocol.rs:1060-1107 | An object schema is closed, and requires each of its properties exactly once. |
| `StrictSchema.CheckEnum` | desktop/gateway/src/codex_protocol.rs:1125-1169 | Enum values match the declared types, are written differently, and stay within the count and length limits. |
| `StrictSchema.CheckTyped` | desktop/gateway/src/codex_protocol.rs:1053-1185 | A typed schema has consistent keywords, legal properties, enum and const. |
| `StrictSchema.DistinctIffAllCounted` | desktop/gateway/src/codex_protocol.rs:1082-1092 | Comparing the size of the set with the length of the list finds duplicates exactly. |
| `SseDecoding.AnySplitAgrees` | desktop/gateway/src/codex_protocol.rs:1340-1371 | Feeding in two pieces yields the events, final state or error of feeding at once. |
| `SseDecoding.HeldIsBounded` | desktop/gateway/src/codex_protocol.rs:1353-1371 | Bytes held never exceed the bound of one event, however many were fed. |
| `SseDecoding.DecodesGroups` | desktop/gateway/src/codex_protocol.rs:1340-1413 | Decoding succeeds exactly when at every byte the open event and line fit and every completed group of lines parses, and yields those groups parsed, in order. |
| `SseDecoding.BlankLineSeparates` | desktop/gateway/src/codex_protocol.rs:1388-1395 | A blank line separates the events before it from those after it. |
| `SseDecoding.NoBlankLineNoEvent` | desktop/gateway/src/codex_protocol.rs:1388-1413 | Without a blank line no event is complete, and the open one gathers the lines that are not comments, in order. |
| `SseDecoding.LinesAreTheBytes` | desktop/gateway/src/codex_protocol.rs:1354-1365 | The lines, rejoined, are the bytes. |
| `SseDecoding.SseDecoder.ProcessLine` | desktop/gateway/src/codex_protocol.rs:1388-1413 | A blank line ends an event, a comment is skipped, any other line is added within the bound. |
| `SseDecoding.SseDecoder.FeedNext` | desktop/gateway/src/codex_protocol.rs:1353-1371 | Reads up to and including the byte that completes an event, or everything. |
| `SseDecoding.SseDecoder.Feed` | desktop/gateway/src/codex_protocol.rs:1340-1351 | All events completed by the bytes, in order, and the state after them. |
| `SseDecoding.SseDecoder.Finish` | desktop/gateway/src/codex_protocol.rs:1373-1386 | An open line counts as complete and an open event as ended. |
| `SseWriting.WrittenIsDecoded` | desktop/gateway/src/codex_protocol.rs:1340-1413 | Decoding what was written as lines of events, comments and blank lines, with either line ending, succeeds exactly if every event ended is readable and nothing outgrows the bound; then it yields just those events, in order. |
| `SseWriting.AnythingIsWritten` | desktop/gateway/src/codex_protocol.rs:1340-1413 | All bytes that end in a line feed were written so. |
| `SseWriting.EndIsTwoLineFeeds` | desktop/gateway/src/codex_protocol.rs:1340-1413 | At the end of the bytes an open line and event count as if line feeds had ended them. |
| `DsmlText.FindWrapperIsLeftmostShortest` | desktop/gateway/src/dsml_shim.rs:59-67 | The wrapper found starts at the leftmost opening tag that has a closing tag at all, with the shortest reach from there; one is found whenever there is any. |
| `DsmlText.AllForms` | desktop/gateway/src/dsml_shim.rs:59-67 | All eight spellings of a tag, with single or double bars and either name, are recognised. |
| `DsmlText.TagsAre` | desktop/gateway/src/dsml_shim.rs:60-66 | The tags are, between angle brackets: a slash or none, one bar or two, the word DSML, one bar or two, and one of two names. |
| `DsmlText.TagShape` | desktop/gateway/src/dsml_shim.rs:672-677 | A tag has its angle brackets at its ends only and is at most as long as the hold-back allows for. |
| `DsmlText.MatchOpen` | desktop/gateway/src/dsml_shim.rs:672-677 | The scan finds the first opening tag, or that there is none. |
| `DsmlText.MatchWrapper` | desktop/gateway/src/dsml_shim.rs:59-67 | The scan finds the first wrapper from a position on, or that there is none. |
| `DsmlText.SegmentDsmlText` | desktop/gateway/src/dsml_shim.rs:256-280 | The one-shot loop computes the text between recognised wrappers and their calls, in order. |
| `DsmlLocality.HoldBackNeverSplitsATag` | desktop/gateway/src/dsml_shim.rs:480-495 | With no complete opening tag in sight, no tag can start before the last 31 characters, whatever follows. |
| `DsmlLocality.FindWrapperStable` | desktop/gateway/src/dsml_shim.rs:498-501 | A wrapper found stays the one found when more text arrives. |
| `DsmlRefinement.DivideIsSegments` | desktop/gateway/src/dsml_shim.rs:256-280 | Taking a text apart one wrapper at a time and joining adjacent texts gives its one-shot segments. |
| `DsmlRefinement.TextAdvances` | desktop/gateway/src/dsml_shim.rs:445-529 | After any delta, what was let go followed by what is held, with whatever is still to come, divides as the whole text does. |
| `DsmlRefinement.GivingUpIsHarmless` | desktop/gateway/src/dsml_shim.rs:522-527 | Giving up an oversized buffer changes nothing when the region it began holds nothing to recognise from there on. |
| `DsmlMessage.StreamHoldsSegments` | desktop/gateway/src/dsml_shim.rs:445-594 | For a message of any blocks, however its texts are cut into deltas: a client assembles the segments of every text, calls numbered throughout, and the other blocks, as long as every block may follow what can be held back when it begins. |
| `DsmlMessage.StreamAgreesWithBody` | desktop/gateway/src/dsml_shim.rs:719-778 | Under the same condition, rewriting the stream and assembling it equals assembling it and rewriting the whole body, stop reason included. |
| `DsmlMessage.CutsHold` | desktop/gateway/src/dsml_shim.rs:551-575 | Whatever the cuts, between two blocks nothing is captured, no block is open, and what is held back is something that the texts so far can leave. |
| `DsmlMessage.UntaggedMayFollow` | desktop/gateway/src/dsml_shim.rs:480-495 | A text may follow held-back characters in which no opening tag starts, if its own regions fit the capture buffer or are harmless. |
| `DsmlAgreement.CutHolding` | desktop/gateway/src/dsml_shim.rs:551-575 | Everything that the texts can leave held back is left by some cut of them. |
| `DsmlAgreement.CutsAgreeIffSafe` | desktop/gateway/src/dsml_shim.rs:498-594 | For a message of any blocks, texts right after texts included: every cut of the texts agrees with the rewritten body exactly when every block may follow whatever can be held back when it begins. |
| `DsmlReading.ReadingsAgreeOrDiverge` | desktop/gateway/src/dsml_shim.rs:498-529 | Two readings of one text that take recognised regions from it at different places are the same, or one has a character where the other has a call. |
| `DsmlAgreement.TextAfterWrapperIsLost` | desktop/gateway/src/dsml_shim.rs:551-575 | An empty wrapper and three letters, then a tool call: the letters come out as a text delta inside the tool's block, and a client reads other content than the body's. |
| `DsmlDelivery.DeliveryHoldsSegments` | desktop/gateway/src/dsml_shim.rs:329-594 | However the bytes of a valid UTF-8 stream are cut into chunks, and its texts into deltas, a client assembles those segments and blocks, and nothing is held back at the end. |
| `DsmlDelivery.DeliveryAgreesWithBody` | desktop/gateway/src/dsml_shim.rs:719-778 | From bytes: what a client reads of the rewritten stream is the rewritten body. |
| `DsmlBody.RewriteNonstreamBody` | desktop/gateway/src/dsml_shim.rs:719-778 | The loop over the content replaces each text block that holds a call by its segments, numbers calls throughout and overrides the stop reason only then. |
| `DsmlCalls.EachCallHasItsId` | desktop/gateway/src/dsml_shim.rs:631-650 | The n-th call made for a message has the id that ends in n, with its name and input, and no two calls of a message have one id. |
| `DsmlCalls.BodyMakesItsCalls` | desktop/gateway/src/dsml_shim.rs:719-778 | Besides text, the rewritten body holds exactly the calls recognised, in order and numbered throughout, and the other blocks in their places; it waits for results exactly if a call was made and it would have ended. |
| `DsmlCalls.StreamMakesItsCalls` | desktop/gateway/src/dsml_shim.rs:552-650 | So does what a client assembles from the rewritten stream. |
| `DsmlLimit.UnfitIsShown` | desktop/gateway/src/dsml_shim.rs:522-527 | For any text with a region that does not fit, some cut into two loses or gains a call. |
| `DsmlLifecycle.RewritingKeepsLifecycle` | desktop/gateway/src/dsml_shim.rs:388-650 | A stream the lifecycle accepts, whose text blocks carry only text deltas, is rewritten to one it accepts: same phase, indexes contiguous. |
| `DsmlConservation.TextIsConserved` | desktop/gateway/src/dsml_shim.rs:388-650 | At any time, what was dealt with followed by what is held spells the input text, and output text is the part that was said. |
| `DsmlConservation.AllTextComesOut` | desktop/gateway/src/dsml_shim.rs:388-650 | At the end, output text plus recognised regions, in order, is exactly the input text. |
| `DsmlPasses.AroundPasses` | desktop/gateway/src/dsml_shim.rs:388-530 | The start, pings, errors, token counts and the end come through in their order and no more often; only the reason for stopping may change. |
| `Utf8Text.DecodeInPieces` | desktop/gateway/src/dsml_shim.rs:341-372 | Decoding chunk by chunk, each after what the one before left over, is decoding at once. |
| `Utf8Text.DecodeOfEncode` | desktop/gateway/src/dsml_shim.rs:341-372 | Valid UTF-8 (RFC 3629) decodes to its text with nothing left over. |
| `Utf8Text.DecodedIsTheBytes` | desktop/gateway/src/dsml_shim.rs:341-372 | For any bytes: the text decoded and the bytes left over are the bytes, and what is left does not begin with a character. |
| `DsmlObject.FeedingIsChunkIndependent` | desktop/gateway/src/dsml_shim.rs:374-386 | How the decoded text was cut makes no difference to frames, output and what is left. |
| `DsmlObject.ValidBytesAreAllHandled` | desktop/gateway/src/dsml_shim.rs:329-386 | However the bytes of a valid text are cut into chunks, its frames are handled in order and no byte is left over. |
| `DsmlObject.DsmlStreamRewriter.TextDelta` | desktop/gateway/src/dsml_shim.rs:596-618 | Says text in the open block, or opens a text block for it. |
| `DsmlObject.DsmlStreamRewriter.TextAsNewBlock` | desktop/gateway/src/dsml_shim.rs:620-629 | Says text and closes the block. |
| `DsmlObject.DsmlStreamRewriter.ToolUseEvents` | desktop/gateway/src/dsml_shim.rs:631-650 | One call as a complete block with the next id and index. |
| `DsmlObject.DsmlStreamRewriter.ScanPassing` | desktop/gateway/src/dsml_shim.rs:458-496 | Passes text, holding the last 31 characters back, or starts a capture at an opening tag. |
| `DsmlObject.DsmlStreamRewriter.ScanCapture` | desktop/gateway/src/dsml_shim.rs:498-529 | Turns a complete wrapper into calls or text and goes on with the rest, or gives an oversized buffer up. |
| `DsmlObject.DsmlStreamRewriter.OnTextDelta` | desktop/gateway/src/dsml_shim.rs:445-456 | Adds a delta to the buffer of the current state. |
| `DsmlObject.DsmlStreamRewriter.StopBlock` | desktop/gateway/src/dsml_shim.rs:551-575 | Says what is held, unless no block is open for it, and closes the block. |
| `DsmlObject.DsmlStreamRewriter.Flush` | desktop/gateway/src/dsml_shim.rs:577-594 | Says what is held, in a new block if need be, and closes it. |
| `DsmlObject.DsmlStreamRewriter.HandleEvent` | desktop/gateway/src/dsml_shim.rs:388-443 | Events are renumbered, captured or passed on as specified. |
| `DsmlObject.DsmlStreamRewriter.Feed` | desktop/gateway/src/dsml_shim.rs:329-332 | Text is framed and every complete frame handled. |
| `DsmlObject.DsmlStreamRewriter.FeedBytes` | desktop/gateway/src/dsml_shim.rs:329-386 | Bytes are decoded as far as they are complete, framed and handled. |
| `DsmlObject.DsmlStreamRewriter.FinalizeTail` | desktop/gateway/src/dsml_shim.rs:531-549 | What is left at the end of the bytes is said and the open block closed. |
| `ModelCatalog.RunsLoseNoUpdate` | desktop/gateway/src/codex_models.rs:743-760 | In every interleaving of processes, between the start of a call and its commit no marker was written: nothing else was committed or invalidated. |
| `ModelCatalog.RefreshesDoNotOverlap` | desktop/gateway/src/codex_models.rs:743-760 | Successful refreshes never overlap: the later one's call began after the earlier one was committed. |
| `CatalogInvalidation.RunsHonourInvalidation` | desktop/gateway/src/codex_models.rs:777-783 | After an invalidation whose marker and cache removal were both written, whatever any process serves for that identity was fetched by a call that began later: fresh, live, revalidated or stale. |
| `CatalogInvalidation.RunsHonourAtHome` | desktop/gateway/src/codex_models.rs:717-741 | However far its writes got, an invalidation is honoured in the same way by the process that made it. |
| `CatalogInvalidation.StepClean` | desktop/gateway/src/codex_models.rs:649-712 | A disk and calls without old models of an identity stay so, and serve only newer ones, through every step of any process. |
| `CatalogInvalidation.DroppingCleans` | desktop/gateway/src/codex_models.rs:777-783 | A fresh marker with the cache removed leaves nothing old that could still be committed or served. |
| `CatalogHistory.RunsHoldOff` | desktop/gateway/src/codex_models.rs:656-666 | From a run whose state is clean of an identity's older models, or barred by its invalid marker, every continuation without half-way writes keeps it so and serves nothing older. |
| `CatalogExposure.HeldOffIffMarkedOrGone` | desktop/gateway/src/codex_models.rs:656-783 | After a run that ends in an invalidation, no continuation without half-way writes serves older models, exactly when the marker was written, or no other process's call has the old nonce and the cache is not that identity's or already barred. |
| `CatalogExposure.ServedAgainIffSurvives` | desktop/gateway/src/codex_models.rs:717-783 | A run that ends in an invalidation has a continuation serving that identity older models exactly when the removal was not done and the cache is that identity's, or not even the marker was written and another process's call still has its nonce. |
| `CatalogExposure.NeverOlderIffClean` | desktop/gateway/src/codex_models.rs:635-783 | From any reachable state, no continuation serves older models exactly when no cache and no call that can still commit or fall back to one holds any. |
| `CatalogExposure.HoldsOffIffHeldOff` | desktop/gateway/src/codex_models.rs:656-666 | Among continuations whose writes are whole or absent, that is so exactly when a marker bars the identity or the state is clean. |
| `CatalogExposure.NothingWrittenIsNotEnough` | desktop/gateway/src/codex_models.rs:743-783 | From the initial state: fetch, commit, an invalidation that writes nothing, and another process is served the old models at once. |
| `CatalogExposure.MarkerAloneIsNotEnough` | desktop/gateway/src/codex_models.rs:743-783 | From the initial state: fetch, commit, an invalidation that writes its marker only, another identity's refresh that gets no further than its marker, and a third process is served the old models from a fresh cache. |
| `CatalogExposure.StaleFallbackIsServedToo` | desktop/gateway/src/codex_models.rs:685-715 | The same once the cache is too old to be served at once: it is the fallback when the upstream cannot be reached. |
| `CatalogHistory.RunsServeWhatWasReceived` | desktop/gateway/src/codex_models.rs:659-715 | Every snapshot served holds models received live for the same identity. |
| `CatalogHistory.RunsPublishImmutably` | desktop/gateway/src/codex_models.rs:599-618 | A process's published generations only grow, and one generation names one catalog. |
| `CatalogObject.CodexModelCatalog.PublishCandidate` | desktop/gateway/src/codex_models.rs:599-618 | An equal catalog is answered with the snapshot published earlier, source, age and generation included; any other is published under the next generation. |
| `CatalogObject.CodexModelCatalog.BeginList` | desktop/gateway/src/codex_models.rs:635-673 | Under the lock: an answer from a fresh cache, or a call holding the nonce and what is stale but usable. |
| `CatalogObject.CodexModelCatalog.CommitCacheIfCurrent` | desktop/gateway/src/codex_models.rs:743-760 | Marker and cache are written only if the nonce is still the one read at the start. |
| `CatalogObject.CodexModelCatalog.PersistInvalidation` | desktop/gateway/src/codex_models.rs:777-783 | A new marker says the identity is invalid, then the cache is removed. |
| `CatalogObject.CodexModelCatalog.FinishList` | desktop/gateway/src/codex_models.rs:674-715 | Commits, revalidates, invalidates, falls back or fails as the answer demands, and publishes what is served. |
| `CatalogObject.CodexModelCatalog.InvalidateIdentity` | desktop/gateway/src/codex_models.rs:717-741 | Unpublishes and remembers the identity, and persists that as far as the disk allows. |
| `CatalogListing.BeginAnswers` | desktop/gateway/src/codex_models.rs:635-673 | A call is answered at once exactly if it is not forced and meets a usable cache no older than the normal limit; any other call holds the nonce read and what may serve as fallback. |
| `CatalogListing.FinishAnswers` | desktop/gateway/src/codex_models.rs:674-715 | What each answer of the upstream leads to: what is written, what is served from which source and at what age, and when nothing is. |
| `CatalogListing.InvalidateAnswers` | desktop/gateway/src/codex_models.rs:717-741 | An invalidation serves nothing, unpublishes and bars the identity, writes the marker and removes the cache. |
| `CatalogListing.ServingPublishes` | desktop/gateway/src/codex_models.rs:599-618 | What is served is published, under the standing generation if it is what is published already and under the next one otherwise; nothing else changes what is published. |
| `CatalogListing.RunsServeInTime` | desktop/gateway/src/codex_models.rs:635-715 | In every run a fresh answer comes from an unforced call and is no older than the normal limit, a stale one from an unreachable upstream and no older than the stale limit, a live or revalidated one from a call just answered so. |
| `CatalogListing.FreshIsServedAtOnce` | desktop/gateway/src/codex_models.rs:635-673 | In every run an unforced call that meets a usable cache within the normal limit is answered from it at once. |
| `KimiStream.IndexesAddUp` | desktop/gateway/src/anthropic_compat.rs:94-109 | In every reachable state upstream indexes are output indexes plus dropped blocks, and an open or buffered block has the next ones. |
| `KimiStream.FilteringCommutesWithAssembly` | desktop/gateway/src/anthropic_compat.rs:111-337 | For every finished stream the filter accepts, filtering and then assembling is assembling and then keeping what the whole-answer filter keeps; output stays a complete message and the rest of the message is untouched. |
| `KimiStream.StreamRelated` | desktop/gateway/src/anthropic_compat.rs:111-337 | At every prefix of a well-formed stream the output is accepted so far and holds the kept blocks in order. |
| `KimiStream.FragmentsAgree` | desktop/gateway/src/anthropic_compat.rs:348-352 | A signature is valid fragment by fragment exactly when it is valid as a whole. |
| `KimiStream.MayEndBetweenBlocks` | desktop/gateway/src/anthropic_compat.rs:64-77 | A stream may end exactly where no block is open. |
| `KimiFilter.FilterNonstream` | desktop/gateway/src/anthropic_compat.rs:354-390 | Succeeds exactly when the content is not too long and every thinking block fits; the result is the blocks that are no thinking or whose signature is not empty and has no blank character, in their order. |
| `KimiAccepts.StreamKeepsTheUsable` | desktop/gateway/src/anthropic_compat.rs:111-390 | A client of the filtered stream holds exactly the blocks that are no thinking or whose signature is not empty and has no blank character, in their order. |
| `KimiAccepts.PassedIffPassable` | desktop/gateway/src/anthropic_compat.rs:111-337 | A stream the lifecycle accepts is let through exactly if every frame is within the sizes where it comes. |
| `KimiPasses.AroundPasses` | desktop/gateway/src/anthropic_compat.rs:111-337 | Of a stream without errors all that is around the blocks comes through, in its order and no more often: the message's own events, pings, comments and unknown frames. |
| `KimiPasses.ErrorsPass` | desktop/gateway/src/anthropic_compat.rs:111-337 | An error is passed on at once wherever it comes, and leaves no block open. |
| `KimiObject.ChunkingDoesNotMatter` | desktop/gateway/src/anthropic_compat.rs:49-62 | A stream whose frames and remainder fit the frame bound gives the same output, final state or error however it is cut. |
| `KimiObject.KimiServerToolFilter.CompleteUpstreamBlock` | desktop/gateway/src/anthropic_compat.rs:94-100 | Counts an upstream block, or reports overflow. |
| `KimiObject.KimiServerToolFilter.AllocateOutputIndex` | desktop/gateway/src/anthropic_compat.rs:102-109 | Hands out the next output index, or reports overflow. |
| `KimiObject.KimiServerToolFilter.RewriteFrame` | desktop/gateway/src/anthropic_compat.rs:111-189 | A frame is passed on, buffered, renumbered or refused as specified. |
| `KimiObject.KimiServerToolFilter.RewriteOutputBlockFrame` | desktop/gateway/src/anthropic_compat.rs:191-230 | Inside a passed-on block only its own deltas and stop, pings and errors come through. |
| `KimiObject.KimiServerToolFilter.RewriteThinkingFrame` | desktop/gateway/src/anthropic_compat.rs:232-337 | A thinking block is buffered within its bounds. |
| `KimiObject.KimiServerToolFilter.ReleaseThinking` | desktop/gateway/src/anthropic_compat.rs:303-333 | A finished thinking block is released under the next index if its signature holds, else only its pings. |
| `KimiObject.KimiServerToolFilter.Feed` | desktop/gateway/src/anthropic_compat.rs:49-62 | Every complete frame is rewritten, and too long a remainder refused. |
| `KimiObject.KimiServerToolFilter.Finalize` | desktop/gateway/src/anthropic_compat.rs:64-77 | Refuses an open block or a partial frame. |
| `ChatTranscript.AcceptedIsWellAnswered` | desktop/gateway/src/openai_chat.rs:321-497 | An accepted history becomes a transcript in which each reply's calls are distinct and answered exactly once each by the turns right after it, before any other. |
| `ChatHistory.TranslateHistory` | desktop/gateway/src/openai_chat.rs:321-497 | The loop over messages computes the specified transcript, or the first error. |
| `ChatHistory.TranslateMessage` | desktop/gateway/src/openai_chat.rs:321-497 | One message adds its turns and moves the pending and seen call ids along, or is refused. |
| `ChatSaid.MessageSays` | desktop/gateway/src/openai_chat.rs:321-497 | A message is accepted exactly if each block may stand where it does, what waits for an answer is answered, and a reply says something under a signature that holds; it adds the turns its blocks say, and moves the call ids along. |
| `ChatSaid.HistorySays` | desktop/gateway/src/openai_chat.rs:321-497 | A history is accepted exactly if each message is and no call stays open; its transcript is what the messages say. |
| `RelayHistory.RelayedHistoriesPair` | desktop/gateway/src/anthropic_compat.rs:849-937 | A history the relay accepts is never refused by the chat translator for the pairing of calls and results. |
| `RelayHistory.ValidateRelayToolHistory` | desktop/gateway/src/anthropic_compat.rs:849-937 | Succeeds exactly on the histories whose calls are unique and all answered by the next user message. |
| `RelayPairing.ValidIffPaired` | desktop/gateway/src/anthropic_compat.rs:849-937 | Accepted exactly if each message is sound, no call id comes twice, each user message answers just the calls of the reply before it, each once, and no calls are followed by anything else or by nothing. |
| `ChatSigning.SealedVerifiesInContext` | desktop/gateway/src/openai_chat.rs:55-130 | Sealed reasoning verifies in exactly the contexts with the same model, the same tool bindings and a reasoning text of the same digest. |
| `ChatAnswer.SealedIfProper` | desktop/gateway/src/openai_chat.rs:55-169 | Reasoning is sealed exactly if model, reasoning, and the ids and names of its calls are proper and the signature is not too long. |
| `JsonSpacing.DumpPythonStyle` | desktop/gateway/src/openai_chat.rs:219-243 | The scan adds a space after each comma and colon outside strings, and nothing else. |
| `JsonTokens.TokensAreSpaced` | desktop/gateway/src/openai_chat.rs:219-243 | Of text in characters and string literals, commas and colons outside literals get a space and nothing else changes. |
| `JsonTokens.EveryTextIsTokens` | desktop/gateway/src/openai_chat.rs:219-243 | Every text that leaves no literal open is such text. |
| `JsonSpacing.SpacingKeepsPlace` | desktop/gateway/src/openai_chat.rs:219-243 | Added spaces stand outside strings: every prefix leaves off inside or outside a string as before. |
| `JsonSpacing.SpacedReadsTheSame` | desktop/gateway/src/openai_chat.rs:219-243 | Spaced text reads as the text itself, for any reader to which a space after a comma or colon outside strings does not matter. |
| `ChatReplay.OpenaiToAnthropic` | desktop/gateway/src/openai_chat.rs:606-777 | The answer, or the first error, is the specified one; calls are checked in order and reasoning sealed with their bindings. |
| `ChatAnswer.AnswerSays` | desktop/gateway/src/openai_chat.rs:606-777 | An answer is accepted exactly if its id, usage, reason and calls are good; the client is told its reasoning sealed with those calls, its text and its calls, and why it stopped. |
| `ChatReplay.ReplayAsSseEvents` | desktop/gateway/src/openai_chat.rs:785-889 | The loop emits message_start, a ping, one complete block per content block, message_delta and message_stop. |
| `ChatReplay.ReplayAssembles` | desktop/gateway/src/openai_chat.rs:785-889 | What an answer replays to is accepted, and a client reads the same content, ids, stop reason and usage back from it. |
| `ChatReplay.UpstreamAnswerAssembles` | desktop/gateway/src/openai_chat.rs:606-889 | That holds of every answer made from an upstream one, tool inputs being values that were read. |
| `ChatReplay.AnswerGoesBack` | desktop/gateway/src/openai_chat.rs:446-480 | Returned as history under the same signer and with fresh tool ids, every produced answer is accepted: its signature verifies and the turn holds the upstream's own reasoning, text and calls. |
| `ChatReplay.AnsweredHistoryTranslates` | desktop/gateway/src/openai_chat.rs:321-497 | A history that ends in such an answer and the results of its calls translates to that reply and one answer to each call. |

## Left out

- Cryptography: HMAC, SHA-256 and random bytes are parameters; that tags cannot be forged is not claimed.
- Byte-level JSON and field-by-field validation that one branch settles: events and blocks arrive with their members read.
- `parse_dsml_tool_calls`, parameter coercion and schema matching of recognised calls: one function of the region's text.
- Files, permissions, symbolic links, syncing, HTTP, retries and timeouts: a locked section is one step, a request one answer.
- Two locked sections of one step of the catalog in one process overlapping with a third thread of it: a process runs one call at a time, as its own locks make it.
- The behaviour of a reducer, filter, validator or decoder after it has returned an error.
- ReducerObject.ResponsesReducer.Apply: says nothing about the fields after an error, because the run ends there and the events collected are discarded.
- HistoryTranslation.Translate: image sources and tool results are given as already read, and a user's other content kinds are one refused kind.
- DsmlMessage.StreamHoldsSegments: text blocks start empty, and carry text deltas only.
- OrderlyRuns.OrderlyIffFits: items that overlap in time have no such condition here; what an accepted run with them holds and reports is said by the other theorems about runs.
- KimiPasses.AroundPasses: pings inside a thinking block that an error cuts off are dropped with it, as the source drops them.
- ReplayUpstream.ReplayRestoresUpstream: arguments come back parsed and written again, not spelled as they were.
- DsmlLifecycle.RewritingKeepsLifecycle: block indexes only; which block leftover text lands in is not constrained.
- KimiStream.FilteringCommutesWithAssembly: a comment frame counts as a ping; frames of unknown type are outside the lifecycle.
- CatalogHistory.RunsPublishImmutably: generations are unbounded; the 64-bit counter's wrap-around is not modelled.
- ChatHistory.TranslateHistory: the system prompt, tool declarations, tool choice and sampling parameters of the request are not part of this model.
- ChatReplay.ReplayAsSseEvents: defaults for members a translated answer always has are not part of this model.
- Invalid UTF-8 at the end of a stream, which the rewriter replaces, and the bare frame it may leave without a blank line.
- The relay's other normalisers, model resolution and listing, request translation outside a message's blocks, transport, configuration and the user interface.
