# Verified models of the broker and ACP host cores

Dafny models of the stateful cores of the repository, with proofs about whole runs:
the ACP turn translator, capacity admission, the JSON-RPC stdio client, canvas scene
writes and their tier gate, the dialog notification clock, the commit backfill pool,
address books and turn analytics.

Each core comes in three layers.

- A *machine*: functions that say what one event does to a state. The state carries
  the history of everything sent, saved or settled, so a statement about a state is a
  statement about a whole run.
- *Theorems* about every run of that machine, in terms of the events alone, or of an
  independent reading of the history (a client folding deltas, the newest write of a
  canvas, the chunks that arrived, the edits that have a Bash before them).
- A *class* with the fields and the loops of the source, whose methods are proved to
  compute the machine, so that the theorems are theorems about it.

| file | core |
|---|---|
| `Transcript.dfy` | the translator as a machine over values |
| `TranscriptReading.dfy` | how a transcript and a delta stream are read; merged blocks |
| `TranslatorSteps.dfy`, `TranslatorRuns.dfy` | what one event, and one run, emits |
| `TranslatorTheorems.dfy` | the translator's guarantees about order, streaming and pairing |
| `TranslatorContents.dfy`, `TranslatorUuids.dfy` | what its entries say, and their identifiers |
| `TranslatorHeap.dfy` | the translator with its shared arrays, and what stays frozen |
| `CapacityMath.dfy`, `CapacityLedger.dfy`, `CapacityAdmission.dfy` | floor, headroom, reservations, the fill loop |
| `JsonRpcFraming.dfy`, `JsonRpcClient.dfy` | line framing, and the table of pending calls |
| `CanvasRoom.dfy` | rooms, write-behind timers and disk |
| `CanvasSanitize.dfy`, `CanvasTier.dfy` | the sanitizer, the base signature, guest writes |
| `CanvasGuests.dfy` | guests in a room: the gate joined with the baseline it measures against |
| `AttentionNotify.dfy` | the dialog push clock and its ceiling |
| `CommitBackfill.dfy` | workers draining one cursor |
| `AddressBook.dfy` | slugs, suffixes and per-caller books |
| `Analytics.dfy` | retries, per-conversation accumulators, the batch queue |
| `Wrappers.dfy`, `Collections.dfy`, `Ascii.dfy` | shared small definitions |

Asynchrony is modelled as interleaving: one step per callback, timers as tokens that the
event loop holds until they are cancelled or fire. Clocks, answers of the network,
outcomes of transactions and of spawns, and parsed messages are inputs of the steps.

## Where the code differs from what it says

The models follow the code. Each difference is proved at a concrete input, and where it
breaks a promise the exact condition is proved too.

- Ending a turn resets the configured agent name to `acp` (translator.ts:220, 648): from
  the second turn on, tool entries carry the default tag (`AgentTagIsLost`;
  `EntriesAreAppendedAndTagged` says exactly when).
- Input that arrives only in a repeated `tool_call` is dropped (translator.ts:338), so
  such a call can end its turn without an entry (`RepeatedToolCallIsIgnored`;
  `TurnIsSettled` says exactly which ids get entries).
- A tool's name is not frozen at first sight, as translator.ts:344-349 says: the update
  that commits the use decides it (`AnnouncedNameIsReplaced`;
  `NameIsTakenFromTheCommittingUpdate`).
- A call announced as failed and never updated gets a result that is not marked as an
  error (`FailureTellsOnlyThroughUpdates`).
- The reserved floor never falls with time if and only if the ramp is off, or has a
  finite length and goes up (its multiplier is finite, or the base is zero): an infinite
  or NaN multiplier clamps the peak to zero, and with an infinite or NaN length the
  floor before the end of the window is NaN (`FloorCollapses`, `EndlessRampHasNoFloor`;
  `FloorNeverFallsExactly`, `FloorIsAFractionExactly`).
- A zero estimate is admitted even without telemetry, because availability is clamped
  at zero (`ZeroEstimateAlwaysAdmits`).
- A response with `"error": null` or another falsy error resolves its call
  (jsonrpc.ts:212), though section 5 of the JSON-RPC 2.0 Specification has no such
  success (`NullErrorResolves`; `OnlyMatchingResponsesSettle`).
- A conforming message with a null id is not recognised (jsonrpc.ts:54-61): the error
  response that section 5 requires when a request could not be read is reported as
  invalid, and a request with a null id is taken for a notification
  (`NullIdsAreNotRecognised`; `ConformingMessagesAreRecognised` says exactly which
  conforming messages are recognised).
- Room, baseline and disk can disagree, against canvas-room.ts:14-15: after the last
  peer leaves with a persist pending, the baseline is the last saved scene, which is the
  newest exactly when nothing is pending (`EmptiedRoomForgetsNewestScene`;
  `ColdBaseline`).
- The gate does not keep base elements untouched, against canvas-sanitize.ts:86-88 and
  121-122: it looks at ids and versions only, so under an unchanged version any base
  element can be rewritten, plain ids or not (`GateAcceptsARedrawnElement`). The elements
  themselves are kept exactly when there are none (`GateKeepsElementsExactly`).
- Nor does an identical signature always mean the same (id, version) pairs: with
  delimiters in ids it is ambiguous (`GateAcceptsAChangedBase`). When ids and versions
  leave the delimiters alone it pins the pairs (`SignatureIsMultisetEquality`), though
  never the content. For ids of any form, all accepted comment writes keep the pairs
  exactly when the signature holds at most one colon (`GateKeepsBaseExactly`).
- In a room, the gate guards the newest scene exactly as long as the baseline signs as
  that scene does (`GateGuardsNewestExactly`). It does not when the broadcast copy lost a
  base image, or a live scene was dropped with its persist pending (`DroppedImageIsLost`,
  `UnsavedDrawingIsLost`; `BaselineAgreesExactly`).
- An address-book id whose target is the empty string counts as free and is given away
  (address-book.ts:72): existing ids keep their meaning exactly when the target is
  listed already or the next free id is no key of the book (`EmptyTargetLosesItsId`;
  `MeaningsKeptExactly`).
- Slugging a slug changes it exactly when the cut at 24 characters left a hyphen at the
  end (`CutCanLeaveAHyphen`; `SluggingIsStable`).
- The tally of the commit backfill can exceed the number of payloads: an error response
  is counted before its body is read for the log, inside the `try` whose `catch` counts
  a failure again (backfill-commits-post.ts:51-57). The sum is the number of payloads
  exactly when every error body that was read could be read, and at most three more
  (`UnreadableBodyCountsTwice`; `CompletionPostsEverything`).
- A turn whose project lookup throws is lost, because its accumulator is deleted first
  (analytics-store.ts:510, 522, 537: `FailedLookupLosesTheTurn`; `StopMakesTheTurn`).

## Model

| member | source | states |
|---|---|---|
| TranslatorTheorems.TranscriptHoldsEveryChunk | src/acp-agent-host/translator.ts:259-491 | for every sequence of updates ended by a flush, the run entries hold exactly the non-empty chunks in arrival order, each run maximally merged and non-empty, and text and tool uses stand in order of arrival |
| TranscriptReading.MergedFormIsUnique | src/acp-agent-host/translator.ts:295-303 | a text has one form of maximal same-kind blocks, so the previous row fixes every run entry |
| TranscriptReading.MergeIsFaithful | src/acp-agent-host/translator.ts:290-334 | coalescing fragments keeps every character in order and leaves no two neighbours of a kind |
| TranslatorTheorems.SegmentsKeepChunks | src/acp-agent-host/translator.ts:473-491 | cutting a run of events at its boundaries keeps every chunk once and in order, and a flush leaves none open |
| TranslatorTheorems.StreamRebuildsTranscript | src/acp-agent-host/translator.ts:281-334 | at every moment the deltas are well bracketed, and folding the k-th group by index gives the content of the k-th run entry |
| TranslatorRuns.RunIsFaithful | src/acp-agent-host/translator.ts:281-491 | the invariant over all runs: run pointers, stream flag and pending blocks agree, the live block is the last one, stream and transcript mirror each other |
| TranslatorTheorems.ToolsArePaired | src/acp-agent-host/translator.ts:493-547 | within a turn each id gets at most one use and one result, the result only after the use |
| TranslatorTheorems.TurnIsSettled | src/acp-agent-host/translator.ts:580-600 | after a flush each id has use and result exactly when the status in force at one of its updates or at the end of the turn was "completed", "failed" or "cancelled", its use alone when input was accepted without any of these, and no entry otherwise |
| TranslatorTheorems.RepeatedToolCallIsIgnored | src/acp-agent-host/translator.ts:336-338 | a turn whose only input for an id came in a repeated tool_call ends without an entry for that id |
| TranslatorTheorems.EntriesAreAppendedAndTagged | src/acp-agent-host/translator.ts:493-547 | entries are only appended, and tool entries carry the configured agent until the first turn end and the default after |
| TranslatorTheorems.RunAgent | src/acp-agent-host/translator.ts:647-648 | the agent in force after any run |
| TranslatorTheorems.NameIsTakenFromTheCommittingUpdate | src/acp-agent-host/translator.ts:403-442 | the update that commits a use adds an entry whose tool name is resolved from that update |
| TranslatorTheorems.ToolNamesExactly | src/acp-agent-host/translator.ts:247-251 | a title names the tool when it is not empty and holds no slash, dot or space; otherwise the category does, or `tool` |
| TranslatorTheorems.AgentTagIsLost | src/acp-agent-host/translator.ts:647-648 | a two-turn run whose second tool use carries the default agent |
| TranslatorTheorems.AnnouncedNameIsReplaced | src/acp-agent-host/translator.ts:403-408 | a run in which a call announced as one tool is committed under another name |
| TranslatorContents.UpdateSaysWhatArrived | src/acp-agent-host/translator.ts:403-455 | a use that an update adds carries the name and input on record; a result carries the last word on output (raw output over metadata over streamed text) and an error flag exactly when an update of the turn told of a failing exit or left a failing status |
| TranslatorContents.FlushSaysWhatArrived | src/acp-agent-host/translator.ts:580-645 | the same for the entries of a flush; the last reported usage goes on the closing run alone, and the closing entry comes last with the time since the turn began |
| TranslatorContents.FailureTellsOnlyThroughUpdates | src/acp-agent-host/translator.ts:583-600 | a run in which a call announced as failed gets use and result at the flush, the result not marked as an error |
| TranslatorUuids.EntriesHaveTheirOwnUuids | src/acp-agent-host/translator.ts:340-364 | no two entries of a transcript ever share an identifier |
| TranslatorHeap.Translator.constructor | src/acp-agent-host/translator.ts:203-222 | a fresh translator has nothing pending and nothing handed out |
| TranslatorHeap.Translator.ApplyUpdate | src/acp-agent-host/translator.ts:259-279 | one update computes the machine on shared arrays; what is returned is what was newly sent, and no object handed out before changes |
| TranslatorHeap.Translator.HandleChunk | src/acp-agent-host/translator.ts:290-334 | the in-place append touches only blocks still pending |
| TranslatorHeap.Translator.FlushActiveRun | src/acp-agent-host/translator.ts:473-491 | the pending array is handed out and replaced by a new one |
| TranslatorHeap.Translator.HandleToolCall | src/acp-agent-host/translator.ts:336-376 | first sight of a call: record it, end the run, commit the use if there is input |
| TranslatorHeap.Translator.HandleToolCallUpdate | src/acp-agent-host/translator.ts:378-459 | absorb the update, commit the use on input, commit the result on a terminal status |
| TranslatorHeap.Translator.CommitToolUse | src/acp-agent-host/translator.ts:493-516 | a use is sent at most once |
| TranslatorHeap.Translator.CommitToolResult | src/acp-agent-host/translator.ts:518-547 | a result is sent at most once |
| TranslatorHeap.Translator.ApplyPromptUsage | src/acp-agent-host/translator.ts:560-565 | reported token counts replace the kept ones |
| TranslatorHeap.Translator.FlushTurn | src/acp-agent-host/translator.ts:580-650 | the end of a turn: calls in insertion order, the last run with its usage, the closing entry, the reset; nothing sent before changes |
| CapacityMath.FloorIsAFraction | src/broker/capacity-floor.ts:40-69 | with a ramp of finite length the floor lies between 0 and 0.95 |
| CapacityMath.FloorIsAFractionExactly | src/broker/capacity-floor.ts:40-69 | for any configuration, infinite and NaN tunables included, the floor is such a fraction at all times if and only if the ramp is off or has a finite length |
| CapacityMath.BaseIsClamped | src/broker/capacity-floor.ts:40-43 | the base is the configured fraction between 0 and 0.95, and nothing when that is no finite number |
| CapacityMath.FloorIsFlatWithoutRamp | src/broker/capacity-floor.ts:57-58 | without a window end, ramp hours or a multiplier above one the floor is the base at all times |
| CapacityMath.FloorRampsLinearly | src/broker/capacity-floor.ts:60-69 | otherwise it is the base before the last hours, grows in proportion to the part of them that has passed, and holds base times multiplier, at most 0.95, from the end on |
| CapacityMath.FloorBounds | src/broker/capacity-floor.ts:55-69 | the floor lies between the clamped base and the ramped peak |
| CapacityMath.FloorNeverFalls | src/broker/capacity-floor.ts:55-69 | the floor never falls as time advances, across the three regions of the ramp |
| CapacityMath.FloorNeverFallsExactly | src/broker/capacity-floor.ts:40-69 | for any configuration the floor never falls if and only if the ramp is off, or has a finite length and goes up |
| CapacityMath.FloorCollapses | src/broker/capacity-floor.ts:40-69 | an infinite multiplier under which half the budget is reserved before the ramp and nothing at its end |
| CapacityMath.EndlessRampHasNoFloor | src/broker/capacity-floor.ts:61-68 | an infinite ramp length under which the floor is NaN |
| CapacityMath.AvailableNeverRises | src/broker/capacity-math.ts:32-48 | available tokens never rise with time at fixed readings and reservations |
| CapacityMath.HeadroomIsGateDistance | src/broker/capacity-math.ts:23-29 | headroom is the distance of the raw reading from 75 percent in tokens, and nothing past that, without a reading, or with one that is no finite number |
| CapacityMath.PercentageIsClamped | src/broker/capacity-math.ts:86-89 | the recorded percentage is the reading between 0 and 100, and 100 for one that is no finite number |
| CapacityMath.RoomIsGateDistance | src/broker/capacity-math.ts:23-48 | a positive need fits exactly when the reading is a finite number and, as tokens of the budget and never below zero, together with outstanding, floor and need stays at or below 75 percent of the budget |
| CapacityMath.BestIsFirstMaximum | src/broker/capacity-math.ts:51-70 | the chosen profile is the first of those with the most available capacity |
| CapacityMath.LeastResetIsLeast | src/broker/capacity-math.ts:76-84 | the wake time is the least reset that the readings of the candidates tell, and there is none exactly when none tells one |
| CapacityMath.ComputeSleep | src/broker/capacity-math.ts:76-84 | the loop computes that least reset |
| CapacityLedger.AdmitsExactly | src/broker/capacity-ledger.ts:69-91 | a positive estimate is admitted exactly when on some candidate the raw reading, what is outstanding, the floor and the estimate together stay at or below 75 percent of the budget, and lands on such a candidate |
| CapacityLedger.ZeroEstimateAlwaysAdmits | src/broker/capacity-math.ts:36-48 | an estimate of zero is always admitted; without any reading nothing else is |
| CapacityLedger.NeverOvershoots | src/broker/capacity-ledger.ts:56-162 | from an empty ledger, under any mix of admissions and settlements, each profile has nothing outstanding, or a finite reading that with outstanding and floor stays at or below 75 percent of the budget |
| CapacityLedger.OutstandingWithout | src/broker/capacity-ledger.ts:56-60 | the sum of reservations does not depend on the order of summation |
| CapacityLedger.OutstandingAddsUp | src/broker/capacity-ledger.ts:56-60 | an empty ledger has nothing outstanding; a new reservation adds its estimate to its own profile and nothing to any other |
| CapacityLedger.Ledger.OutstandingTokens | src/broker/capacity-ledger.ts:56-60 | the loop computes that sum |
| CapacityLedger.Ledger.BestFor | src/broker/capacity-ledger.ts:62-65 | the emptiest candidate by oracle and reservations |
| CapacityLedger.Ledger.AdmitBest | src/broker/capacity-ledger.ts:69-143 | reserve against the emptiest candidate when it fits, otherwise change no reservation and give the wake time; one decision is recorded whose headroom, outstanding, floor and availability add up and bear out the verdict |
| CapacityLedger.Ledger.SettleTask | src/broker/capacity-ledger.ts:148-162 | the reservation goes, an unknown reference changes nothing |
| CapacityLedger.Ledger.StarveTask | src/broker/capacity-ledger.ts:166-191 | starving records a decision with availability, floor and percentage, and changes no reservation |
| CapacityAdmission.FillIsMaximal | src/broker/capacity-admission.ts:79-105 | when a fill ends with free slots, no task left queued fits given the reservations at the end |
| CapacityAdmission.NothingQueuedFits | src/broker/capacity-admission.ts:79-105 | the same in terms of the gate: with free slots left no candidate, the default one when none is named, could take the positive need of any queued task without passing 75 percent of the budget |
| CapacityAdmission.DenialStands | src/broker/capacity-math.ts:37-70 | with more outstanding everywhere, what was denied is still denied |
| CapacityAdmission.FillRaisesOutstanding | src/broker/capacity-admission.ts:87-98 | a fill only adds to what is outstanding, failed spawns included |
| CapacityAdmission.FillConservesTasks | src/broker/capacity-admission.ts:87-104 | dispatched and still queued tasks riffle back to the queue, each in its order |
| CapacityAdmission.FillLaunchesDispatched | src/broker/capacity-admission.ts:95-97 | in-flight grows by exactly the dispatched tasks that spawned |
| CapacityAdmission.FillBoundsInflight | src/broker/capacity-admission.ts:87 | in-flight never exceeds the concurrency limit unless it did before |
| CapacityAdmission.FillReservesDispatched | src/broker/capacity-admission.ts:88-97 | new reservations are exactly those of the dispatched tasks that spawned |
| CapacityAdmission.FillKeepsReservations | src/broker/capacity-admission.ts:88-97 | earlier reservations are untouched and each new one holds its task's estimate |
| CapacityAdmission.FillNeverOvershoots | src/broker/capacity-admission.ts:79-105 | a fill keeps every profile within the gate, measured on the raw reading |
| CapacityAdmission.WakeIsLeastReset | src/broker/capacity-admission.ts:98-104 | a fill that leaves tasks with slots free wakes at the least known reset of the candidates; one that is full or leaves nothing sets no wake time |
| CapacityAdmission.AdmissionRun.AdmitAvailable | src/broker/capacity-admission.ts:79-105 | the loop with its splices computes the fill, and terminates |
| CapacityAdmission.AdmissionRun.StarveAll | src/broker/capacity-admission.ts:108-121 | every queued task is starved, once and in order, with one decision each |
| CapacityAdmission.AdmissionRun.FillSlots | src/broker/capacity-admission.ts:52-74 | the whole fill: starve past the window with its decisions, wait while parked, otherwise fill, and park only with nothing in flight |
| JsonRpcFraming.FramingReconstructs | src/acp-agent-host/jsonrpc.ts:120-129 | lines with their newlines plus the buffer give back the text |
| JsonRpcFraming.FramedAtNewlines | src/acp-agent-host/jsonrpc.ts:120-129 | neither a line nor the buffer holds a newline |
| JsonRpcFraming.FramingIsUnique | src/acp-agent-host/jsonrpc.ts:120-129 | there is no other way to cut a text at its newlines |
| JsonRpcFraming.FirstLineTaken | src/acp-agent-host/jsonrpc.ts:123-126 | cutting at the first newline takes the first line |
| JsonRpcFraming.SplitFeedIsWholeFeed | src/acp-agent-host/jsonrpc.ts:120-129 | feeding two pieces consumes the lines of the whole, in order, and leaves its tail |
| JsonRpcFraming.ChunkingDoesNotMatter | src/acp-agent-host/jsonrpc.ts:118-129 | the same for any number of chunks |
| JsonRpcClient.ConformingMessagesAreRecognised | src/acp-agent-host/jsonrpc.ts:47-62 | a message that conforms to section 4, 4.1 or 5 of the JSON-RPC 2.0 Specification is taken for its kind if and only if its id is not null and it does not name the empty method, and what it is taken for otherwise |
| JsonRpcClient.NullIdsAreNotRecognised | src/acp-agent-host/jsonrpc.ts:54-61 | a run in which a conforming null-id error response is invalid and a conforming null-id request is a notification |
| JsonRpcClient.CallsSettleOnce | src/acp-agent-host/jsonrpc.ts:133-217 | in every interleaving each issued call is pending or settled, never both, settled at most once |
| JsonRpcClient.SettlementsStay | src/acp-agent-host/jsonrpc.ts:133-217 | a settlement is never taken back |
| JsonRpcClient.CloseSettlesEverything | src/acp-agent-host/jsonrpc.ts:169-177 | after a close nothing issued before it is pending, now or later, and each is settled exactly once |
| JsonRpcClient.CallsAreNumbered | src/acp-agent-host/jsonrpc.ts:133-153 | calls get the numbers 1, 2, 3 and so on in the order in which they are made, and a waiting one has a timer exactly when its own timeout was positive |
| JsonRpcClient.CallsWait | src/acp-agent-host/jsonrpc.ts:134-149 | a new call waits under the next number and settles nothing |
| JsonRpcClient.TimeoutsSettleExactly | src/acp-agent-host/jsonrpc.ts:143-147 | after any run, the timer of a call made with a positive timeout that still waits settles it as timed out, it alone; any other firing changes nothing |
| JsonRpcClient.ClosesRejectAll | src/acp-agent-host/jsonrpc.ts:169-177 | after any run a close settles exactly the waiting calls, each as closed, in the order in which they were made |
| JsonRpcClient.LinesAreHandedOn | src/acp-agent-host/jsonrpc.ts:179-244 | what becomes of each line that settles no call: a message with id and method reaches the request handler, one with a method alone the notification handler, a blank line nobody, and all else is reported invalid |
| JsonRpcClient.OnlyMatchingResponsesSettle | src/acp-agent-host/jsonrpc.ts:179-217 | a line settles a call exactly when it has a result or an error, no method, and a numeric id that names a pending call; only that call, and as an error exactly when its error is truthy |
| JsonRpcClient.NullErrorResolves | src/acp-agent-host/jsonrpc.ts:212-216 | a run in which a response with a null error resolves its call |
| JsonRpcClient.SplitFeedSettlesTheSame | src/acp-agent-host/jsonrpc.ts:120-129 | how the stream is chunked changes nothing about the calls |
| JsonRpcClient.Client.Feed | src/acp-agent-host/jsonrpc.ts:120-129 | the loop consumes the lines of buffer plus chunk in order and keeps the tail |
| JsonRpcClient.Client.Consume | src/acp-agent-host/jsonrpc.ts:179-244 | one line: ignored, invalid, request, notification or settlement |
| JsonRpcClient.Client.IssueCall | src/acp-agent-host/jsonrpc.ts:133-153 | a call gets the next id and waits, with a timer when the timeout is positive |
| JsonRpcClient.Client.OnTimer | src/acp-agent-host/jsonrpc.ts:143-147 | a timer settles its call only if it still waits |
| JsonRpcClient.Client.RejectAllPending | src/acp-agent-host/jsonrpc.ts:169-177 | every waiting call is rejected, in order of issue |
| CanvasRoom.RunIsGood | src/broker/canvas-room.ts:153-188 | the invariant over every interleaving of joins, leaves, deltas, saves and timers, for any number of canvases |
| CanvasRoom.OnePersistPerCanvas | src/broker/canvas-persist-debounce.ts:24-41 | at most one persist is pending per canvas and it holds the newest scene |
| CanvasRoom.DiskOnlyMovesForward | src/broker/canvas-persist-debounce.ts:24-41 | saves of a canvas go strictly forward and the disk holds the last: an older scene never overwrites |
| CanvasRoom.DiskIsNewestWhenSettled | src/broker/canvas-room.ts:153-171 | the newest write is on disk exactly when nothing is pending |
| CanvasRoom.FiringSaves | src/broker/canvas-persist-debounce.ts:33-41 | after any run a firing timer leaves nothing pending for its canvas, the newest write of it on disk as its last save, and every other canvas alone |
| CanvasRoom.AllFiredIsAllSaved | src/broker/canvas-persist-debounce.ts:33-41 | after any run and the firing of all armed timers, in any order, the newest write of every canvas is on disk |
| CanvasRoom.WritesAreTheAccepted | src/broker/handlers/canvas-sync.ts:186-213 | over any run the scenes written are exactly those put over HTTP and the allowed deltas of peers present, in order |
| CanvasRoom.WritesLand | src/broker/canvas-room.ts:153-171 | a scene put over HTTP is on disk at once with nothing pending, an accepted delta waits under a timeout of its own with the disk unchanged, the broadcast copy becomes the live scene, and any other delta changes nothing |
| CanvasRoom.MembersExactly | src/broker/canvas-room.ts:174-188 | over any run a peer is in a room exactly when it joined and has not left since, whoever else came or went |
| CanvasRoom.EmptyingDropsScene | src/broker/canvas-room.ts:180-185 | the last peer out takes room and live scene along, and leaves disk and timers alone |
| CanvasRoom.BaselineIsLastBroadcast | src/broker/canvas-room.ts:75-91 | while the room is not emptied the baseline is the copy broadcast for the newest write |
| CanvasRoom.ColdBaseline | src/broker/canvas-room.ts:86-91 | without a live scene the baseline is the last saved scene stripped, the newest write exactly when nothing is pending |
| CanvasRoom.EmptiedRoomForgetsNewestScene | src/broker/canvas-room.ts:180-185 | an input on which baseline and newest scene disagree |
| CanvasRoom.CanvasBroker.PublishWrite | src/broker/canvas-room.ts:153-171 | cancel, arm if debounced, broadcast, keep the broadcast copy |
| CanvasRoom.CanvasBroker.HandleDelta | src/broker/handlers/canvas-sync.ts:186-213 | a member's delta that the gate allows is published debounced; any other is dropped |
| CanvasRoom.CanvasBroker.HandlePut | src/broker/routes/canvases.ts:252-261 | an HTTP write is saved, then published |
| CanvasRoom.CanvasBroker.OnTimer | src/broker/canvas-persist-debounce.ts:36-39 | a firing timer saves its scene |
| CanvasRoom.CanvasBroker.AddPeer | src/broker/handlers/canvas-sync.ts:114-119 | a peer joins a room, which is created if need be |
| CanvasRoom.CanvasBroker.DropPeer | src/broker/canvas-room.ts:174-188 | a peer leaves; the last one takes room and live scene with it |
| CanvasSanitize.SafeLinkStartsAllowed | src/broker/canvas-sanitize.ts:23-28 | a link is safe exactly when, blanks and case aside, it starts with an allowed prefix |
| CanvasSanitize.SanitizeCanvasScene | src/broker/canvas-sanitize.ts:43-77 | embeds dropped, unsafe links nulled, order kept, both counters exact, malformed input refused |
| CanvasSanitize.SurvivorsAreKept | src/broker/canvas-sanitize.ts:57-66 | the filter keeps every surviving element as often as it was there, and nothing else |
| CanvasSanitize.CleanedSaysExactly | src/broker/canvas-sanitize.ts:57-73 | what is left is each survivor in order, none of them an embeddable or an iframe, as it was but for a link that is not harmless, which is null |
| CanvasSanitize.WebLinksAreSafe | src/broker/canvas-sanitize.ts:23-28 | among texts that begin in lower case the safe links are those with an http or https prefix or a leading slash |
| CanvasSanitize.BlanksDoNotMatter | src/broker/canvas-sanitize.ts:25 | a leading blank does not change whether a link is safe |
| CanvasSanitize.CaseDoesNotMatter | src/broker/canvas-sanitize.ts:25 | nor does the case of its letters |
| CanvasSanitize.FixedPointsAreClean | src/broker/canvas-sanitize.ts:43-77 | the sanitizer leaves a document alone exactly when its elements are clean |
| CanvasSanitize.SanitizingIsIdempotent | src/broker/canvas-sanitize.ts:43-77 | sanitizing twice is sanitizing once |
| CanvasTier.SortedIsUnique | src/broker/canvas-sanitize.ts:97-103 | the sorted arrangement of the keys is determined by their multiset |
| CanvasTier.SignatureIsMultisetEquality | src/broker/canvas-sanitize.ts:89-105 | for delimiter-free ids signatures are equal exactly when the multisets of (id, version) pairs are |
| CanvasTier.SignaturePinsBaseExactly | src/broker/canvas-sanitize.ts:89-105 | for arbitrary ids, a signature determines its pairs if and only if it holds at most one colon |
| CanvasTier.EnforceCanvasTier | src/broker/canvas-sanitize.ts:127-141 | the gate's verdict at each tier, rejections and the throwing case included |
| CanvasTier.ReadersAreRejected | src/broker/canvas-sanitize.ts:128 | a write on a read-only share is rejected as that, whatever it is |
| CanvasTier.ReadersChangeNothing | src/broker/canvas-sanitize.ts:127-141 | a run of such writes leaves the scene as it was |
| CanvasTier.EditorsAreAcceptedExactly | src/broker/canvas-sanitize.ts:130-133 | an edit is accepted exactly when it can be sanitized, as its sanitized form |
| CanvasTier.CommentReasons | src/broker/canvas-sanitize.ts:130-140 | which reason a comment is turned down for, each exactly: an unreadable proposal, a null element or an unreadable scene before it, a different signature |
| CanvasTier.CommentAcceptsExactly | src/broker/canvas-sanitize.ts:127-141 | with plain ids a comment write is accepted exactly when the sanitized proposal has the same multiset of (id, version) pairs in its base, and what is accepted is the sanitized proposal |
| CanvasTier.GateKeepsBaseExactly | src/broker/canvas-sanitize.ts:127-141 | for ids of any form, every accepted comment write keeps the multiset of (id, version) pairs if and only if the signature of the base holds at most one colon |
| CanvasTier.GateAcceptsAChangedBase | src/broker/canvas-sanitize.ts:127-141 | two scenes with different bases between which the gate accepts a comment write |
| CanvasTier.GateKeepsElementsExactly | src/broker/canvas-sanitize.ts:121-141 | every accepted comment write keeps the base elements with all they hold if and only if there are none |
| CanvasTier.GateAcceptsARedrawnElement | src/broker/canvas-sanitize.ts:86-104 | two scenes with plain ids and different base elements between which the gate accepts a comment write |
| CanvasTier.AcceptedIsSanitized | src/broker/canvas-sanitize.ts:127-141 | every accepted scene is a fixed point of the sanitizer |
| CanvasTier.GuestsKeepSignature | src/broker/canvas-sanitize.ts:127-141 | over any run of guest writes below the edit tier the base signature never changes |
| CanvasTier.GuestsKeepBase | src/broker/canvas-sanitize.ts:127-141 | over such a run with delimiter-free ids the multiset of base pairs never changes |
| CanvasTier.RunsStaySanitized | src/broker/canvas-sanitize.ts:127-141 | over any run at any tier the scene is the first one or a fixed point of the sanitizer |
| CanvasGuests.GuestsKeepNewest | src/broker/handlers/canvas-sync.ts:186-213 | over any room run in which a canvas is written to by accepted comments only, through socket or HTTP, with timers, joins, leaves and other canvases in any order: while no live scene is dropped with its persist pending and no broadcast copy loses a base element, the signature of the newest scene never changes and the gate goes on measuring against it |
| CanvasGuests.GuestsKeepNewestPairs | src/broker/routes/canvases.ts:162-176 | the same for the (id, version) pairs of the newest base, with plain ids |
| CanvasGuests.GateGuardsNewestExactly | src/broker/canvas-room.ts:75-91 | in any state, all comment writes the gate can accept keep the signature of the newest scene if and only if the baseline signs as that scene does or cannot be read |
| CanvasGuests.CommentKeepsNewestExactly | src/broker/handlers/canvas-sync.ts:198-213 | an accepted comment keeps the signature of the newest scene if and only if the baseline agreed with it before |
| CanvasGuests.BaselineAgreesExactly | src/broker/canvas-room.ts:75-91 | with a live scene the baseline agrees exactly when the broadcast copy lost nothing of the base; without one, when nothing is pending or what is on disk signs as the newest scene |
| CanvasGuests.DroppedImageIsLost | src/broker/canvas-scene-files.ts:139-148 | a room in which an accepted comment removes a base image that the broadcast copy lacked |
| CanvasGuests.UnsavedDrawingIsLost | src/broker/canvas-room.ts:159-187 | a run in which an accepted comment after an emptied room replaces an unsaved drawing, in the room and in the pending persist |
| AttentionNotify.OneTimerPerConversation | src/broker/attention-notify.ts:54-108 | at most one timer per conversation is live |
| AttentionNotify.EveryDialogIsAccountedFor | src/broker/attention-notify.ts:54-108 | every dialog shown waits on a live timer for its due time, was attempted exactly then, or was cancelled no later; due is the earlier of 4 minutes after the last event that touched it (its showing, or a keepalive that found it waiting) and 15 minutes after its showing |
| AttentionNotify.CeilingHolds | src/broker/attention-notify.ts:23-36 | no dialog waits past fifteen minutes |
| AttentionNotify.PushesOnlyMoveLater | src/broker/attention-notify.ts:83-100 | over any run a keepalive never brings a push forward and never revives a settled dialog |
| AttentionNotify.WhatHappensToAWaitingDialog | src/broker/attention-notify.ts:72-108 | the complete effect of each event on a waiting dialog |
| AttentionNotify.OnePushPerDialog | src/broker/attention-notify.ts:57-68 | no dialog is pushed twice or without an attempt |
| AttentionNotify.PushedExactly | src/broker/attention-notify.ts:57-68 | over any run a dialog is pushed exactly when its timer went off while it waited and the gate let it through |
| AttentionNotify.ClockMovesOrTimerRings | src/broker/attention-notify.ts:54-70 | at any moment the clock can move on or a due timer can fire and attempt its dialog |
| AttentionNotify.AttentionNotifier.ScheduleDialogNotify | src/broker/attention-notify.ts:72-76 | a showing cancels what was armed and arms anew |
| AttentionNotify.AttentionNotifier.ResetDialogNotifyTimer | src/broker/attention-notify.ts:83-100 | a keepalive re-arms up to the ceiling, or does nothing |
| AttentionNotify.AttentionNotifier.CancelDialogNotify | src/broker/attention-notify.ts:102-108 | cancelling clears timer and record |
| AttentionNotify.AttentionNotifier.OnTimer | src/broker/attention-notify.ts:57-68 | a due timer attempts its push, which the gate may hold back |
| CommitBackfill.PostsAreDistinctAndBounded | scripts/backfill-commits-post.ts:67-79 | in every interleaving no payload is posted twice, no empty slot is posted, and at most the pool size is in flight |
| CommitBackfill.TallyCountsAnswers | scripts/backfill-commits-post.ts:41-59 | in every interleaving the tally counts the 202s as inserted, the 200s as duplicates, all other responses and exceptions as failures, and each unreadable error body as one failure more, at most three in all |
| CommitBackfill.ErrorBodiesAreReadExactly | scripts/backfill-commits-post.ts:51-54 | the body of a response is read exactly when its status is neither 202 nor 200 and at most two failures were counted before it |
| CommitBackfill.CompletionPostsEverything | scripts/backfill-commits-post.ts:41-79 | when all workers are done every payload has been posted exactly once; the tally adds up to their number plus that of the unreadable error bodies, so to their number if and only if there were none |
| CommitBackfill.UnreadableBodyCountsTwice | scripts/backfill-commits-post.ts:51-57 | a finished run with one payload and two failures |
| CommitBackfill.PoolAlwaysFinishes | scripts/backfill-commits-post.ts:41-77 | no deadlock, and a bound on the steps of every run, reads of error bodies included |
| CommitBackfill.Backfill.constructor | scripts/backfill-commits-post.ts:76-77 | the pool has at least one worker and no more than payloads or concurrency ask for |
| CommitBackfill.Backfill.Work | scripts/backfill-commits-post.ts:70-75 | a worker runs to its next await, skipping empty slots |
| CommitBackfill.Backfill.OnAnswer | scripts/backfill-commits-post.ts:41-58 | 202, 200, any other status and an exception are counted apart, and an error body is read while at most three failures have been counted |
| CommitBackfill.Backfill.OnBody | scripts/backfill-commits-post.ts:53-58 | an error body that cannot be read counts one failure more |
| AddressBook.AnswersIdentifyTargets | src/broker/address-book.ts:61-82 | over any run from any callers, one caller's answers agree exactly when their targets do |
| AddressBook.AnswersResolveForever | src/broker/address-book.ts:61-87 | an id handed out resolves to its target from then on |
| AddressBook.AssigningIsIdempotent | src/broker/address-book.ts:65-68 | asking again under any name gives the same id and changes nothing |
| AddressBook.AssigningKeepsInjective | src/broker/address-book.ts:61-82 | a book stays injective |
| AddressBook.MeaningsKeptExactly | src/broker/address-book.ts:65-79 | existing ids keep their meaning if and only if the target is listed already or the next free id is no key of the book |
| AddressBook.FreshIdIsNext | src/broker/address-book.ts:70-77 | the id given to a new target is determined by book and slug before the call |
| AddressBook.NextIdExactly | src/broker/address-book.ts:70-79 | the id of a new target is the bare slug exactly when that is free, else the slug, a hyphen and the least number from 2 on, in decimal notation, that makes a free id; `constructor` is free only with an empty target |
| AddressBook.EmptyTargetLosesItsId | src/broker/address-book.ts:72 | an input on which an id changes its meaning |
| AddressBook.SuffixesFit | src/broker/address-book.ts:72-77 | the pigeonhole: a book of n entries cannot have n + 1 suffixed ids taken |
| AddressBook.SlugIsShaped | src/shared/conversation-address.ts:47-55 | a slug is non-empty, at most 24 long, of a to z, 0 to 9 and single hyphens, and does not start with one |
| AddressBook.SlugSpellsName | src/shared/conversation-address.ts:47-55 | a slug has the letters and digits of the name in lower case, as far as the cut allows; a name without any gives the default |
| AddressBook.PlainTextIsKept | src/shared/conversation-address.ts:47-55 | a text that is such a slug already is kept, cut at 24 characters if longer |
| AddressBook.WritingDoesNotMatter | src/shared/conversation-address.ts:50-51 | names that differ only in the case of letters or in which separators they use give the same slug |
| AddressBook.RunsDoNotMatter | src/shared/conversation-address.ts:51 | a run of separators counts as one |
| AddressBook.EdgesDoNotMatter | src/shared/conversation-address.ts:52 | separators at either edge count as none |
| AddressBook.SignsThatSpellLetters | src/shared/conversation-address.ts:50 | the Kelvin sign and the dotted capital I are lowered to letters, the latter with an accent that separates |
| AddressBook.SluggingIsStable | src/shared/conversation-address.ts:47-55 | slugging is idempotent exactly when the cut left no trailing hyphen |
| AddressBook.CutCanLeaveAHyphen | src/shared/conversation-address.ts:47-55 | a name whose slug is not its own slug |
| AddressBook.AddressBooks.GetOrAssign | src/broker/address-book.ts:61-82 | the search and the assignment change the caller's book as specified, and no other |
| AddressBook.AddressBooks.FirstFreeSuffix | src/broker/address-book.ts:74-76 | the first free suffix from 2 on, found within the size of the book |
| Analytics.CountRetries | src/broker/analytics-store.ts:129-149 | one pass with two flags counts the edits that follow an edit with a Bash and no edit between |
| Analytics.AccumulatorHoldsRunningTurn | src/broker/analytics-store.ts:469-505 | the accumulator holds exactly the prompt that opened the running turn and the tools used since |
| Analytics.StopMakesTheTurn | src/broker/analytics-store.ts:507-539 | a stop makes one turn of that prompt and those tools, unless both are empty, no turn is open, or the project lookup throws |
| Analytics.FailedLookupLosesTheTurn | src/broker/analytics-store.ts:507-539 | events on which a throwing lookup loses a turn for good |
| Analytics.ConversationsDoNotMix | src/broker/analytics-store.ts:460-544 | for any interleaving the turns queued for a conversation are those of its own events alone |
| Analytics.QueueIsInOrder | src/broker/analytics-store.ts:156-210 | batches and queue are the enqueued turns in order, fewer than fifty wait, and written plus queued is all that was enqueued if and only if no transaction failed |
| Analytics.FiftiethFlushes | src/broker/analytics-store.ts:159-173 | over any run a turn that finds forty-nine waiting takes them along in one batch, any other waits, and the interval flush leaves nothing waiting |
| Analytics.MarksTheLast | src/broker/analytics-store.ts:493-503 | a failure marks the last successful use of its tool, leaves every other, and marks nothing when there is none |
| Analytics.AnalyticsStore.RecordHookEvent | src/broker/analytics-store.ts:460-540 | the hook branches compute the machine, the throwing lookup included |
| Analytics.AnalyticsStore.MarkFailed | src/broker/analytics-store.ts:493-503 | the search from the end marks the last successful use |
| Analytics.AnalyticsStore.EnqueueTurn | src/broker/analytics-store.ts:159-164 | a turn is queued, and the fiftieth flushes |
| Analytics.AnalyticsStore.FlushBatch | src/broker/analytics-store.ts:166-210 | the queue leaves as one batch, written or dropped as a whole |

## Left out

- TranslatorHeap.Translator.CommitToolUse: does not model the dialect translation of the block, its locations or its raw payload, which belong to a module that is not part of this model; tool inputs are values, since nothing writes into one.
- TranslatorHeap.Translator.FlushTurn: does not model timestamps, the cost and summary text of the closing entry, or usage_update notifications, which no entry's structure depends on.
- TranslatorHeap.Translator.HandleToolCallUpdate: keeps each pending call as a value in the map instead of as an object updated in place; no such object is handed out.
- CapacityMath.FloorNeverFalls: computes in exact reals, without floating-point rounding.
- CapacityLedger.NeverOvershoots: the ledger and the fill take configurations whose rampHours is a finite number; with an infinite or NaN one the floor is NaN until the window ends, and every comparison with it denies.
- CapacityLedger.Ledger.AdmitBest: does not model the prose of a decision record, its id, time and task, or the rounding of its numbers; the explicit reservation that bypasses admission is left out.
- CapacityAdmission.AdmissionRun.FillSlots: one fill runs at fixed readings and clock, without other ledger calls between its awaits.
- JsonRpcClient.Client.Consume: trimming and JSON parsing are a parameter; outgoing lines, replies to agent requests, traces and handlers that call back into the client are left out.
- CanvasRoom.CanvasBroker.PublishWrite: the broadcast copy is an input, because it depends on the uploaded image files; presence messages, colours and test helpers that clear all state are left out, and so is deleting a canvas.
- CanvasSanitize.SanitizeCanvasScene: a scene is the value that JSON parsing gives, with the members the code looks at; strings are sequences of characters, and lower case is that of ASCII letters, which decides the allowed prefixes because no other character lowers to one of theirs.
- CanvasTier.GuestsKeepBase: measures each write against the scene accepted before it; `CanvasGuests` tells the broadcast copy and the stored scene apart from it.
- CanvasRoom.CanvasBroker.HandleDelta: takes the verdict of the gate as an input; `CanvasGuests` joins the two.
- CanvasGuests.GuestsKeepNewest: takes JSON parsing and the removal of embedded files as functions, of which it needs that the latter leaves the elements alone.
- CanvasTier.SortedIsUnique: orders strings by character, where JavaScript orders them by UTF-16 unit; any total order gives the same theorems.
- AttentionNotify.AttentionNotifier.OnTimer: the debounce gate's verdict is an input; message texts are left out, and so are the question and permission timers, which have no deferral.
- CommitBackfill.Backfill.OnAnswer: the text of the error log and the normalization of the origin are left out; what awaiting an error body does to the tally is modelled.
- AddressBook.AddressBooks.GetOrAssign: the key-value store behind the books is left out. Of the property names that plain JavaScript objects inherit, the one that can be a slug is modelled; such names as callers, or as ids asked of `resolve`, are not.
- Analytics.AnalyticsStore.RecordHookEvent: task categories, timestamps, project and model columns are left out; a prompt is its kept snippet, whether the project lookup throws is an input, and the store is open.
- Host wiring, WebSocket and HTTP layers, SQLite, passkeys, permission tables and the other scripts.
