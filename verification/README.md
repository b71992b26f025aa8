# Verified model of the workbuddy2api gateway core

A Dafny 4.11 model of the four parts of the gateway whose correctness depends on state and order:

- **Shared account state** (`internal/pool`). During a hot update two processes share one `state.json`. Each keeps its
  live accounts, a private baseline (its own overview at its last save) and its intents; a save re-reads the file under
  a lock, merges three ways and replaces it. The model runs any number of instances over one file, in every interleaving
  of local operations, saves and process starts.
- **Chat-to-Responses translation** (`internal/server`). The streaming writer that cuts bytes into frames, folds deltas
  into items and decides the outcome before any tool call is done; the JSON path's verdict; the writer that holds back
  the finish marker of a Chat stream; the tool-name allocator; the history translator.
- **Account selection and penalties** (`internal/pool`). Eligibility, cost tiers, the exploration cursor, the last
  resort, the weighted draw and the two exponential backoffs.
- **Ordered mirror** (`internal/redisstore`). Per-key chains of asynchronous writes under a semaphore, and a draining close.

Where the program changes an object or a map in place, the model has a class or a loop that is proved against a function;
the laws are then lemmas about the functions, over all inputs, all runs or all reachable states. `dafny verify
dfyconfig.toml` checks everything.

| files | content |
|---|---|
| `state_merge.dfy`, `merge_laws.dfy` | the merge of one account and of the file; commutation, idleness, snapshots |
| `pool_state.dfy` | the operations of one instance, as functions and as the class `Pool` |
| `shared_state.dfy`, `shared_laws.dfy`, `shared_order.dfy`, `shared_snapshot.dfy` | runs of many instances: deletion, conservation, order of saves, restored snapshots |
| `response_events.dfy`, `response_parts.dfy` | the events of a stream, the grammar of items, and of the parts and arguments inside them |
| `responses_stream.dfy`, `responses_writer.dfy` | the streaming writer as functions and as a class |
| `responses_invariant.dfy` … `responses_runs.dfy`, `responses_parts.dfy` | the writer's invariant and its record of parts, kept by every operation and while closing |
| `responses_guarantees.dfy` | what a client can rely on |
| `responses_input.dfy`, `responses_outcome.dfy`, `responses_order.dfy` | the same read off the bytes that came in: errors, the exact outcome, the words and calls a client is told, their order |
| `tool_policy.dfy`, `verdict.dfy` | the checks both paths share, and the agreement of their verdicts |
| `chat_contract.dfy`, `chat_guarantees.dfy`, `chat_stream.dfy` | the Chat writer, its guarantees, and what they become behind the stream that feeds it |
| `tool_names.dfy`, `history.dfy`, `history_calls.dfy`, `history_turns.dfy` | naming of tools; translation of input items; calls and their replies; what merging makes of a turn |
| `selection.dfy`, `exploration.dfy`, `backoff.dfy` | picking an account; exploring; penalties |
| `ordered_mirror.dfy` | the mirror |
| `wrappers.dfy`, `ordering.dfy`, `text.dfy` | options and results; the order of account ids; white space and frames |

## Where code and documentation differ

The model follows the code.

- `internal/pool/pick.go:135-141` says that equal weights are shuffled so that accounts late in the alphabet reach the
  short list. The sort that follows ends with the account id (`pick.go:164`), so the shuffle never changes the list
  (`Selection.ShuffleIrrelevant`).
- The soft cooldown shifts its base before capping it (`internal/pool/cooldown.go:253-258`). Every base up to 2^48 ns is
  safe (`Backoff.SoftDurationBounded`); the next one, 2^48 + 1 ns, already gives a shorter cooldown
  (`Backoff.SoftDurationOverflows`). Which settings are safe is decided by sixteen shifts (`Backoff.SafeExactly`).
- Breaker trips double without a guard (`internal/pool/cooldown.go:272-277`); with a maximum from 2^62 ns on a trip can be
  negative (`Backoff.TripExact`, `Backoff.TripCounterexample`).
- A Chat stream that ends with an error frame is meant to show no finish reason. The upstream's error frame is passed on
  as it came, so a finish reason inside it reaches the client (`ChatGuarantees.CompletionTail`, `ChatGuarantees.ErrorFrameCanFinish`).
- The Chat writer taken alone passes a frame that does not begin with a data line on unread, so a comment line in front of
  a data line would let a finish reason or [DONE] through (`ChatGuarantees.FinishHeldBack`,
  `ChatGuarantees.UnreadFrameCanFinish`). The program never writes such a frame to it: `upstream.Stream`
  (`internal/upstream/sse.go:839-840`, `895-896`) writes every event and every comment line as a frame of its own, and
  behind it nothing is let through before the check (`ChatStream.StreamHeldBack`), for clients that end lines at line
  feeds, as the program's own reader does. A client that also ends lines at a bare carriage return, as section 9.2.6 of the
  WHATWG HTML Living Standard has it, sees a marker exactly if a comment holds one behind a carriage return
  (`ChatStream.StandardHeldBack`, `ChatStream.ReturnMarks`).
- The stream and the JSON path are meant to reach one verdict. A completion that mixes modern and legacy tool calls and
  was cut short is refused by the stream but let through by the JSON path, which stops at the status
  (`Verdicts.VerdictsAgree`, `Verdicts.MixedFails`; `Verdicts.MixedCutShort` is such a completion).
- Merging a turn keeps its first reasoning that is not blank, because a turn is taken to have only one
  (`internal/server/responses.go:440-441`). The input need not keep to that: of a turn that thinks, speaks, thinks again
  and calls a tool, the second thought is lost (`HistoryTurns.AllReasoningSurvives`, `HistoryTurns.SecondReasoningLost`).

## Model

| member | source | states |
|---|---|---|
| StateMerge.MergeStateFields | internal/pool/persist_merge.go:119-137 | the three passes give every key its fate, told by the values alone: a forced key follows the instance, present or absent; a changed or added one takes its value; a dropped one goes if the file still has the baseline's value and else stays as the file has it; an untouched one stays as in the file |
| StateMerge.UntouchedStays | internal/pool/persist_merge.go:119-137 | a key the instance neither forced, changed nor dropped keeps the file's value or absence |
| StateMerge.MergesAccount | internal/pool/persist_merge.go:139-213 | a merged account in values: remaining fields and models by the fate of keys, the later of the last-seen times, balances, counters as file plus increment (from the snapshot's floor on); it fails exactly when a counter leaves 63 bits |
| StateMerge.MergedByUid | internal/pool/persist_merge.go:216-276 | the merge of a whole file acts on each account id separately: its epoch and its account depend only on that id's baseline, view, intent and file entry |
| MergeLaws.MergeShape | internal/pool/persist_merge.go:150-213 | a proper save adds its increments to the counters, keeps the later of the last-seen times and merges models, credits and other fields by their own rules |
| MergeLaws.MergesCommute | internal/pool/persist_merge.go:119-213 | two saves that touched different fields and models commute, whatever counters, times and consumption either adds |
| MergeLaws.IdleMerge | internal/pool/persist_merge.go:150-213 | merging without changes only moves a legacy error count into the total; the account is left alone exactly when that count is not larger |
| MergeLaws.SnapshotNeverDoubles | internal/pool/persist_merge.go:187-199 | after any list of saves from one snapshot the counter is the maximum of file and snapshot plus the sum of all increments |
| PoolState.Pool.Load | internal/pool/persist.go:122-136 | an instance starts from the file, taking over every account at this time, with the file itself as baseline |
| PoolState.Pool.ApplyAccounts | internal/pool/persist.go:140-213 | the loop takes over exactly the listed accounts and leaves other live ones |
| PoolState.RestoredSound | internal/pool/persist.go:140-213 | taking over keeps counters, balance and all other fields, folds the legacy count in, bounds the expiring part, derives missing averages from the counters, and drops exactly the cooldowns, breakers with their exponent and cooling reasons that have run out |
| PoolState.Pool.MarkStateFields | internal/pool/persist_merge.go:73-81 | a mark adds to the intent's forced fields and changes no other account's intent |
| PoolState.Pool.NoteSuccess | internal/pool/state.go:201-215 | count, time, average, both streaks and the breaker cleared and exactly those fields forced; every other field, the other accounts and the baseline stay |
| PoolState.Pool.NoteError | internal/pool/state.go:100-110 | the object counts an error and its time and takes over the breaker's fields, without an intent |
| PoolState.Pool.NoteModelCost | internal/pool/state.go:162-177 | both own balances are clamped at zero while the full consumption is recorded for the merge, and nothing else changes |
| PoolState.Pool.Disable | internal/pool/transition.go:34-56 | disabling clears the cooling domain, keeps everything else, the breaker included, and forces exactly the fields it assigns |
| PoolState.Pool.ReenableIfCredits | internal/pool/state.go:83-95 | a positive balance ends the cooling of an account that is not disabled; otherwise only credits change; exactly the assigned fields are forced |
| PoolState.DisableSurvives | internal/pool/transition.go:51-56 | whatever file and baseline say, the save after a disable writes the account disabled, with its reason and no cooling left |
| PoolState.Pool.CooldownModel | internal/pool/cooldown.go:76-92 | with a reset time from the upstream one model cools until then, at most to the cap and at least a millisecond, and only that model is marked |
| PoolState.Pool.BlockModelClear | internal/pool/cooldown.go:160-181 | a model's entry is dropped and marked exactly if it is there and its reason is that the backend lacks the model |
| PoolState.ModelSurvives | internal/pool/persist_merge.go:167-178 | whatever file and baseline say, the save writes the model cooled or cleared here, and every model touched only elsewhere as the file has it |
| PoolState.Pool.Add | internal/pool/pool.go:222-241 | an upsert records a creation at the epoch seen on disk if the account is new here, missing there or was deleted since |
| PoolState.Pool.Remove | internal/pool/pool.go:207-213 | a removal leaves a deletion intent and takes the account out of the live set |
| PoolState.Pool.SyncToDir | internal/pool/pool.go:198-218 | listed accounts are upserted, exactly the others removed, and a removal is saved at once |
| PoolState.Pool.ApplySnapshot | internal/pool/persist.go:216-245 | the snapshot replaces the live accounts, its counters become baseline and floor, missing accounts are marked deleted at the snapshot's epoch |
| PoolState.SnapshotTaken | internal/pool/persist.go:216-245 | what a restore makes of every account of the snapshot and of every missing one: live value, baseline counters, floor, creation and deletion intents with their epochs |
| PoolState.Pool.ApplyDeletion | internal/pool/persist_merge.go:238-253 | one deletion: epoch plus one or the given epoch, skipped when the file is already newer, failing only when the epoch cannot grow |
| PoolState.Pool.ApplyDeletions | internal/pool/persist_merge.go:238-253 | exactly the accounts with an effective deletion go, and their epochs change; it fails only on an epoch overflow |
| PoolState.Pool.MergeAccounts | internal/pool/persist_merge.go:257-275 | every account ends as the presence rule says; it fails only if some account's merge does |
| PoolState.Pool.MergedStateOf | internal/pool/persist_merge.go:216-277 | the loops compute the merge of the whole file, or fail exactly when one account or epoch overflows |
| PoolState.Pool.Save | internal/pool/persist.go:249-316 | a committed save writes, for every account id, the epoch and account that values and intents demand, takes the own overview as baseline and forgets the intents; it fails exactly when some counter or epoch overflows, and then changes nothing |
| PoolState.SaveWrites | internal/pool/persist_merge.go:216-277 | what a committed save writes of one id: the epoch after a deletion or the later known one; nothing for an effective deletion; the file's account if the instance has none or its creation is outdated; the instance's own where the file has none; else the merge of both, field by field |
| PoolState.SaveFails | internal/pool/persist_merge.go:216-277 | a save fails exactly if the epoch of a new deletion is exhausted or a counter of an account it merges overflows |
| SharedState.SaveByUid | internal/pool/persist_merge.go:235-275 | the effect of a committed save on one account id and its epoch |
| SharedState.SaveEpochs | internal/pool/persist_merge.go:235-253 | a committed save never lowers an epoch, and raises it strictly exactly when it deletes |
| SharedState.RunEpochInv | internal/pool/persist_merge.go:38-59 | over every run: no instance knows a newer epoch than the file, every live account has a baseline, creation intents are not from the future, and epochs only grow |
| SharedState.Reappearance | internal/pool/persist_merge.go:261-269 | an account can come back only through a save whose creation intent carries the file's current epoch |
| SharedState.DeletionGone | internal/pool/persist_merge.go:238-253 | a committed deletion strictly raises the epoch and outdates every creation intent recorded before |
| SharedState.DeletedStaysDeleted | internal/pool/persist_merge.go:216-276 | over every interleaving, after a committed deletion whatever brings the account back is the save of an instance that itself added it after that commit, since its last start and at the file's current epoch; without such a save it stays gone |
| SharedLaws.SaveAdds | internal/pool/persist_merge.go:139-199 | a committed save adds exactly the pending increments of its instance, or leaves an account it does not hold alone |
| SharedLaws.CountersConserved | internal/pool/persist_merge.go:139-199 | over every interleaving the file's counters equal their first value plus all increments saved, and no instance ever falls below its baseline |
| SharedLaws.CreditsConserved | internal/pool/persist_merge.go:206-211 | without assignments the file's balance is the first one less all saved consumption, clamped at zero, in whatever order |
| SharedOrder.SavesCommute | internal/pool/persist_merge.go:216-276 | two instances with compatible changes leave the same accounts and epochs in either order of saving |
| SharedOrder.IdleSave | internal/pool/persist_merge.go:216-276 | a save without changes leaves the file as it is exactly when no held account carries a larger legacy error count |
| SharedOrder.ImportStarts | internal/pool/persist.go:235-244 | importing makes the snapshot's counters baseline and floor, with nothing gained yet |
| SharedOrder.CountingKeepsSnapshot | internal/pool/state.go:100-110 | counting after an import only adds the increment |
| SharedSnapshot.SnapshotCounted | internal/pool/persist_merge.go:187-199 | over every interleaving of starts, restores of one snapshot, local operations and saves, also beside processes that do not restore: the file's counters are the larger of the snapshot's and what had been saved when it first took effect, plus all that was saved later |
| SharedSnapshot.SnapshotImportedOnce | internal/pool/persist.go:216-245 | if every process restores before it counts, the file ends at the larger of its first counters (zero for a missing account) and the snapshot's, plus all increments saved |
| SharedSnapshot.RestoredExactly | internal/pool/persist.go:240-242 | a process that restores at its start brings a missing account back exactly if the snapshot is not older than the account's deletion on file |
| SharedSnapshot.RestoredTooLate | internal/pool/persist.go:235-243 | a process that synchronised or restored a missing account before cannot bring it back by restoring |
| ResponseEvents.ParseMeansGrammar | internal/server/responses.go:1279-1315 | whatever the event automaton accepts is placed as the protocol promises: created and in_progress first, an item's added event, in progress and empty, before and its done event after everything else of the item |
| ResponsesSteps.RunInv | internal/server/responses.go:1318-1652 | the writer's invariant holds in every reachable state |
| ResponsesSteps.RunGrows | internal/server/responses.go:1585-1634 | a call that started is never dropped; its index, its arguments so far and, once announced, its name and id stay |
| ResponsesSteps.FlushReadyKeeps | internal/server/responses.go:1562-1583 | opening calls in order and passing early arguments on once keeps the invariant |
| ResponsesFinish.CheckAccepts | internal/server/responses.go:1707-1756 | an accepting check announces every call, with an id and all its arguments passed on |
| ResponsesFinish.CheckTwice | internal/server/responses.go:1707-1756 | asking again gives the same answer and no event |
| ResponsesOutput.OutputBySlot | internal/server/responses.go:1915-1939 | sorted by index, the output of a writer whose calls have all begun holds at each position the item that owns this index |
| ResponsesRuns.CompletedIsAccepted | internal/server/responses.go:1679-1697 | a run completes only if its check accepted a whole completion |
| ResponseParts.TrackMeansGrammar | internal/server/responses.go:1424-1527 | whatever the automaton of parts accepts: a part is added once and in order, its deltas follow, its text is told once and as they add up, then it is done once, and an item or the stream ends only after all its parts; a call's whole arguments are told at most once, after their deltas and just if the call is then done with them |
| ResponsesParts.RunRecorded | internal/server/responses.go:1445-1539 | in every reachable state the parts announced so far are exactly the writer's, with the text it holds |
| ResponsesParts.PartGrammar | internal/server/responses.go:1424-1527 | in every run parts and whole arguments are placed as that grammar demands, to the end |
| ResponsesGuarantees.StreamGrammar | internal/server/responses.go:1279-1315 | every run is numbered 0, 1, 2, …, follows the grammar of items and of parts, and ends with its only terminal event |
| ResponsesGuarantees.CompletedOutput | internal/server/responses.go:1915-1939 | a completed output lists the indices 0..k-1 in order, each with the item of its done event, and no event concerns another index |
| ResponsesGuarantees.ToolExecutionBoundary | internal/server/responses.go:1654-1697 | calls are done only in completed runs, and then the whole list has names, blank or valid JSON arguments and satisfies the parallel rule and the tool policy |
| ResponsesGuarantees.StartedCallsAreDone | internal/server/responses.go:1654-1677 | in a completed run every call that ever started is announced and done, keeping index, name, id and arguments |
| ResponsesGuarantees.CompletedReconstructs | internal/server/responses.go:1445-1583 | on completion the deltas of reasoning, text, refusal and arguments add up exactly to the final items |
| ResponsesGuarantees.ArgumentsToldOnce | internal/server/responses.go:1654-1677 | on completion each call without custom input is told its whole arguments exactly once, as its deltas add up and after all of them; nothing else ever is, and nothing at all in a response that does not complete |
| ResponsesGuarantees.VerdictIsStable | internal/server/responses.go:1707-1756 | in every reachable state a second check changes nothing |
| ResponsesGuarantees.ChunkIndependence | internal/server/responses.go:1318-1329 | however the bytes are cut into writes, the state and all events are those of one write |
| ResponsesGuarantees.SameBytesSameLog | internal/server/responses.go:1318-1356 | two ways to cut the same bytes give a client the same log |
| ResponsesInput.UpstreamErrorFails | internal/server/responses.go:1331-1356 | in every run, asked early or not, an error or an unreadable payload in any data line before [DONE] makes the response fail, whatever follows |
| ResponsesOutcome.AbsorbExact | internal/server/responses.go:1585-1652 | the writer meets an error in a list of choices exactly if a call is malformed, changes its name or id, or stands beside one of the other form |
| ResponsesOutcome.OutcomeExactly | internal/server/responses.go:1679-1756 | however the bytes are cut: the response fails, is cut short or completes exactly as the data lines, the finish reason, the completion marker and what the request allows of text, refusal and calls decide |
| ResponsesOutcome.AskedAtEnd | internal/server/responses.go:1707-1756 | a check right before the end changes nothing in the log |
| ResponsesOutcome.StreamSays | internal/server/responses.go:1445-1697 | the client hears exactly the reasoning, text and refusal of the chunks, and, just if the response completes, the calls with their last names and all their arguments |
| ResponsesOutcome.CallsDelivered | internal/server/responses.go:1884-1939 | every call of the chunks is a complete output item, under the upstream's id if it gave one |
| ResponsesOutcome.JsonExactly | internal/server/responses.go:1778-1839 | the JSON path lets a message through exactly if it was cut short, or its call fields are well-formed and of one form and the request allows its calls, text and refusal |
| ResponsesOrder.WordsInOrder | internal/server/responses.go:1383-1396 | the deltas a client gets are the nonempty pieces of reasoning, text and refusal in the order of the chunks, whatever the outcome |
| ResponsesOrder.OutputInOrder | internal/server/responses.go:1915-1939 | a completed output has one item for each source, reasoning, message or call, in the order in which the chunks first mention them, each with all that the chunks say of it |
| ResponsesOrder.IdsAreFresh | internal/server/responses.go:1743-1748 | no two calls of a completed output share an id that the writer made up |
| ResponsesWriters.ResponsesWriter.constructor | internal/server/responses.go:1279-1293 | a new writer has announced the response with created and in_progress |
| ResponsesWriters.ResponsesWriter.Feed | internal/server/responses.go:1318-1329 | the object's loop over its buffer is the specified draining of frames |
| ResponsesWriters.ResponsesWriter.HandleFrame | internal/server/responses.go:1331-1356 | the loop over data lines, stopping at [DONE], is the specified one, which keeps errors of the upstream (UpstreamErrorFails) |
| ResponsesWriters.ResponsesWriter.HandleChunk | internal/server/responses.go:1358-1422 | the loop over choices, with its early returns, is the specified one |
| ResponsesWriters.ResponsesWriter.ReasoningDelta | internal/server/responses.go:1445-1465 | the reasoning item is open under its old or the next index, its text extended, and the last event is this delta |
| ResponsesWriters.ResponsesWriter.EnsureMessagePart | internal/server/responses.go:1481-1498 | the object finds or adds the part, and returns its index |
| ResponsesWriters.ResponsesWriter.TextDelta | internal/server/responses.go:1529-1539 | text or refusal is extended, the message is open with that part, and the last event is this delta |
| ResponsesWriters.ResponsesWriter.FlushReadyCalls | internal/server/responses.go:1562-1583 | the loop opens calls in order of first appearance up to the first one not ready |
| ResponsesWriters.ResponsesWriter.ToolCallDelta | internal/server/responses.go:1585-1634 | the loop over the map of calls and its order is the specified fold over the list of calls |
| ResponsesWriters.ResponsesWriter.LegacyFunctionDelta | internal/server/responses.go:1636-1652 | a legacy call is folded under index -1 with one generated id, never mixed with modern ones |
| ResponsesWriters.ResponsesWriter.CompletionError | internal/server/responses.go:1707-1756 | the object decides, names and opens calls exactly as specified, and returns the stored error |
| ResponsesWriters.ResponsesWriter.CloseCalls | internal/server/responses.go:1654-1677 | the object closes reasoning, message and calls as specified |
| ResponsesWriters.ResponsesWriter.FinishStream | internal/server/responses.go:1679-1697 | the last event is the terminal one with the status decided before any call was done, and completed means that the check accepted |
| Verdicts.VerdictsAgree | internal/server/responses.go:1778-1839 | however a completion is sliced into deltas, with modern or legacy calls: the stream is accepted exactly when it carried a completion marker and the JSON path accepts the folded message; one that mixes both forms is refused by the stream, and by the JSON path unless cut short |
| Verdicts.MixedFails | internal/server/responses.go:1778-1803 | the JSON path lets a completion that mixes both forms through exactly when it was cut short |
| Verdicts.MixedCutShort | internal/server/responses.go:1778-1803 | an input on which the paths disagree, whatever the request asks for: one choice, cut short, with one call in both forms |
| Verdicts.CallsAgree | internal/upstream/sse.go:511-529 | the aggregation lists calls by index, the stream by appearance, and neither validity nor the policy depends on that |
| Verdicts.SortAscends | internal/upstream/sse.go:509-513 | the aggregation lists the calls by ascending index |
| Verdicts.SlicingIrrelevant | internal/server/responses.go:1585-1634 | two slicings of one message get the same verdict |
| Text.BlankTrims | internal/server/responses.go:1758-1762 | a text is blank exactly if trimming leaves nothing of it, the test the program makes of names, arguments, texts and reasoning |
| ChatContract.ChatContractWriter.WriteBytes | internal/server/chat_output_contract.go:253-276 | event-stream bytes are collected and cut into frames as specified; other content passes through |
| ChatContract.ChatContractWriter.HandleFrame | internal/server/chat_output_contract.go:278-332 | the loop over choices removes usage and finish reasons and passes a frame on only if it has a delta |
| ChatContract.ChatContractWriter.ValidateCompletion | internal/server/chat_output_contract.go:370-382 | every choice is validated on its own, the first failure counts, and no choices is a failure |
| ChatContract.ChatContractWriter.CompletionError | internal/server/chat_output_contract.go:384-425 | the object writes the specified tail once and only into an event stream; on success it begins with a frame that holds every choice's index and finish reason, no delta and no usage |
| ChatGuarantees.FinishHeldBack | internal/server/chat_output_contract.go:278-332 | nothing written before the check carries a finish reason or [DONE] exactly when no frame passed on unread does |
| ChatGuarantees.DeltasPassInOrder | internal/server/chat_output_contract.go:309-331 | exactly the nonempty deltas reach the client, in order, with declared tool names |
| ChatGuarantees.WriteHolds | internal/server/chat_output_contract.go:278-308 | what the writer holds back, in terms of the bytes: the usage of every readable frame in order, the last error frame, and whether some frame was unreadable |
| ChatGuarantees.ChunkLetThrough | internal/server/chat_output_contract.go:309-331 | a readable frame without error passes exactly if some choice has a delta, then without usage and finish reasons |
| ChatGuarantees.CompletionTail | internal/server/chat_output_contract.go:391-419 | in terms of the bytes: accepted exactly when every data frame was readable and all choices are accepted; then a frame with the index and finish reason of every choice and nothing else, which marks the end exactly if some choice has one, the usage frames and one [DONE]; otherwise the upstream's last error frame, or the error, and one [DONE] |
| ChatGuarantees.FinishMeansValidated | internal/server/chat_output_contract.go:228-230 | a finish reason reaches the client only in the frame that repeats every choice's index and finish reason, after every choice was accepted |
| ChatGuarantees.CompleteTwice | internal/server/chat_output_contract.go:388-390 | checking again writes nothing |
| ChatGuarantees.ChunkIndependence | internal/server/chat_output_contract.go:261-271 | however the bytes are cut into writes, the result is that of one write |
| ChatGuarantees.ErrorFrameCanFinish | internal/server/chat_output_contract.go:293-296 | for every decoder and error frame: if it is the whole stream and cannot be aggregated, the client sees that frame and [DONE], and a finish reason exactly if the frame has one |
| ChatGuarantees.UnreadFrameCanFinish | internal/server/chat_output_contract.go:278-283 | for every data frame behind a comment line, which the stream never writes: it is passed on before the check, with its finish reason or [DONE] exactly if it carries one |
| ChatGuarantees.UnreadDone | internal/server/chat_output_contract.go:278-283 | bytes, again none the stream writes, by which the writer lets [DONE] through before any check |
| ChatStream.FramesHeldBack | internal/server/chat_output_contract.go:278-332 | if every frame is one data line or one comment line, nothing written before the check carries a finish reason or [DONE] |
| ChatStream.StreamFrames | internal/upstream/sse.go:838-846 | every write of the stream, of an event or of a comment, is one frame |
| ChatStream.StreamHeldBack | internal/server/chat_output_contract.go:228-230 | whatever events and comments the stream writes and however the bytes are cut: nothing written before the check carries a finish reason or [DONE] |
| ChatStream.StreamFinishValidated | internal/server/chat_output_contract.go:384-425 | behind the stream a finish reason stands in the finish frame, after every choice was accepted, or in the upstream's error frame, and nowhere else |
| ChatStream.StandardHeldBack | internal/upstream/sse.go:78-83 | a client that ends lines at carriage returns too sees a marker before the check exactly if a comment holds one behind a carriage return |
| ChatStream.ReturnMarks | internal/upstream/sse.go:78-83 | a comment that does |
| ToolNames.PrefixIsTight | internal/server/responses.go:920-929 | cutting valid UTF-8 at a byte limit keeps valid text and loses at most three bytes more |
| ToolNames.CandidateInjective | internal/server/responses.go:905-918 | numbered alternatives with different numbers are different names |
| ToolNames.CandidateNumbers | internal/server/responses.go:905-918 | an alternative is the name, cut only as far as 64 bytes demand, two underscores and the number |
| ToolNames.BoundedNameShortens | internal/server/responses.go:931-939 | a name of at most 64 bytes stays; a longer one becomes 47 to 50 bytes of itself, two underscores and the digest |
| ToolNames.SearchEnds | internal/server/responses.go:905-918 | n taken alternatives need n taken names, so the search ends |
| ToolNames.UniqueChatToolName | internal/server/responses.go:905-918 | the first free alternative, not taken and at most 64 bytes |
| ToolNames.TopLevelNames | internal/server/responses.go:710-745 | short public names are reserved first, then every top-level tool gets its own |
| ToolNames.ResponsesTools | internal/server/responses.go:710-839 | the translated declarations: distinct wire names of at most 64 bytes, with tables that lead back |
| ToolNames.ToolAliasIndex | internal/server/responses.go:941-952 | the index maps exactly the public names of the aliases to their wire names |
| ToolNames.WireToDeclaration | internal/server/responses.go:972-980 | a wire name leads back to its declaration's namespace, name and kind |
| ToolNames.DeclarationToWire | internal/server/responses.go:954-963 | a declaration's namespace and name lead to its wire name |
| ToolNames.UndeclaredToWire | internal/server/responses.go:954-963 | a tool of the history that is not declared keeps its name, behind its namespace and two underscores, shortened if need be |
| ToolNames.WireNamesDistinct | internal/server/responses.go:710-839 | all wire names are pairwise distinct |
| History.ResponsesMessages | internal/server/responses.go:268-424 | the loop with its pending calls and reasoning computes the specified translation; without items it is the instructions, unless blank, and the plain text as one user message |
| History.MergeAdjacentAssistants | internal/server/responses.go:442-502 | the loop merges runs of assistant messages as specified |
| History.TranslationConserves | internal/server/responses.go:268-424 | the calls, each under its call_id or else its item id, its wire name and its arguments, the outputs and the client turns of the messages are exactly the items', in order; so is every visible character and image of the assistant's turns, between the same outputs and client turns |
| HistoryCalls.RepliesPaired | internal/server/responses.go:317-363 | if a call item stands before an output item with its call_id, a message before the tool message holds a call whose id is the tool message's |
| HistoryCalls.CallsTold | internal/server/responses.go:317-363 | the k-th call of the messages is the k-th call item: its call_id, or its item id just if that is empty, its wire name and its arguments |
| HistoryTurns.RunMerged | internal/server/responses.go:442-502 | a run of assistant messages becomes one, with all calls in order, the nonblank texts joined by blank lines and the first reasoning that is not blank |
| HistoryTurns.MergeSplits | internal/server/responses.go:442-471 | runs that another message separates are merged apart |
| HistoryTurns.ReasoningConserved | internal/server/responses.go:345-418 | before turns are merged, reasoning is kept character by character; only text behind the last assistant message can be lost, exactly if no assistant message lacks reasoning |
| HistoryTurns.MergeKeepsReasoning | internal/server/responses.go:495-501 | merging adds no reasoning, and loses none exactly if no turn has two messages with reasoning |
| HistoryTurns.AllReasoningSurvives | internal/server/responses.go:268-424 | the whole translation never adds reasoning, and keeps all of it exactly if none is left behind the last assistant message with nowhere to go and no turn has two messages with reasoning |
| HistoryTurns.SecondReasoningLost | internal/server/responses.go:495-501 | an input whose second reasoning is lost |
| History.MergeIsIdempotent | internal/server/responses.go:442-471 | no two adjacent assistant messages remain, and merging again changes nothing |
| History.DeepSeekFieldPresent | internal/server/responses.go:268-424 | for DeepSeek models every assistant message carries the reasoning field |
| History.DeepSeekOnlyFills | internal/server/responses.go:402-421 | all that this rule does is to set missing reasoning fields of assistant messages to the empty text |
| Selection.PruneKeepsStanding | internal/pool/entry.go:225-234 | dropping expired model cooldowns changes nobody's eligibility, fallback or expiry |
| Selection.ShuffleIrrelevant | internal/pool/pick.go:142-165 | the sorted list does not depend on the order before the sort, so the shuffle has no effect |
| Selection.DrawExact | internal/pool/pick.go:296-324 | every random value draws exactly one candidate, and a candidate owns exactly as many values as its weight |
| Selection.FixedRounds | internal/pool/pick.go:296-324 | a drawing weight is the account's weight in millionths, rounded, and at least one |
| Selection.PickWeighted | internal/pool/pick.go:296-324 | the accumulating loop returns the owner of the random value |
| Selection.Pool.PruneExpired | internal/pool/pick.go:46-48 | the loop drops expired model cooldowns of every account and nothing else |
| Selection.Pool.Candidates | internal/pool/pick.go:54-66 | exactly the eligible accounts, each once |
| Selection.Pool.PickEarliestExpiry | internal/pool/pick.go:213-248 | an admissible cooling account with the earliest deadline, or none exactly when there is none |
| Selection.Pool.Tiers | internal/pool/pick.go:97-119 | the cheapest tier present, and exactly the accounts of unknown cost |
| Selection.Pool.Rank | internal/pool/pick.go:128-169 | exactly the accounts of the tier, weighed against the largest balance of all candidates; cheaper ones first, then heavier ones, then by account id |
| Selection.Pool.PickRanked | internal/pool/pick.go:172-202 | who of the first five is rested, drawn by weight; otherwise the least recently picked of the whole tier |
| Selection.Pool.PickEligible | internal/pool/pick.go:107-202 | among eligible accounts: a turn of exploration exactly when a free tier leaves unknown ones, which names the account or declines; else, and then, the ranked choice |
| Selection.Pool.Pick | internal/pool/pick.go:41-207 | the whole selection in terms of the accounts' fields: who is served, that nobody left off the short list is cheaper, or heavier at the same price, exactly the marks it leaves, and on every route what becomes of the exploration table |
| Selection.SelectionCorrect | internal/pool/pick.go:18-41 | on the accounts before pruning: never a tried, foreign or full account; an eligible one of the cheapest tier or an exploration if any is eligible; else the earliest deadline; none exactly when neither kind exists |
| Selection.PromiseServes | internal/pool/pick.go:18-41 | the promise in the accounts' fields: a usable account, never a priced one while a free or an unknown one is usable; else the cooling account whose wait ends first; none exactly if there is neither |
| Selection.ShortListBest | internal/pool/pick.go:158-177 | the short list has at most five accounts of the tier, and nobody left off it is cheaper, or heavier at the same price, than one on it |
| Selection.ChosenFairly | internal/pool/pick.go:172-202 | a draw comes from that list and from a rested account exactly if one on it is rested; else the least recently picked of the tier |
| Selection.SelectionsExploreFairly | internal/pool/pick.go:120-127 | over runs of selections, any 4n that find the same n unknown accounts beside a free one explore each once and use a free one 3n times |
| Selection.MarkedSequenced | internal/pool/pick.go:203-205 | sequence numbers stay distinct and never ahead of the counter |
| Selection.MarksLeft | internal/pool/pick.go:203-248 | what a selection leaves of every account: expired model cooldowns gone, the picked one's time and sequence number, nothing else |
| Exploration.CostExploration.ExploreUnknown | internal/pool/exploration.go:18-61 | one call advances only its own scope and evicts the oldest for a new one |
| Exploration.CostExploration.EvictOldest | internal/pool/exploration.go:25-34 | the least recently touched scope goes, nothing else |
| Exploration.NextCandidate | internal/pool/exploration.go:46-58 | the scan finds the first candidate after the cursor, wrapping round |
| Exploration.RoundVisitsAll | internal/pool/exploration.go:44-60 | a round of turns visits every candidate exactly once |
| Exploration.Fairness | internal/pool/exploration.go:18-61 | any 4n consecutive calls explore each of n candidates once and decline 3n times |
| Exploration.InterleavedFairness | internal/pool/exploration.go:18-61 | the same however calls for other scopes are interleaved, while the scope is not evicted |
| Exploration.TableBounded | internal/pool/exploration.go:24-37 | never more than 256 scopes, and every counter below four |
| Backoff.SoftDurationExact | internal/pool/cooldown.go:242-260 | a soft cooldown lasts min(base·2^(s-1), max) exactly when the 64-bit shift does not wrap into the allowed range |
| Backoff.ShiftsDouble | internal/pool/cooldown.go:242-260 | each soft limit in a row doubles the intended duration, sixteen times at most |
| Backoff.SafeExactly | internal/pool/cooldown.go:242-260 | a base and a maximum give the intended duration for every streak exactly when none of the sixteen shifts wraps into the allowed range |
| Backoff.SoftDurationBounded | internal/pool/cooldown.go:242-260 | every base up to 2^48 ns is safe, whatever the maximum |
| Backoff.SoftDurationOverflows | internal/pool/cooldown.go:242-260 | the next base is not |
| Backoff.SoftBackoff | internal/pool/cooldown.go:195-213 | with safe settings, over runs of soft limits from any state: an active cooldown is never moved, none starts inside another, each new one lasts min(base·2^(s-1), max), and after each limit the account is cooling |
| Backoff.TripExact | internal/pool/cooldown.go:264-281 | every breaker trip lasts min(cooldown·2^k, max) exactly when doubling reaches the maximum within 63 bits |
| Backoff.CapReached | internal/pool/cooldown.go:264-281 | it does for every maximum below 2^62 ns |
| Backoff.TripCounterexample | internal/pool/cooldown.go:264-281 | an input where a trip lies in the past |
| Backoff.BreakerAccounting | internal/pool/cooldown.go:264-281 | between successes trips times threshold plus failures equals the number of errors, for all settings, and the deadline is that of the last trip |
| Backoff.BreakerDeadlines | internal/pool/cooldown.go:264-281 | with settings whose doubling reaches the maximum, the (k+1)-th trip lasts min(cooldown·2^k, max) |
| Backoff.Account.CooldownSoftRate | internal/pool/cooldown.go:195-213 | a reset time from the upstream becomes the deadline, between a millisecond from now and the cap; without one an active soft cooldown stays, otherwise the streak grows and the deadline is as intended; reason, model cooldowns and forced fields are set |
| Backoff.Account.RecordBreakerFailure | internal/pool/cooldown.go:264-281 | below the threshold only the count grows, at the threshold it restarts and the deadline doubles per trip up to the maximum |
| Backoff.Account.NoteSuccess | internal/pool/state.go:204-213 | a success resets both backoffs and leaves the cooldown |
| OrderedMirror.PerKeyOrder | internal/redisstore/redisstore.go:137-173 | writes of one key run in submission order, none skipped, never overlapping |
| OrderedMirror.BoundedConcurrency | internal/redisstore/redisstore.go:137-173 | no more run at once than the semaphore holds, and each at most once |
| OrderedMirror.NoDeadlock | internal/redisstore/redisstore.go:137-173 | while a write is unfinished some goroutine can move |
| OrderedMirror.StepsConsumeWork | internal/redisstore/redisstore.go:137-173 | every goroutine step uses up remaining work |
| OrderedMirror.Drains | internal/redisstore/redisstore.go:192-211 | from every reachable state the submitted writes can be run to the end |
| OrderedMirror.CloseDrained | internal/redisstore/redisstore.go:192-211 | when the wait group is at zero every submitted write has run exactly once |
| OrderedMirror.ClosedForever | internal/redisstore/redisstore.go:192-211 | nothing submitted after close ever joins |
| OrderedMirror.FinalValue | internal/redisstore/redisstore.go:137-173 | after a drained close each key holds the outcome of its last submitted write, if that succeeded |
| OrderedMirror.Upstash.GoWriteKey | internal/redisstore/redisstore.go:137-158 | the object chains a write behind its key's tail unless closed |
| OrderedMirror.Upstash.MarkClosed | internal/redisstore/redisstore.go:192-200 | the object refuses every later submission |
| OrderedMirror.Upstash.SignalCompletion | internal/redisstore/redisstore.go:159-173 | the object signals and forgets the tail only if it is still its own |

## Left out

- SharedState.Next: the state file exists and is readable; the branch that rewrites a missing file from one instance is not modelled, and a failed observation of an epoch neither.
- MergeLaws.MergesCommute: assumes nonnegative balances and counters with room below 2^63, as the program's own data has.
- PoolState.Pool.NoteModelCost: the rounded consumption is an argument; the price ledger it also feeds only matters to selection. A free request is no operation here.
- PoolState.Pool.NoteError: what an error does to the breaker's fields comes as an argument; the breaker itself is modelled in Backoff.
- PoolState.Pool.Save: deadlines that pass between two saves are an assignment of the remaining fields; the wrap of a 64-bit balance is not modelled.
- SharedLaws.CountersConserved: increments that an instance had not saved when its process ended are lost, as in the program; the law counts the saved ones.
- ResponsesGuarantees.StreamGrammar: a client that stops reading sees a prefix of the log; usage, model and id echo are not modelled, and ids that the writer makes up come from a counter instead of random bytes.
- ResponsesGuarantees.CompletedReconstructs: restoring public tool names and unwrapping custom input inside call items is not part of the items here; see ToolNames.
- Verdicts.VerdictsAgree: deltas are objects with string arguments and stable names and ids; the errors that the aggregation itself raises (an unknown finish reason, truncated JSON, whole-message snapshots) are not modelled, and choices other than the first do not reach the Responses path.
- SharedSnapshot.SnapshotCounted: a snapshot without the account deletes it and is not a step here; for an account the file lacks, each process restores once after its start and before it synchronises, as the program demands (RestoredTooLate shows why).
- ChatStream.StreamHeldBack: what the stream encodes is one line of JSON or [DONE] by assumption, as its encoder makes it; how it decodes upstream events is not modelled.
- ChatGuarantees.CompletionTail: the aggregation of the raw stream is a parameter, and client write failures are not modelled.
- Selection.Pool.Pick: weights are real-valued parameters of the account, the largest balance and the time; the 64-bit wrap of the pick counter and the second clock reading of the last resort are not modelled.
- ToolNames.ResponsesTools: the declarations have pairwise distinct identity keys, which the request validation enforces; the digest is a parameter.
- Backoff.SoftBackoff: the runs have no limits with a reset time from the upstream, which are single steps (CooldownSoftRate, CooldownModel); the backoff of a missing model and the cooldown until 04:00 are not modelled.
- OrderedMirror.FinalValue: time to live, network retries and the close timeout's fallback are not modelled; an execution either succeeds or fails.
- Session-dead counting, image budget, sticky sessions, key store, scheduler flags: they would add easier members only.
- HTTP, JSON syntax, JSON Schema compilation, SHA-256, logging and configuration enter as parameters or not at all.
