# A verified model of the youyou-agent session kernel

`youyou-agent` runs one session at a time over an append-only ledger. This project models the kernel's
interacting state machines and proves what they keep over whole runs, whatever the model provider, the
plugins, the tools, the storage and the moment of cancellation do.

| file | what it models |
|---|---|
| `Domain.dfy`, `Text.dfy` | messages, ledger payloads, tool outputs; UTF-8 byte lengths, white space |
| `Ledger.dfy`, `Context.dfy` | the ledger, the model-visible projection, the compaction plan and its fit check |
| `Runtime.dfy`, `Resume.dfy`, `Sessions.dfy`, `SessionRuns.dfy` | the one write path (save, append, project), restoring a session, crashes and restarts, whole sessions |
| `ToolOutputs.dfy`, `Dispatcher.dfy`, `BatchExecution.dfy` | output limits, preparing a batch, serial and parallel execution |
| `Cancellation.dfy`, `Outside.dfy` | the cancellation token; hooks, compact model and extractions of one turn |
| `ProviderStream.dfy`, `TurnGrammar.dfy`, `TurnLog.dfy`, `TurnHistory.dfy`, `TurnEngine.dfy` | reading provider streams, the words a turn writes, the turn loop |
| `Registry.dfy` | the model registry of an agent and the dependencies of a turn |
| `ControlPlane.dfy`, `ControlRuns.dfy` | lifecycle, slot and turn state under the mutex, and every interleaving of the operations that share it |
| `Memory.dfy`, `Checkpoint.dfy` | memory operations through a local index, incremental extraction windows |
| `Hooks.dfy`, `Skills.dfy` | the hook patch algebra, the skill-token scanner |

Objects the kernel updates in place (`SessionLedger`, `ContextManager`, `SessionRuntime`, `AgentControl`,
`HookRegistry`, the storages, the turn) are classes whose methods are proved against functions on values;
the theorems are lemmas about those functions and about runs made of them. What the outside does is arbitrary but
given: which attempts a storage refuses, what a provider streams to its n-th request, how the n-th hook of a turn
ends, what hooks and handlers do about call i of batch b, and at which poll a cancellation token is first seen
cancelled are constants that no method can change. So every failure a method reports is traced to something the
outside really did: a turn fails only because its last save was refused, its last hook aborted or broke its
contract, its last request could not be built, was refused or failed, its context could not be compacted, or a tool
hook of its last batch broke its contract (`TurnEngine.TurnEngine.RunTurn`). A hook handler answers from its data and
the moment of its call, so that it may have state of its own. The completion order of a parallel batch is any order
in which the started calls can finish.

Results that differ from what the design document (`specs/0006_youyou_agent_design.md`) says, each with a witness
and its exact condition:

- Resuming is said to reproduce the context exactly (line 2033). It does if and only if no interrupted
  assistant message was pushed since the last rebuild (`Resume.ResumeIsExact`); in every session with numbers
  left, compacted or not, one such message makes the lists differ (`Resume.InterruptedDiffers`). Otherwise the
  resumed list has one more notice after each such message, and is estimated accordingly; settings, ledger, next
  number, marker and checkpoint are the same, and the turn index is at most the live one, which is bumped before
  the user message is written (`Resume.ResumeIsLive`).
- The truncation fallback is said to keep the newest messages that fit (line 1139). The code keeps exactly the
  current turn: it succeeds if and only if there is something before the turn and the whole turn with the
  notice fits three tenths of the window (`Context.FallbackSucceedsExactly`). When it succeeds it keeps the newest messages that fit if and
  only if the message just before the turn does not fit any more (`Context.FallbackKeepsNewestExactly`). It gives
  up although some of the newest messages would fit exactly when the last message fits and either nothing precedes
  the turn or the turn as a whole does not fit (`Context.FallbackGivesUpExactly`). Ledgers for all these cases:
  `Context.RoomLeftUnused`, `Context.GivesUpThoughSuffixFits`, `Context.FirstTurnGivesUp`.

Limits of the code that the documents do not mention, exact as well:

- Which metadata limits make normalising a tool output idempotent on all metadata of at most a given number of
  bytes (`ToolOutputs.IdempotentExactly`). Below them the ToolCallEnd event and the ledger can carry different
  metadata (`Dispatcher.SameOutputEverywhere`). For everything a 64-bit process can receive the limit is 57 bytes
  (`ToolOutputs.ReceivableOutputs`); with a limit of 40, 100 bytes of metadata already show the difference.
- A shutdown can drop an active session or a live turn if and only if a session is being opened when it begins
  (`ControlRuns.ShutdownDropsExactly`): activation does not look at the lifecycle, so any reservation it meets can
  still become a session with a turn (`ControlRuns.ReservedCanBeDropped`).
- Ledger numbers saturate at the end of `u64`; from then on numbers repeat (`Ledger.AppendKeepsSorted`). Claims
  that need increasing numbers say `nextSeq < U64_MAX`.

## Model

| member | source | states |
|---|---|---|
| `Ledger.SessionLedger.FromEvents` | src/domain/ledger.rs:110-113 | a loaded ledger holds the events in the given order and numbers on after the last one |
| `Ledger.SessionLedger.Append` | src/domain/ledger.rs:116-119 | adds one event at the end; the next number follows it |
| `Ledger.AppendKeepsSorted` | src/domain/ledger.rs:116-125 | numbering keeps the ledger strictly increasing if and only if the last number has not reached the end of u64 |
| `Context.ProjectVisibleEntries` | src/application/context_manager.rs:385-412 | the projection loop computes the summary followed by every message above the boundary, each interrupted one with its notice |
| `Context.ContextManager.RebuildFromLedger` | src/application/context_manager.rs:63-78 | fails exactly when the newest marker does not decode, and otherwise shows exactly the projection of the ledger under that marker, with its token estimate |
| `Context.ContextManager.Push` | src/application/context_manager.rs:81-84 | a pushed message is appended without a notice and the estimate is that of the new list |
| `Context.ContextManager.ApplyCompactionMarker` | src/application/context_manager.rs:101-109 | applying a marker shows exactly the projection of the ledger under that marker |
| `Context.ContextManager.RecalculateTokens` | src/application/context_manager.rs:175-177 | the stored estimate is the estimate of the visible list |
| `Context.ContextManager.NeedsCompaction` | src/application/context_manager.rs:131-137 | compaction is needed if and only if the estimate and a quarter of what prompt and tools add exceed the limit, however the sums saturate |
| `Context.ProjectionMeaning` | src/application/context_manager.rs:328-438 | every event above the boundary contributes its own message at its place, an interrupted one followed by its notice; metadata and everything at or below the boundary contribute nothing |
| `Context.MessageBytes` | src/application/context_manager.rs:558-587 | a message counts with the bytes of everything it carries: all blocks, images and files included, call ids and names, tool output, arguments and metadata as serialised |
| `Context.CharsConcat` | src/application/context_manager.rs:552-554 | the estimate of a list is a quarter of what its messages count together, none left out |
| `Context.ThreeTenths` | src/application/context_manager.rs:546-548 | a list is within the truncation target if and only if it is within three tenths of the window, the product saturating at the end of usize |
| `Context.PlanCutsAtUserMessage` | src/application/context_manager.rs:295-323 | compactable and retained are together exactly the old projection, the cut is in front of a user message, and the boundary does not move back |
| `Context.FitCheckIsHonest` | src/application/context_manager.rs:146-266 | once the marker is appended and applied the rebuilt list is the summary and the retained messages that were measured, so it is within the window, or three tenths of it for the fallback |
| `Context.SummaryIsKept` | src/application/context_manager.rs:208-226 | a summary is kept without the white space around it exactly when its message and the retained ones fit the window; otherwise the result is that of a failed summary |
| `Context.SummaryIsRefused` | src/application/context_manager.rs:146-173 | a blank summary gives the result of a failed one, which is the truncation notice if that fits its target; a cancelled one cancels; without a plan no answer matters |
| `Context.TrimMeaning` | src/application/context_manager.rs:209-219 | trimming takes away the white space at both ends and nothing else |
| `Context.GeneratedCut` | src/application/context_manager.rs:295-323 | a generated boundary lies just below a user message, at or above the old boundary |
| `Context.MarkerApplied` | src/application/context_manager.rs:358-412 | a marker takes effect with its own event, which itself shows nothing |
| `Context.PlanInsideTurn` | src/application/context_manager.rs:295-323 | inside a turn a plan fails if and only if nothing was compacted and no message precedes the turn; the anchor errors cannot occur |
| `Context.NoAnchorExactly` | src/application/context_manager.rs:441-465 | a plan fails for want of an anchor if and only if no user message lies above the boundary, and never misses an anchor it found |
| `Context.FallbackSucceedsExactly` | src/application/context_manager.rs:235-266 | inside a turn the fallback succeeds if and only if something precedes the turn and the notice and the whole turn fit three tenths of the window |
| `Context.FallbackKeepsNewestExactly` | src/application/context_manager.rs:235-266 | the fallback keeps the newest messages that fit if and only if the message before the turn does not fit any more |
| `Context.FallbackGivesUpExactly` | src/application/context_manager.rs:235-323 | inside a turn the fallback gives up although some of the newest messages would fit exactly when the last message fits and either nothing precedes the turn or the turn as a whole does not fit |
| `Context.RoomLeftUnused` | src/application/context_manager.rs:235-266 | a ledger whose older message would fit and is dropped |
| `Context.GivesUpThoughSuffixFits` | src/application/context_manager.rs:235-266 | a ledger on which the code gives up although its last message would fit |
| `Context.FirstTurnGivesUp` | src/application/context_manager.rs:306-310 | on a first turn with nothing before it the fallback fails although the whole context would fit |
| `Context.SplitAtAnchor` | src/application/context_manager.rs:295-323 | the anchor is found in the projection, exactly where its own message starts |
| `Runtime.SessionStorage.SaveEvent` | src/ports/storage.rs:13-18 | a storage refuses an attempt exactly as it was going to; a refused event is not stored |
| `Runtime.SessionRuntime.constructor` | src/application/session_service.rs:165-188 | a new runtime is empty, at turn 0, and numbers its events from 1 |
| `Runtime.SessionRuntime.FromLedger` | src/application/session_service.rs:193-212 | fails exactly when the newest marker does not decode; a restored runtime shows the rebuilt context and numbers its events from 1 again |
| `Runtime.SessionRuntime.PersistAndProject` | src/application/session_service.rs:928-950 | exactly when the storage refuses the event nothing changes at all; otherwise the event with the next number is stored, appended and projected |
| `Runtime.AppendMeaning` | src/application/session_service.rs:928-1012 | field by field: the event is numbered and added, a message becomes visible at the end and is estimated, a marker rebuilds, a checkpoint moves the checkpoint, and nothing else changes |
| `Runtime.SessionRuntime.ProjectLedgerPayload` | src/application/session_service.rs:974-1012 | messages are pushed, markers rebuild the context, checkpoints move the checkpoint, all else changes nothing; it fails only on metadata that does not decode |
| `Runtime.SessionRuntime.AllocateTurnId` | src/api/session.rs:330-336 | the turn index is bumped before anything of the turn is written |
| `Runtime.SessionRuntime.Emit` | src/application/turn_engine.rs:1092-1107 | events carry the numbers 1, 2, 3, … over all turns of a runtime |
| `Sessions.NewSession` | src/application/session_service.rs:467-513 | creating fails exactly for an unknown model, memories that cannot be listed, a SessionStart hook that does not pass, or a refused bootstrap record, each with its own error; a created session satisfies the session invariant and its storage holds exactly its ledger |
| `Sessions.ResumeSession` | src/application/session_service.rs:518-559 | resuming succeeds if and only if the log could be loaded and restored and the memories listed, and gives the restored state; every failure has the error of its own cause |
| `Resume.NewSessionInvariant` | src/application/session_service.rs:562-592 | the two bootstrap records establish the session invariant |
| `Resume.AppendInvariant` | src/application/session_service.rs:928-1012 | every write the kernel makes keeps the session invariant |
| `Resume.SettingsMeaning` | src/application/session_service.rs:679-716 | restored settings are the ones stored last, whatever the agent's defaults are now; these only fill in what was never stored; restoring fails if and only if a value was stored under the wrong key |
| `Resume.LatestSnoc` | src/application/session_service.rs:718-722 | one more event changes the newest value of its own key only, and only a user message is counted |
| `Resume.EveryStepCanHappen` | src/application/session_service.rs:928-950 | from every session a write, a refusal, a turn allocation, a restart and a crash can happen; a write and a crash after the save store exactly one event more, the others nothing |
| `Resume.ResumeIsLive` | src/application/session_service.rs:679-733 | restoring the live ledger succeeds and gives the same settings, numbers, marker and checkpoint, and the same visible list except for notices after interrupted messages pushed since the last rebuild |
| `Resume.ResumeIsExact` | src/application/context_manager.rs:415-438 | the visible lists are equal if and only if no interrupted message was pushed since the last rebuild |
| `Resume.InterruptedDiffers` | src/application/context_manager.rs:81-84 | in every session with numbers left, one interrupted message makes the resumed list differ from the live one |
| `Resume.CrashLosesNothing` | src/application/session_service.rs:928-950 | a crash between save and append leaves the store exactly one event ahead, and resuming gives the session the finished write would have given |
| `Resume.StepKeepsMirror` | src/application/session_service.rs:928-1012 | writes, refusals, turn allocation, restarts and crashes keep the stored log equal to the live ledger |
| `Resume.EveryRunCanBeResumed` | src/application/session_service.rs:518-559 | at every point of every run the stored log can be resumed and gives the live session |
| `Resume.BoundaryNeverMovesBack` | src/application/context_manager.rs:101-109 | over any run, restarts and crashes included, the compaction boundary never decreases |
| `Resume.CurrentTurnStaysVisible` | src/application/context_manager.rs:441-465 | the current turn's user message stays above the boundary and visible, and a plan can fail only for lack of earlier history |
| `Resume.CompactionFits` | src/application/context_manager.rs:101-109 | the live context after a compaction is the checked list and within the checked number of tokens |
| `TurnGrammar.TurnAnswered` | src/application/turn_engine.rs:306-331 | in the word of a whole turn every result has its own batch's call before it |
| `TurnGrammar.NextTurnAnswered` | src/application/turn_engine.rs:163-169 | a turn cut off anywhere still leaves every result of the ledger answered |
| `TurnGrammar.SpecialMessages` | src/application/turn_engine.rs:971-988 | an interrupted message is the last of its turn; the limit notice comes at most once, directly after a tool result |
| `TurnGrammar.CutAnswered` | src/application/context_manager.rs:295-323 | cutting in front of a user message separates no result from its call |
| `TurnGrammar.NoticesAnswered` | src/application/context_manager.rs:415-438 | inserted notices separate no result from its call |
| `TurnGrammar.VisibleShape` | src/application/context_manager.rs:385-412 | what is visible is the summary, then the messages from a user message on, with notices up to the last rebuild |
| `TurnGrammar.NoOrphans` | src/application/context_manager.rs:385-412 | in every visible context, live or rebuilt, and in every compaction input, each result has its own batch's call before it |
| `TurnLog.LogInLedger` | src/application/turn_engine.rs:888-1012 | the messages of the ledger grow by exactly the messages the turn has written |
| `TurnLog.InsideRound` | src/application/turn_engine.rs:928-947 | while a batch's calls are being written the turn is a prefix of a whole one |
| `TurnLog.InsideResults` | src/application/turn_engine.rs:950-968 | writing one result per call completes the round |
| `TurnLog.WordGrows` | src/application/turn_engine.rs:163-368 | what a turn writes next: a round is its text, if any, then its calls, then its results; notice and last text stand behind all rounds |
| `TurnLog.RoundMeaning` | src/application/turn_engine.rs:928-968 | one call message per prepared call under its arguments, one result message per record with its output |
| `TurnLog.CountSnoc` | src/application/turn_engine.rs:333 | results are counted round by round, from zero |
| `TurnHistory.AddRound` | src/application/turn_engine.rs:334-368 | after a batch the turn is cancelled, out of tools with a limit notice due, or ready for the next request, as the results and the stop flag say |
| `TurnHistory.HeadBounded` | src/application/turn_engine.rs:171-368 | the loop is entered at most two times more than tool calls are allowed, and with tools at most once more |
| `TurnHistory.EndWithText` | src/application/turn_engine.rs:243-295 | a turn ends with the text of its last answer, completed, failed at the limit, or cancelled |
| `TurnHistory.EveryCallRan` | src/application/turn_engine.rs:270-331 | in a turn that ended, every answer that asked for calls and was not cancelled has its round |
| `TurnHistory.CutOffIsPrefix` | src/application/turn_engine.rs:149-369 | a turn cut off in the round of its last answer has written a prefix of a whole turn |
| `TurnHistory.TerminalIsLast` | src/application/turn_engine.rs:1015-1064 | every started call has ended; TurnComplete and TurnCancelled come last and only for completed and cancelled turns, and a failed turn tells neither |
| `TurnHistory.BatchInPass` | src/application/turn_engine.rs:306-331 | a completed batch is told after the stream its answer was read from, pass by pass |
| `TurnHistory.BatchIds` | src/application/tool_dispatcher.rs:479-664 | wherever a batch ends, every call has exactly one result, in order, with its id |
| `TurnHistory.ArgumentsEverywhere` | src/application/tool_dispatcher.rs:346-400 | a call is executed exactly when its tool is registered and its hooks, and in a mutating batch those of all calls before it, let it proceed; ledger, start event and record then name the arguments the hooks left, otherwise the requested ones |
| `TurnHistory.NextTurn` | src/application/turn_engine.rs:149-369 | if the ledger is a list of turns, it stays one while a further turn is written, wherever that turn is cut off |
| `TurnHistory.NeverAnOrphan` | src/application/context_manager.rs:385-412 | if the ledger is a list of turns, whole or cut off, no list a model may be shown has a result without its own batch's call |
| `SessionRuns.EveryMoment` | src/application/turn_engine.rs:149-369 | when any number of a turn's events is written the session invariant holds, the ledger is a list of turns and no orphan is visible, and a process that dies there resumes into such a session |
| `SessionRuns.StepKeepsSound` | src/application/session_service.rs:518-559 | a message sent, a process that dies inside a turn, a resumption and a checkpoint at a close keep the session sound |
| `SessionRuns.EveryRunIsSound` | src/api/session.rs:89-147 | over every run of every session the stored log is the ledger, the ledger is a list of turns, and no orphan is visible, rebuilt or compacted |
| `SessionRuns.EveryMomentOfEveryRun` | src/api/session.rs:89-147 | so it is at every moment inside every turn of such a run, and after a resumption from there |
| `ProviderStream.NoToolsNoCalls` | src/application/turn_engine.rs:705-717 | an answer to a request without tools contains no call |
| `ProviderStream.StreamConcat` | src/application/turn_engine.rs:652-770 | text, calls and deltas of a stream read in two parts are those of the first part, then those of the second |
| `ProviderStream.StreamOne` | src/application/turn_engine.rs:687-722 | a text item gives its text and its delta, reasoning only its delta, a call only the call, everything else nothing |
| `ProviderStream.CollectText` | src/application/context_manager.rs:468-519 | a summary is the text up to Done; a call makes it unusable; at an error or a missing Done it is cancelled if and only if the token is |
| `ProviderStream.Provider.Chat` | src/ports/model.rs:25-34 | a provider answers each request as it was going to: it refuses to start, or hands out one more stream |
| `Cancellation.CancelToken.Poll` | src/application/turn_engine.rs:171-183 | a poll answers exactly whether the token is cancelled by then, and a cancellation once seen is seen for ever |
| `Outside.Surroundings.Ask` | src/application/turn_engine.rs:829-849 | a hook ends as the outside decided for its data and its place, and is recorded as asked |
| `TurnEngine.TurnEngine.Persist` | src/application/turn_engine.rs:852-1012 | a write keeps the engine's invariant and is in the log exactly when the storage did not refuse it |
| `TurnEngine.TurnEngine.PersistMarker` | src/application/turn_engine.rs:852-873 | a compaction marker is recorded exactly when the storage did not refuse it |
| `TurnEngine.TurnEngine.Emit` | src/application/turn_engine.rs:1092-1107 | an event is added to what the turn has told |
| `TurnEngine.TurnEngine.PersistAll` | src/application/turn_engine.rs:928-968 | messages are written in order until one is refused |
| `TurnEngine.TurnEngine.CompactContext` | src/application/turn_engine.rs:773-826 | the BeforeCompact hook is asked about the visible messages and their estimate; how it and the compact model answered, and whether the storage refused the marker, determine the result, and every error is justified by one of them |
| `TurnEngine.TurnEngine.Compact` | src/application/turn_engine.rs:809-826 | without a plan the compact model is not asked; otherwise it is shown exactly the compactable messages, and the marker stored and told is the one generated from its answer |
| `TurnEngine.TurnEngine.Summarise` | src/application/context_manager.rs:180-213 | the compact model is asked once, and its answer is that of its stream |
| `TurnEngine.TurnEngine.StoreCompaction` | src/application/turn_engine.rs:815-826 | a generated marker is stored, takes effect within the window and is told, or nothing changes |
| `TurnEngine.TurnEngine.VisibleNow` | src/application/turn_engine.rs:596-645 | in the middle of a turn neither the visible messages nor the input of a compaction have an orphan |
| `TurnEngine.TurnEngine.RunMemoryCheckpointIfNeeded` | src/application/turn_engine.rs:480-534 | exactly when it is due an extraction is tried, and exactly when that succeeds on new events its checkpoint is written, pointing at the end of the window; a refused one changes nothing; it is a step of a checkpoint run |
| `TurnEngine.TurnEngine.ConsumeStream` | src/application/turn_engine.rs:652-770 | the answer is the text and calls of the items read, the events are their deltas, and only Done completes it |
| `TurnEngine.TurnEngine.RequestOnce` | src/application/turn_engine.rs:596-645 | at most one request; none once the token is due, none that cannot be built; every failure is justified |
| `TurnEngine.TurnEngine.SendRequest` | src/application/turn_engine.rs:625-645 | the provider is shown exactly the visible messages, and its stream read; a failure is the refusal or the end of that stream, and a cancelled turn takes a refusal as its answer |
| `TurnEngine.TurnEngine.RequestWithFallback` | src/application/turn_engine.rs:537-593 | a compaction follows exactly a request that was too long, a second request only a stored compaction; every failure is justified |
| `TurnEngine.TurnEngine.CompactAndRetry` | src/application/turn_engine.rs:555-591 | after a request that was too long: one compaction, and one more request only if it was stored; giving up on a second one that is too long is a compaction error |
| `TurnEngine.TurnEngine.Ask` | src/application/turn_engine.rs:185-241 | one pass asks at most twice and compacts at most twice; it compacts first if and only if the estimate exceeds the configured share of the window; every failure is justified |
| `TurnEngine.TurnEngine.WriteOpening` | src/application/turn_engine.rs:163-169 | injections, then the user message; a refusal leaves a prefix |
| `TurnEngine.PrepareWithHooks` | src/application/tool_dispatcher.rs:283-400 | a prepared batch is what the BeforeToolUse hooks of this batch made of the requested calls; it fails only if one of them breaks its contract |
| `TurnEngine.ExecuteBatch` | src/application/tool_dispatcher.rs:411-443 | a batch ends as the runs of this batch say, serially or in parallel, and tells exactly their events; nothing is started once cancelled; it fails only if an AfterToolUse hook of an executed call breaks its contract |
| `TurnEngine.TurnEngine.RunBatch` | src/application/turn_engine.rs:306-331 | a batch adds one complete round; otherwise it leaves a prefix of a turn, and a save was refused or a tool hook broke its contract |
| `TurnEngine.TurnEngine.PersistAssistant` | src/application/turn_engine.rs:991-1012 | an empty text writes nothing; the only failure is a refused save |
| `TurnEngine.TurnEngine.TellLimit` | src/application/turn_engine.rs:348-361 | the limit is told as an error and written as a notice after the rounds |
| `TurnEngine.TurnEngine.TakeAnswer` | src/application/turn_engine.rs:243-304 | an answer's text is written with its status; a cancelled answer or one without calls ends the turn, one with calls goes on to its batch, and the turn breaks off only for a refused save or a TurnEnd hook |
| `TurnEngine.TurnEngine.Pass` | src/application/turn_engine.rs:171-368 | one pass asks at most twice and compacts at most twice; only a pass with tools is followed by another, with one more round; a turn whose token is due asks nothing; it breaks off only for a justified error |
| `TurnEngine.TurnEngine.AnswerHere` | src/application/turn_engine.rs:171-241 | in front of a request the turn is cancelled, gets an answer read from its own streams, or breaks off for a justified error |
| `TurnEngine.TurnEngine.RunCalls` | src/application/turn_engine.rs:306-346 | the batch of an answer adds its round, and a cancelled one ends the turn |
| `TurnEngine.TurnEngine.CancelHere` | src/application/turn_engine.rs:172-241 | a turn cancelled in front of a request ends as cancelled, with a last checkpoint or without |
| `TurnEngine.TurnEngine.ToolPass` | src/application/turn_engine.rs:306-368 | a pass with tools counts its results, and leaves tools to the next pass exactly as the limit and the stop flag say |
| `TurnEngine.TurnEngine.TellTooMany` | src/application/turn_engine.rs:348-363 | after a round that exceeded the limit the next pass has no tools, and the limit was told and written |
| `TurnEngine.TurnEngine.EndWithAnswer` | src/application/turn_engine.rs:243-295 | the last answer's text ends the turn's word, after a checkpoint if one is due |
| `TurnEngine.TurnEngine.CloseTurn` | src/application/turn_engine.rs:1015-1064 | the TurnEnd hook is asked about this turn's text, result count and cancellation, and the end is told exactly when it passes |
| `TurnEngine.TurnEngine.Finish` | src/application/turn_engine.rs:1015-1064 | exactly when its hook passes a turn ends; completed and cancelled turns tell their end, failed ones do not |
| `TurnEngine.TurnEngine.RunTurn` | src/application/turn_engine.rs:149-369 | for any provider, hooks, tools and storage: passes, requests and compactions are bounded; a returning turn wrote a whole word, each round being an answer read from a stream of its own pass and the batch that answer asked for, prepared and run as the hooks and handlers of that batch did; a failing one was cut off in such a word of this input and told no end, and its error is justified by what the outside just refused; the hooks asked are TurnStart about the input, one BeforeCompact per compaction, and TurnEnd about what was written; what is told is, pass by pass, the deltas of every stream given, one event per stored compaction, and the events of the batches; no list a model was shown has an orphan |
| `TurnEngine.SendMessage` | src/api/session.rs:89-147 | sending a message is a step of a session run, whatever its turn does; the stored log stays the ledger and events stay numbered |
| `Dispatcher.PrepareBatch` | src/application/tool_dispatcher.rs:283-400 | each call, field by field: a registered one runs with the arguments its hooks left, a blocked or unknown one has its error text, and in a mutating batch everything after the first of these is skipped because of it; it fails if and only if a hook asked up to there breaks its contract |
| `Dispatcher.PreparedShape` | src/application/tool_dispatcher.rs:283-400 | prepared calls keep ids and names, and a mutating batch leaves only a prefix to execute |
| `Dispatcher.RunMeaning` | src/application/tool_dispatcher.rs:676-865 | record and end event of a run agree: it succeeded exactly when the handler returned an output it did not mark as an error; a failed or timed-out run reports its error first, and gives its text and the reason for skipping |
| `Dispatcher.SameOutputEverywhere` | src/application/tool_dispatcher.rs:779-895 | event, hook and ledger see the same output for all metadata of at most a given size if and only if the metadata limit suffices for that size |
| `BatchExecution.FinalizeToolExecution` | src/application/tool_dispatcher.rs:779-846 | error event, end event, then the hook's answer; a run that failed or was aborted says so |
| `BatchExecution.ReachCall` | src/application/tool_dispatcher.rs:497-550 | a reached call tells its start and its end, or its fixed result |
| `BatchExecution.ExecuteMutatingBatch` | src/application/tool_dispatcher.rs:479-569 | the serial loop stops at the first cancellation, failure or abort; every call has the record its position says |
| `BatchExecution.SerialMeaning` | src/application/tool_dispatcher.rs:479-569 | the result of every call of a stopped batch, text by text: its own, cancelled, or skipped because of the call that stopped it |
| `BatchExecution.SerialStory` | src/application/tool_dispatcher.rs:497-550 | a serial batch tells its calls one after the other, each from its start to its end |
| `BatchExecution.HandlersAreCleanPrefix` | src/application/tool_dispatcher.rs:479-569 | the handlers started are a prefix of the batch in model order, up to and including the one that stopped it, and all but the last ended cleanly |
| `BatchExecution.SerialIds` | src/application/tool_dispatcher.rs:479-569 | one result per call, in order, with matching ids, under any cancellation point |
| `BatchExecution.SerialBalanced` | src/application/tool_dispatcher.rs:479-569 | a serial batch ends every call it starts, wherever it stops |
| `BatchExecution.StartAll` | src/application/tool_dispatcher.rs:600-641 | every executable call is started in request order; synthetic results are filled in at once |
| `BatchExecution.AwaitAll` | src/application/tool_dispatcher.rs:643-657 | whatever the completion order, every started call is finalised once and fills its own slot; it fails exactly at a run whose hook breaks its contract |
| `BatchExecution.ExecuteReadOnlyBatch` | src/application/tool_dispatcher.rs:576-664 | the outcome does not depend on the completion order; it stops exactly when some AfterToolUse hook aborted; no result is lost |
| `BatchExecution.CollectOrderedResults` | src/application/tool_dispatcher.rs:973-988 | fails if and only if a slot is empty, otherwise keeps the order |
| `BatchExecution.ParallelBalanced` | src/application/tool_dispatcher.rs:576-664 | a parallel batch ends every call it started, in any completion order |
| `BatchExecution.ParallelStory` | src/application/tool_dispatcher.rs:600-657 | a parallel batch tells all starts in request order, then the ends in completion order |
| `ToolOutputs.TruncateContentToBudget` | src/application/tool_dispatcher.rs:933-960 | the copying loop yields the longest prefix of whole characters that leaves room for the suffix, and the suffix |
| `ToolOutputs.TruncationMeaning` | src/application/tool_dispatcher.rs:933-960 | fitting content is kept; otherwise a maximal prefix and the suffix, or a cut suffix when the budget is tiny; always within the budget |
| `ToolOutputs.NormalizeMeaning` | src/application/tool_dispatcher.rs:912-930 | metadata within its limit stays as it is, larger metadata becomes a note about its size; content that fits beside it stays, and never takes more than is left |
| `ToolOutputs.BudgetHeldExactly` | src/application/tool_dispatcher.rs:912-930 | with limits the builder accepts, the total holds for every output with metadata of at most a given size if and only if such metadata is never replaced or the note about the largest has room |
| `ToolOutputs.IdempotentExactly` | src/application/tool_dispatcher.rs:912-930 | normalising is idempotent on all metadata of at most a given size if and only if the metadata limit suffices for that size |
| `ToolOutputs.ReceivableOutputs` | src/application/tool_dispatcher.rs:912-930 | for everything a process can receive, the total holds if and only if the output limit is at least 57, and normalising is idempotent if and only if the metadata limit is |
| `Hooks.HookRegistry.Register` | src/application/hook_registry.rs:35-40 | a handler is added at the end for its event |
| `Hooks.HookRegistry.Dispatch` | src/application/hook_registry.rs:73-123 | the outcome is that of handlers reading, each at its own moment, the original data with one merged patch applied; each was shown exactly that, and after an abort or a patch of the wrong kind none is called |
| `Hooks.MergeThenApply` | src/application/hook_registry.rs:127-193 | patching step by step equals applying the merged patch once |
| `Hooks.MergeMeaning` | src/application/hook_registry.rs:160-193 | merged sections are all sections in order without blank ones; the last arguments win |
| `Hooks.ShownToHandler` | src/application/hook_registry.rs:73-123 | a TurnStart handler is shown all sections appended before it behind the original ones, a BeforeToolUse handler the arguments written last, any other the original data |
| `Hooks.WhichPatches` | src/application/hook_registry.rs:83-112 | sections are accepted from TurnStart handlers, arguments from BeforeToolUse handlers, and no patch from any other |
| `Hooks.PatchMeaning` | src/application/hook_registry.rs:127-158 | a patch replaces the arguments, or adds its sections behind those that are there |
| `Hooks.NonBlankOne` | src/application/hook_registry.rs:160-193 | a section is dropped exactly when it is blank |
| `Hooks.NonBlankConcat` | src/application/hook_registry.rs:160-193 | each section is judged by itself, and their order is kept |
| `Skills.NamesUnique` | src/application/skill_manager.rs:96-127 | the declarative rule determines the list of names |
| `Skills.NamesMeetRule` | src/application/skill_manager.rs:96-189 | the scan finds exactly the names at all positions that satisfy the rule, in order |
| `Skills.ParseSkillNames` | src/application/skill_manager.rs:96-127 | the index-jumping loop returns exactly those names |
| `Skills.CharactersMeetRule` | src/application/skill_manager.rs:131-189 | the characters the scanner tests are those of the rule |
| `Skills.SuffixMeetsRule` | src/application/skill_manager.rs:142-184 | a name may end before white space, a terminator, or a full stop that ends the text or precedes a terminator |
| `Skills.FullStops` | src/application/skill_manager.rs:157 | a name ends before a full stop at the end of the text, but not before one followed by white space or by more of a file name, nor before a slash |
| `Skills.PrintThenParse` | src/application/skill_manager.rs:96-189 | names printed as /n1 /n2 … are read back |
| `Registry.BuildModelRegistry` | src/api/builder.rs:272-305 | succeeds if and only if no provider and no model is registered twice, and otherwise names one that is; every model then leads to a registered provider |
| `Registry.ValidateModelConfig` | src/api/builder.rs:307-333 | succeeds if and only if every model the configuration names is registered, and otherwise names one that is not |
| `Registry.Build` | src/api/builder.rs:149-155 | an agent the builder accepts has a registry that fits its configuration |
| `Registry.BuildTurnEngineDeps` | src/api/session.rs:204-295 | the dependencies are the providers of the session's, the compact and the memory model, and they resolve if and only if each of these is registered and leads to a registered provider |
| `Registry.PrepareTurn` | src/api/session.rs:89-126 | on an accepted agent a turn is started if and only if its model is registered and the slot allows it, and a started turn always has its dependencies |
| `ControlPlane.AgentControl.ClaimSessionSlot` | src/application/session_service.rs:736-758 | a claim reserves an empty slot of a running agent and is refused otherwise |
| `ControlPlane.AgentControl.RollbackReservation` | src/application/session_service.rs:761-774 | only the own reservation is given back |
| `ControlPlane.AgentControl.ActivateSession` | src/application/session_service.rs:777-807 | only the own reservation becomes active, idle |
| `ControlPlane.AgentControl.BeginClose` | src/application/session_service.rs:810-831 | closing takes over the running turn's handle; a second close is refused |
| `ControlPlane.AgentControl.AbortClose` | src/application/session_service.rs:834-849 | an aborted close makes the closing session idle |
| `ControlPlane.AgentControl.FinishClose` | src/application/session_service.rs:852-867 | only a closing session frees the slot |
| `ControlPlane.AgentControl.StartTurn` | src/api/session.rs:162-201 | a turn starts only in the idle active session of that id |
| `ControlPlane.AgentControl.ClearRunningTurn` | src/api/session.rs:422-440 | a turn state of that session id becomes idle |
| `ControlPlane.AgentControl.BeginShutdown` | src/application/session_service.rs:373-390 | a running agent starts shutting down and names the session to close |
| `ControlPlane.AgentControl.FailShutdown` | src/application/session_service.rs:392-398 | a failed close makes the agent running again |
| `ControlPlane.AgentControl.CompleteShutdown` | src/application/session_service.rs:408-412 | shut down, with an empty slot |
| `ControlRuns.StepKeeps` | src/application/session_service.rs:299-412 | every step of every task keeps the control-plane invariant |
| `ControlRuns.Reachable` | src/application/session_service.rs:299-412 | the invariant holds in every interleaving |
| `ControlRuns.AtMostOneLiveTurn` | src/api/session.rs:357-399 | at most one turn has not given its turn state back |
| `ControlRuns.ClearsItsOwnTurn` | src/api/session.rs:422-440 | clearing by session id never clears another turn, even of the same session resumed |
| `ControlRuns.NoEndHookDuringATurn` | src/application/session_service.rs:341-366 | from the SessionEnd hook to the end of the close no turn is live |
| `ControlRuns.TurnStateIsExact` | src/api/session.rs:162-201 | the slot says "in turn t" if and only if t is the live turn and nobody is closing, "closing" if and only if somebody is, and is idle if and only if neither is the case |
| `ControlRuns.OpensAndRuns` | src/application/session_service.rs:299-334 | on an empty slot a session can be opened and run a turn |
| `ControlRuns.TurnEnds` | src/api/session.rs:357-440 | a turn that ends by itself leaves its session idle |
| `ControlRuns.CloseWaitsForTurn` | src/application/session_service.rs:341-352 | a close begun during a turn goes on only when that turn has told that it is over |
| `ControlRuns.CloseDecides` | src/application/session_service.rs:353-366 | a passing SessionEnd hook lets the close free the slot, an aborting one gives the session back |
| `ControlRuns.ShutdownClosesFirst` | src/application/session_service.rs:373-390 | a shutdown of an idle session first closes it |
| `ControlRuns.ShutdownDecides` | src/application/session_service.rs:391-412 | it completes when that close succeeded, and lets the agent run again when it failed |
| `ControlRuns.ShutdownOfNothing` | src/application/session_service.rs:373-412 | a shutdown without a session completes at once |
| `ControlRuns.ReservationIsOwned` | src/application/session_service.rs:299-334 | a reservation is made only by a running agent and ended only by its own task, which succeeds, or by the end of the agent |
| `ControlRuns.CloseIsNotDisturbed` | src/application/session_service.rs:341-366 | until the agent is shut down a close finds its session closing and frees or restores it |
| `ControlRuns.ShutdownIsFinal` | src/application/session_service.rs:408-412 | once shut down the slot is empty for ever, against stale activations, rollbacks, closes and starts |
| `ControlRuns.NothingLeftToDrop` | src/application/session_service.rs:373-412 | a shutdown that found no reservation drops no session and no live turn |
| `ControlRuns.ReservedCanBeDropped` | src/application/session_service.rs:777-807 | whatever reservation a shutdown meets, the session can still be activated, start any new turn, and be dropped with it |
| `ControlRuns.ShutdownDropsExactly` | src/application/session_service.rs:373-412 | a shutdown may drop an active session or a live turn if and only if a session is being opened when it begins |
| `Memory.BuildIndex` | src/application/memory_manager.rs:235-239 | the index built from a listing is the namespace's stored map |
| `Memory.ApplyMemoryOperations` | src/application/memory_manager.rs:228-298 | index and stored namespace stay the same map; only a refused write ends the run early, and it leaves exactly the effect of the completed operations; other namespaces are untouched |
| `Memory.OwnHistory` | src/application/memory_manager.rs:228-287 | each memory has its own history, whatever happens to the others |
| `Memory.SurvivesUnlessDeleted` | src/application/memory_manager.rs:573-583 | a memory survives exactly when nothing deletes it, with its id, namespace and creation time, and the content of its last update |
| `Memory.NewMemoryHistory` | src/application/memory_manager.rs:241-272 | under the identifier drawn for an operation stands what that operation created, which is exactly for a create or an update without target at that moment, with the history of the operations after it |
| `Memory.CreatedFields` | src/application/memory_manager.rs:241-272 | a memory that was created and not named again has the operation's content and tags, the given source and namespace, and the drawn time twice |
| `Memory.OnlyOldAndDrawn` | src/application/memory_manager.rs:228-287 | every memory after the operations was there before or was drawn for one of them |
| `Memory.MergeMemories` | src/application/memory_manager.rs:335-353 | the loop returns the first of each identifier, cut to the limit |
| `Memory.FirstOfEachMeaning` | src/application/memory_manager.rs:335-353 | every identifier exactly once, with its first memory |
| `Checkpoint.WindowMeaning` | src/application/memory_manager.rs:357-367 | the window is every event above the checkpoint, compacted or not, and ends at the next boundary |
| `Checkpoint.WindowIsSuffix` | src/application/memory_manager.rs:357-367 | in a sorted ledger the window is the end of the ledger, event by event |
| `Checkpoint.RenderOne` | src/application/memory_manager.rs:381-411 | the text of one message is its line, and metadata has none |
| `Checkpoint.RenderJoin` | src/application/memory_manager.rs:371-377 | the text of a window in two parts is the text of both, separated by a newline |
| `Checkpoint.EveryLineStands` | src/application/memory_manager.rs:371-377 | every message of a window stands in its text as a line of its own |
| `Checkpoint.BlankWindow` | src/application/memory_manager.rs:371-411 | the rendered window is blank if and only if it holds metadata only |
| `Checkpoint.ExtractIncremental` | src/application/memory_manager.rs:165-225 | the model is asked about exactly the rendered window, in which every message of it stands, and not at all when that holds no message; it fails only if the memories cannot be listed, the model's answer is unusable or cancelled, or the storage refuses an operation, each with its own error; a success answers the end of the window; a failure before the operations touches no memory |
| `Checkpoint.CloseExtraction` | src/application/session_service.rs:604-676 | the extraction at a close is a step of a checkpoint run: exactly when it was available, in time and successful on new events its checkpoint is tried, and stored unless the storage refuses it; the model was asked about the window the step records |
| `Checkpoint.StepKeeps` | src/application/session_service.rs:604-676 | every step keeps the coverage invariant and only a stored checkpoint moves the checkpoint |
| `Checkpoint.CheckpointOnlyAdvances` | src/application/session_service.rs:957-1005 | the checkpoint strictly increases with a stored checkpoint and moves for nothing else |
| `Checkpoint.CheckpointCoverage` | src/application/memory_manager.rs:165-225 | every event at or below the checkpoint was read by exactly one extraction whose checkpoint was stored, and if it is a message its line stands in the text of that extraction |

## Left out

- Sessions without a session storage: the model always has one, which may refuse any save.
- Timestamps, UUIDs and session ids inside events: fresh identifiers are drawn values, times are opaque.
- JSON encoding: metadata values are typed, and a value under the wrong key is one that does not decode; tool metadata is known by its serialised length.
- The kernel's own system texts are constructors with their byte lengths, not their characters.
- The floating-point product of window and threshold: the number of tokens above which the context is compacted is a parameter, and so are the lengths of prompt and tool definitions, which do not change during a turn.
- Prompt and request rendering, environment text, model capabilities: the outside decides whether a request can be built.
- The extraction of memories inside a turn: whether it succeeds is decided by the outside; what an extraction asks and stores is modelled for the one at a close, which is the same operation.
- What extraction shows the model of an event after the opening of its line is a parameter of the rendering.
- A storage whose events are not strictly increasing from 1: runs start from a new session or from a log that satisfies the invariant.
- The three emitters of the source (turn engine, dispatcher, panic handler) are one method, as they do the same.
- A turn task that panics: what it wrote is a log cut off at some moment, which `SessionRuns.EveryMoment` covers; its error event is not emitted here.
- Tokio tasks, channels, timers and real mutexes: critical sections are atomic steps; poisoned mutexes and abandoned `close` or `send_message` futures do not occur.
- Retry hints, error messages and error sources.
- Saturation of the tool-call counter at the end of `usize`.
- Listing, searching and deleting sessions, plugin start-up and shutdown order, builder validation apart from the output limits and the models.
- Reading invoked skills and rendering their injections: a turn gets its injections as texts.
- Memory search and the bootstrap listing.
- Memory.MergeMemories: demands a positive limit, as the builder does (`src/api/builder.rs:208`); with 0 the source would still return one memory.
- Memory.ApplyMemoryOperations: assumes a storage keyed by identifier that changes nothing when it refuses, and fresh identifiers for new memories.
