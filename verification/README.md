# Verification model of LeanHarness

This project models the deterministic core of LeanHarness, a local coding agent,
and proves what that core promises. Model replies, tool results, user decisions,
clock readings and failing writes are inputs: every statement holds for all of
them. Hashes, Unicode case folding, UTF-8 decoding and JSON texts other than that of
the run evidence are function parameters.

## How it is laid out

The context projector turns an append-only journal and public history into a
bounded message list for the model.

- `Messages`, `ToolProtocol`, `Tiling`: messages, the tool-call protocol, covering
  plans of a sequence.
- `Projection` is the specification of the projector: functions of its state, the
  journal and the summary model's replies. `Projector` is the imperative code, each
  method tied to that specification.
- `ProtectedTail`, `ProjectionLaws`, `ProjectionRounds`: what each of those functions
  comes to, said without them.
- `SummaryCache`, `Compaction`, `JournalSources`, `TaskKept`, `ProtocolKept`,
  `Alignment`, `SemanticProtocol`, `ProjectionLife`, `ProtocolLimits`: what the
  specification guarantees, up to every reachable state of a projector's life.

The agent run is a step machine over a journal, a ledger, a failure tracker and an
event log.

- `RunStates`, `RunEvents`, `RunJournal`, `Completion`, `Recovery`: its parts;
  `CompletionLaws` says which refusal a trace gets.
- `RunMachine` is the specification of a run: functions of the run so far and of what
  the world answers. `Agent` is the imperative code: each handler ensures the function
  of that specification for its phase, and what the phases mean is stated by the
  modules below; only its loops and entry points have rows of their own.
- `RunSafety`: what every moment of every run keeps (numbered events, allowed
  transitions, permitted starts, genuine evidence, the bounds of the tracker).
- `RunRecords`, `RunOutcomes`: what the calls, steps and tasks of a script come to in
  the journal, the log, the ledger and the tracker. `RunEndings`: exactly which step
  ends a run, and how. `RunBreaks`: exactly which scripts make the state machine refuse
  a transition.
- `RunTasks`: how a task opens and closes, and what it forgets of the ones before.
  `RunAnnounces` and `RunSayings`: all events and all messages of a turn, in order.
- `RunProjection` joins a run to the projector, `RunApprovals` to the coordinator.
- `PlanMachine`: the runs of a plan, as a function of its scripts. `PlanExecution`: the
  plan controller that makes them on one agent. `PlanCompletes`, `PlanOutcomes`: which
  plans complete, and what a step that does not complete makes of the plan.
- `Approvals`: the approval coordinator, its waits, and the database rows it writes.

Text formats and decoders.

- `TextLines`, `PatchApplying`, `PatchParsing`, `PatchReader`, `PatchPrinting`,
  `PatchCommit`: the patch engine, from text to files. `PatchGrammar`: the patches that
  are accepted, as a grammar. `PatchVariants`: ways to write one that do not matter.
  `PatchPlaces`: which lines, sides and faults a patch speaks of.
- `SseDecoding`, `ToolCallDeltas`: model responses, streamed and whole. `SseLines` and
  `ToolCallTexts`: which texts and which calls they give.
- `PlanMarkdown`: the plan format; `PlanLines`: what each line of it means.
  `SessionHistory`: the history window; `HistoryForms`: what each message and run puts
  into it. `EvidenceText`: the JSON text of a run's evidence and the loop that shrinks
  it; `EvidenceForms`: what that text says when it is read back.

The table below names the results. Short lemmas without a row are their steps, or fix a
constant or a small helper that they use.

Where the code does not do what one would expect, the model follows the code and
the exact condition is proved:

- A semantic compaction is refused for its tool calls exactly when the chosen slice
  is not balanced (`SemanticRefusedIff`); a journal with a single assistant step is a
  concrete case (`OneStepIsRefused`), two steps rule it out (`SemanticAccepted`).
- A run that ends at a repeated call, or in a text-only round answered with calls,
  leaves calls without results: the journal is legal exactly when the last response
  has all of them (`RunFromLeaves`), and `SummaryLeavesOpen` is a script that ends so.
- A call turned down leaves the state machine waiting for an approval until a tool of
  the same response starts. A further call of that response that asks the user is then
  refused as an illegal transition, and the generator fails without a terminal event.
  A run breaks exactly then (`RunBreaksIff`); `TwoRefusalsBreak` is a script of two
  writes that does.
- A call is told that its request expired whenever its wait ends by the deadline, even
  if a decision came first; it then differs from its row exactly when there is such a
  decision, or an earlier expiry could not be written (`ToldExpiredIff`,
  `ApprovedButToldExpired`). When its own expiry cannot be written, the error of the
  store escapes to it and the row stays as it is (`UnwrittenExpiryStays`).
- The error of a temporary file that cannot be removed takes the place of the write
  error of a patch (`Execute`).
- A printed patch reads back exactly when no removed line starts with two hyphens and a
  space and every path is clean (`PrintedParsesIff`); `a/foo /` is accepted and is not
  (`TrailingSpaceIsLost`). A patched file patched back is the old one exactly under
  `UndoneIff`; a carriage return is lost (`CarriageReturnIsLost`).
- A printed plan parses back exactly when it stays within the parser's limits and its
  step titles are safe (`RoundTripIff`); an accepted step of 1,990 letters does not
  (`LongStepIsLost`).
- Some chunking of a response body decodes otherwise than its bytes in one chunk
  exactly when decoding reaches a line that is over the limit by carriage returns alone
  and the body is not rejected from there on anyway (`ChunksMatterIff`); a line of
  exactly the limit and one carriage return is such a line (`ReturnsMatter`).
- The source ids of the history are distinct exactly when no finished run has two
  shown answers (`HistoryIdsDistinctIff`).
- The loop that shrinks run evidence runs for ever exactly when the record is too large
  for its keys (`RunEvidence`), whatever it observed for a cancelled run with a task of
  2,000 letters and no answer (`LongTaskNeverEnds`).
- A checkpoint replaces the journal but keeps the projector's caches. An old summary is
  never shown for the wrong messages as long as digests tell sources apart
  (`ReachableLife`, `ReplaceKeepsLife`).

## Model

| member | source | states |
|---|---|---|
| ToolProtocol.ValidateToolProtocol | src/leanharness/context/projection.py:667-691 | accepts exactly the sequences whose call ids are distinct and not empty and match one to one with later results |
| ToolProtocol.SpliceLegalIff | src/leanharness/context/projection.py:270-277 | replacing a slice of a legal sequence by a plain message keeps it legal exactly when the slice answers its own calls and no others |
| ToolProtocol.LegalDependsOnShape | src/leanharness/context/projection.py:492-504 | rewriting contents keeps a sequence legal: the protocol sees only roles, calls and ids |
| Compaction.CompactFromMeaning | src/leanharness/context/projection.py:492-504 | the capsule pass turns eligible messages into capsules oldest first, up to the first place where the target is met, or else all of them |
| Compaction.CompactMeaning | src/leanharness/context/projection.py:492-504 | compaction keeps shapes, every message that is no tool result and the protected tail, and the number it reports is the number of messages it turned into capsules |
| Compaction.PreparedMeaning | src/leanharness/context/projection.py:206-215 | the sources prepared for a summary are the applied ones with the same ids and shapes |
| Compaction.SemanticKeepsValid | src/leanharness/context/projection.py:200-295 | a semantic round keeps the cached id lists non-empty, distinct and pairwise disjoint |
| Compaction.NextProjectionAgrees | src/leanharness/context/projection.py:279-295 | after a successful compaction the next projection of the same inputs yields exactly the id sequence that compaction returned |
| Compaction.ProjectionMeaning | src/leanharness/context/projection.py:149-171 | a projection is refused exactly when the applied sources break the protocol; otherwise it has their ids, roles, calls and result ids, every message that is no tool result, and its own size |
| SummaryCache.ExpandApplied | src/leanharness/context/projection.py:316-354 | expanding every summary in the applied sources gives back the raw id sequence |
| SummaryCache.SliceExpansion | src/leanharness/context/projection.py:343-354 | any slice of the applied sources expands to a contiguous slice of the raw ids |
| SummaryCache.FindSliceUnique | src/leanharness/context/projection.py:478-489 | with distinct ids a slice is found at its only place |
| SummaryCache.RecordedValid | src/leanharness/context/projection.py:356-370 | recording a summary keeps the cache disjoint: it replaces every entry it overlaps |
| SummaryCache.AppliedIsSplice | src/leanharness/context/projection.py:316-341 | with the new entry, the applied sources are the old ones with the slice replaced by its summary |
| JournalSources.NormaliseRawIds | src/leanharness/context/projection.py:373-410 | foreign history and live messages get distinct raw ids |
| JournalSources.NormaliseAppend | src/leanharness/context/projection.py:373-410 | appending to the journal appends one source at the end, except that a system message joins leading system messages that are all there is |
| ProtocolKept.ProjectAcceptsLegalJournal | src/leanharness/context/projection.py:149-171 | a projector with balanced caches accepts every legal journal |
| ProtocolKept.RawSliceBalanced | src/leanharness/context/projection.py:270-284 | a balanced slice of the applied sources stands for a balanced slice of the raw ones |
| Alignment.AlignedSliceBalanced | src/leanharness/context/projection.py:558-582 | between two group borders of a legal sequence with adjacent results every slice is balanced |
| Alignment.TakeGroupsBorder | src/leanharness/context/projection.py:558-582 | the chosen prefix ends at a group border |
| Alignment.RangeBorders | src/leanharness/context/projection.py:413-463 | with two assistant steps the candidate range starts and ends at group borders |
| Alignment.CandidateBalanced | src/leanharness/context/projection.py:429-463 | the chosen slice then answers exactly its own calls |
| SemanticProtocol.SemanticAccepted | src/leanharness/context/projection.py:200-295 | on a legal journal with adjacent results and two assistant steps in view, no semantic round is refused for its tool calls |
| ProtocolLimits.SemanticRefusedIff | src/leanharness/context/projection.py:216-277 | in every reachable state with a legal journal, a semantic round is refused for its tool calls exactly when its summary arrived for a slice that is not balanced |
| ProtocolLimits.OneStepIsRefused | src/leanharness/context/projection.py:413-426 | a concrete legal journal with one assistant step: its first round is refused for its tool calls under every encoding in which its first exchange fits a request, and over the budget otherwise |
| TaskKept.ProjectShowsTask | src/leanharness/context/projection.py:149-171 | the first user message of the journal appears verbatim in every projection |
| TaskKept.CandidateAvoidsTask | src/leanharness/context/projection.py:429-463 | no candidate slice contains the active task |
| ProjectionLife.ProjectAsyncSafe | src/leanharness/context/projection.py:173-198 | every projection returned fits the hard budget, reports its true size and shows the active task verbatim |
| ProjectionLife.ReplaceKeepsLife | src/leanharness/runtime/loop.py:208-216 | a checkpoint keeps the projector sound: an old summary is shown only where the very sources it stands for reappear, never for the new task |
| ProjectionLife.ReachableLife | src/leanharness/context/projection.py:120-198 | in every reachable state, also across journals replaced at checkpoints, the caches are disjoint and balanced, none covers the active task, and at most the configured number of summaries was asked for |
| ProjectionLife.ReachableProjection | src/leanharness/context/projection.py:120-198 | in every such state expanding the summaries gives back the raw ids, legal journals are accepted, and two adjacent steps in view keep a semantic round from being refused for its tool calls |
| ProtectedTail.ProtectedStartIs | src/leanharness/context/projection.py:413-426 | the protected tail starts at the last but one assistant step behind the first message, or ten messages from the end, or at the second message |
| ProtectedTail.LastTwoSteps | src/leanharness/context/projection.py:413-426 | if there are two steps behind the first message, the tail starts with one and holds exactly one more |
| ProjectionLaws.SizeJoins | src/leanharness/context/projection.py:694-702 | a size is the sum over the messages of their text, 64 more and the texts of their calls |
| ProjectionLaws.NormaliseIs | src/leanharness/context/projection.py:373-410 | the raw sources are the leading system messages, the marker exactly if a persisted run is in the history, the history, and what was said since |
| ProjectionLaws.LookupIs | src/leanharness/context/projection.py:321-327 | the cache found for an id is the first of the longest that start with it |
| ProjectionLaws.CompactIs | src/leanharness/context/projection.py:492-504 | results of more than 160 characters become capsules oldest first, no more than the target needs and no less unless the tail is reached; the counts reported are those of the shortened results and of the steps ahead of the tail |
| ProjectionLaws.RangeIs | src/leanharness/context/projection.py:429-463 | what lies between the contract or the marker and the task comes first, then what lies between the task and the tail, if it holds a source that is no summary |
| ProjectionLaws.TakenAre | src/leanharness/context/projection.py:558-582 | a request takes as many whole groups as fit 96,000 characters, and is refused exactly when the first one does not |
| ProjectionRounds.ProjectIs | src/leanharness/context/projection.py:149-171 | a plain projection shows the applied sources, shortened exactly as far as the soft budget needs |
| ProjectionRounds.FallbackIs | src/leanharness/context/projection.py:297-314 | the fallback is the plain projection of the sources at hand, refused when it is over the hard budget |
| ProjectionRounds.PreparedIs | src/leanharness/context/projection.py:206-215 | before a summary the sources are shortened as far as the soft budget or a request needs, whichever is less |
| ProjectionRounds.CandidateIs | src/leanharness/context/projection.py:216-234 | the slice sent is exactly the one whose groups fill a request and, with every result told as a capsule, still fit it; without one the budget is exceeded |
| ProjectionRounds.RoundIs | src/leanharness/context/projection.py:200-295 | a round asks at most once; a failed request falls back, a summary that parts a call from its result is refused, any other replaces its slice and is cached for it |
| ProjectionRounds.RoundsAre | src/leanharness/context/projection.py:173-198 | rounds go on exactly while the view does not fit, or once when asked for, and end with a fitting view, at the limit, with a refusal or a fallback, or when a round changed nothing |
| ProjectionRounds.AsyncIs | src/leanharness/context/projection.py:173-198 | a view that fits is returned unless a round is asked for; rounds need a model and the permission to compact; one that is asked for is made or refused |
| Projector.FindProtectedStart | src/leanharness/context/projection.py:413-426 | the backward scan finds the specified start of the protected tail |
| Projector.DeterministicCompact | src/leanharness/context/projection.py:492-504 | the in-place rewriting loop is the specified compaction |
| Projector.NormaliseSources | src/leanharness/context/projection.py:373-410 | the source list is built as specified |
| Projector.BoundedSummarySources | src/leanharness/context/projection.py:558-582 | the group loop takes the specified prefix |
| Projector.FindSourceSlice | src/leanharness/context/projection.py:478-489 | the search finds the first place where the ids stand |
| Projector.LongestFirst | src/leanharness/context/projection.py:321-327 | the caches are tried longest id list first, equal lengths in their stored order |
| Projector.ContextJournal.CompactInPlace | src/leanharness/context/store.py:44-68 | compaction overwrites old entries with capsules and bumps the generation exactly when it changed something |
| Projector.ContextProjector.ApplyCachedSummaries | src/leanharness/context/projection.py:316-341 | the dictionary walk replaces exactly the slices whose ids and digest match |
| Projector.ContextProjector.ExpandedSourceIds | src/leanharness/context/projection.py:343-354 | ids are expanded as specified |
| Projector.ContextProjector.Project | src/leanharness/context/projection.py:149-171 | the deterministic projection is the specified one |
| Projector.ContextProjector.FallbackProjection | src/leanharness/context/projection.py:297-314 | the fallback is the specified one and refuses what does not fit |
| Projector.ContextProjector.SemanticProject | src/leanharness/context/projection.py:200-295 | a semantic round updates calls, generation and cache as specified |
| Projector.ContextProjector.ProjectAsync | src/leanharness/context/projection.py:173-198 | the round loop ends and is the specified one, with calls left as its measure |
| RunJournal.AnsweredLegalIff | src/leanharness/runtime/loop.py:390-1085 | a response with fresh ids and results for its first calls keeps a journal legal exactly when no call is left |
| RunJournal.ExchangeSound | src/leanharness/runtime/loop.py:390-1085 | a full exchange keeps a journal legal and its results adjacent |
| RunJournal.LeftKept | src/leanharness/runtime/loop.py:253-1100 | whatever a step leaves, the journal is legal exactly when all calls of its response are answered, once ids are unique |
| RunJournal.SystemsSound | src/leanharness/runtime/loop.py:208-216 | system messages and one summary are a legal journal whatever was dropped |
| Completion.AcceptedIff | src/leanharness/runtime/completion.py:119-171 | completion is accepted exactly when something was observed, attempted mutations and verifications each succeeded once, and no mutation failed after the last successful one |
| Completion.UnresolvedIff | src/leanharness/runtime/completion.py:50-117 | the unresolved errors are exactly the codes that failed and were not settled since, each once |
| Completion.CompletionLedger.Record | src/leanharness/runtime/completion.py:50-117 | the counters are at every moment the replay of all recorded results |
| Completion.CompletionLedger.ValidateCompleted | src/leanharness/runtime/completion.py:119-171 | the decision depends on the trace alone and accepts exactly the justified ones |
| Recovery.RunLengthIsMaximal | src/leanharness/runtime/recovery.py:68-82 | the repeat count is the length of the longest suffix of identical calls |
| Recovery.ToolFailureTracker.RecordCall | src/leanharness/runtime/recovery.py:68-82 | the third identical call in a row is rejected and the fourth stalls the run |
| Recovery.ToolFailureTracker.RecordResult | src/leanharness/runtime/recovery.py:84-110 | failure counts are the multiplicities of their keys; the third failure of a stalling kind ends the run |
| Recovery.GuidedNeverStalls | src/leanharness/runtime/recovery.py:152-163 | errors that always get guidance never stall a run |
| Recovery.ModelProtocolRecovery.Request | src/leanharness/runtime/recovery.py:28-35 | one repair is granted until the next reset |
| RunStates.EnteredFrom | src/leanharness/runtime/state.py:29-76 | from which states each state may be entered |
| CompletionLaws.LedgerIs | src/leanharness/runtime/completion.py:50-117 | every count and list of the ledger is that of its trace: observations, attempts and successes, denied commands, files written, profiles passed, command failures, and the codes of writes that failed behind the last successful one |
| CompletionLaws.RecoveriesNext | src/leanharness/runtime/completion.py:88-94 | a command that passes makes up for one denied earlier, as long as there is one |
| CompletionLaws.DecisionIs | src/leanharness/runtime/completion.py:119-171 | which of the four refusals a trace gets |
| RunSafety.RunFromRan | src/leanharness/runtime/loop.py:253-1100 | over every script: consecutive events with one terminal event at the end that agrees with the state, only allowed transitions, every started tool permitted and backed by its call, every success genuine, stalled exactly at a bound of the tracker, completed only on justified evidence |
| RunSafety.StepGood | src/leanharness/runtime/loop.py:254-1085 | one turn of the loop keeps all of that, or ends the run with a reason that fits |
| RunSafety.CallTurnGood | src/leanharness/runtime/loop.py:658-1030 | the handling of one call keeps all of that: a call that needs approval starts only directly behind its own request and approval, none starts for the third time in a row, a recorded success is the one its tool returned |
| RunSafety.BegunLive | src/leanharness/runtime/loop.py:218-252 | a task starts with one start event and an allowed transition from wherever the last one ended |
| RunRecords.TurnDeals | src/leanharness/runtime/loop.py:670-1009 | a call that is closed while the run goes on came to a result, read off the operations recorded, the disabled tools, the subtasks, a standing approval and the answers of the world; exactly that result, bounded, enters the record, its bytes count, its failure is counted and a missing repository disables its tool |
| RunRecords.CancelledToAdds | src/leanharness/runtime/loop.py:1304-1347 | a cancellation announces every outstanding call once, answers, records and completes it, in order, and counts nothing |
| RunRecords.CallTurnHandles | src/leanharness/runtime/loop.py:658-1030 | one call is announced once and closed once unless the run breaks or stalls at it, its key is counted exactly when it is dispatched, and a cancellation closes every call behind it |
| RunRecords.CallsTurnHandles | src/leanharness/runtime/loop.py:656-1030 | the calls of a response are announced, closed and counted in order |
| RunRecords.ResultsAre | src/leanharness/runtime/loop.py:656-1030 | while the handling goes on every call has exactly one result, in order, and it is what the call comes to within the byte budget; its failure is counted and its tool disabled accordingly |
| RunOutcomes.GoneLeaves | src/leanharness/runtime/loop.py:308-388 | a failed request ends the run as failed, a cancelled one as cancelled, and neither closes a call |
| RunOutcomes.ActActs | src/leanharness/runtime/loop.py:403-1085 | acting on a response closes its first calls in order, counts all of them when the run goes on, and ends in the reserved round exactly when that round is answered with calls |
| RunOutcomes.StepLeaves | src/leanharness/runtime/loop.py:254-1085 | a turn leaves one response with the results of its first calls, or user messages only, and makes as many requests as its script says |
| RunOutcomes.RunFromLeaves | src/leanharness/runtime/loop.py:253-1100 | whatever the script: the journal is legal exactly when the last response is answered, every announced call is completed except one the run stalls or breaks at, and the counted operations are those of the script |
| RunOutcomes.TaskRuns | src/leanharness/runtime/loop.py:218-1100 | a task is refused exactly when its text is invalid or the state does not allow a start; otherwise both of these hold of its run, and the agent is ready for the next one |
| RunOutcomes.OpeningKept | src/leanharness/runtime/loop.py:226-245 | the opening of a task keeps a legal journal legal |
| RunTasks.TaskOpens | src/leanharness/runtime/loop.py:218-252 | whatever happens in a run, its task is in the journal behind all that was there; a first one behind the system contract |
| RunTasks.FirstOpens | src/leanharness/runtime/loop.py:178-201 | a new agent refuses a first task exactly when its text is invalid, one that has ended a run always |
| RunTasks.FurtherOpens | src/leanharness/runtime/loop.py:183-201 | a further task is refused exactly when its text is invalid or no run has ended, and is shown behind everything said before |
| RunTasks.FurtherForgets | src/leanharness/runtime/loop.py:183-201 | a further task depends on the earlier ones only through the journal, the history and the counters |
| RunTasks.FurtherStartsAnew | src/leanharness/runtime/loop.py:193-199 | a further task runs like a first one of an agent with this journal that has called, recorded, delegated and repaired nothing |
| RunTasks.ValidTasks | src/leanharness/runtime/loop.py:222-225 | the valid texts: something visible in at most 32,000 characters |
| RunTasks.TaskCloses | src/leanharness/runtime/loop.py:218-1100 | the last event and the state of a task that ended agree, and fit how it ended |
| RunAnnounces.CallTells | src/leanharness/runtime/loop.py:658-1030 | all events of one call, in order: its request, the question to the user and the decision, the start, the subtasks, and how it closes |
| RunAnnounces.StepTells | src/leanharness/runtime/loop.py:254-1085 | all events of one turn, in order and under its number, read off the script and the state |
| RunAnnounces.FewSubtasks | src/leanharness/runtime/loop.py:716-800 | no task requests more than five subtasks |
| RunSayings.StepSays | src/leanharness/runtime/loop.py:254-1085 | all messages a turn adds, word for word: the response, the results or the reply to a question or report, the guidance, the nudge or the repair |
| RunSayings.BoundedIs | src/leanharness/runtime/loop.py:968-978 | what a response tells the model stops at 98,304 bytes of results; behind that each result is an error |
| RunSayings.RepeatIs | src/leanharness/runtime/recovery.py:68-82 | a call is turned down exactly when its two predecessors were the same operation, and ends the run when three were |
| RunSayings.JudgedIs | src/leanharness/runtime/recovery.py:84-110 | which failures earn guidance and which end the run |
| RunSayings.StallsIff | src/leanharness/runtime/recovery.py:152-163 | which failures can end a run |
| RunSayings.SameFailure | src/leanharness/runtime/recovery.py:140-149 | failures are counted together if tool, code and the named arguments agree |
| RunSayings.OpenCallsAre | src/leanharness/runtime/loop.py:1304-1347 | a cancelled run closes every open call with the same error |
| RunSayings.OnlyGitIsDisabled | src/leanharness/runtime/loop.py:981-986 | once git finds no repository it is not called again; nothing else is disabled |
| RunSayings.ReservedRound | src/leanharness/runtime/loop.py:403-424 | exactly which steps end in the reserved round |
| RunEndings.StepEnds | src/leanharness/runtime/loop.py:254-1085 | exactly which inputs of a step end a run as completed, as reported incomplete, in the reserved round and for want of a response |
| RunEndings.RunEndsIff | src/leanharness/runtime/loop.py:253-1100 | a run ends in a way exactly when one of the steps it makes does |
| RunEndings.RunCompletesIff | src/leanharness/runtime/loop.py:536-1085 | a run completes exactly when a step it makes reports completion, or answers in plain text, on evidence that justifies it by then |
| RunEndings.RunFailsIff | src/leanharness/runtime/loop.py:308-388 | a run fails for want of a response exactly when a step gets none, is not repaired and is not cancelled |
| RunBreaks.WaitsIff | src/leanharness/runtime/loop.py:821-941 | an approval is still waited for exactly when a call was turned down and no tool started behind it |
| RunBreaks.CallsBreakIff | src/leanharness/runtime/loop.py:821-873 | the handling of a response breaks exactly at a call that asks the user while an approval is still waited for |
| RunBreaks.StepBreaksIff | src/leanharness/runtime/loop.py:650-1030 | a turn breaks exactly when its response is handled call by call and that handling breaks |
| RunBreaks.RunBreaksIff | src/leanharness/runtime/state.py:29-76 | a run breaks exactly when one of the turns it makes does |
| RunBreaks.TwoRefusalsBreak | src/leanharness/runtime/state.py:29-76 | a concrete response of two valid writes, both turned down, that breaks the first run of any new agent |
| RunBreaks.SummaryLeavesOpen | src/leanharness/runtime/loop.py:390-424 | a concrete script whose reserved round is answered with a call: the journal it leaves is not legal |
| RunApprovals.StartedWasApproved | src/leanharness/runtime/loop.py:821-916 | over every run and every history of the coordinator along it: before a tool starts for a call that needs approval, that call was requested, answered in time by the user of its run and waited for, in this order and ahead of the start; the row says approved for good |
| RunApprovals.EveryStart | src/leanharness/runtime/loop.py:685-967 | every event that announces a started tool is the start of one call of the script |
| Agent.CodingAgent.constructor | src/leanharness/runtime/loop.py:124-176 | a new agent with an empty journal, ledger and tracker, ready for a first task |
| Agent.CodingAgent.Create | src/leanharness/runtime/loop.py:122-160 | the construction fails exactly on a step limit out of range or an initial message that is not the user's |
| Agent.CodingAgent.CancelPendingToolCalls | src/leanharness/runtime/loop.py:1304-1347 | the loop over outstanding calls is the specified one, which `CancelledToAdds` characterises |
| Agent.CodingAgent.EachCall | src/leanharness/runtime/loop.py:656-1030 | the loop over the calls of a response is the specified one, which `CallsTurnHandles`, `ResultsAre` and `CallsBreakIff` characterise |
| Agent.CodingAgent.RunTask | src/leanharness/runtime/loop.py:218-1100 | the whole loop is the specified run, and its state then satisfies the guarantees of every run |
| Agent.CodingAgent.Run | src/leanharness/runtime/loop.py:178-181 | a first task is the specified one: the journal opens with the system message |
| Agent.CodingAgent.ContinueTask | src/leanharness/runtime/loop.py:183-201 | a further task starts only after a terminal state, with a new ledger and nothing remembered by the tracker, on the same journal |
| Agent.CodingAgent.SetEventSequence | src/leanharness/runtime/loop.py:203-206 | event numbers never move backwards |
| Agent.CodingAgent.CheckpointContext | src/leanharness/runtime/loop.py:208-216 | between plan steps the system messages and a summary remain, a legal journal, and the history is dropped |
| RunProjection.SoundJournalProjects | src/leanharness/context/projection.py:373-410 | a legal journal with adjacent results stays so when tool-free history is set before its live part |
| RunProjection.RunIsSound | src/leanharness/runtime/loop.py:253-1100 | a task that left no call open leaves a legal journal with adjacent results, once its ids are unique |
| RunProjection.RunLeads | src/leanharness/runtime/loop.py:218-1100 | every run leaves the task directly behind the system messages, as a checkpoint needs it |
| RunProjection.CheckpointLeads | src/leanharness/runtime/loop.py:208-216 | so does every checkpoint |
| RunProjection.RunProjects | src/leanharness/runtime/model_step.py:102-123 | the journal a task leaves with all calls answered is accepted by its projector, whatever that projector did before, also across checkpoints |
| PlanExecution.PlanController.constructor | src/leanharness/planning/controller.py:73-124 | a controller with its own agent, the whole budget and no events |
| PlanExecution.PlanController.Create | src/leanharness/planning/controller.py:73-124 | the construction fails exactly on a step limit out of range |
| PlanExecution.PlanController.Forward | src/leanharness/planning/controller.py:189-203 | the inner events of a run are passed on in order under public numbers; its start and end stay private |
| PlanExecution.PlanController.Launch | src/leanharness/planning/controller.py:178-188 | the run of a step is the specified one, the first task of a new agent or a further one; numbers never move backwards, and it gets what remains of the budget |
| PlanExecution.PlanController.Execute | src/leanharness/planning/controller.py:166-206 | one plan step is the specified run behind its start event; the agent is then ahead by exactly its two private events |
| PlanExecution.PlanController.Complete | src/leanharness/planning/controller.py:221-246 | a completed step is recorded with the evidence that justified it, and all but the last are followed by a checkpoint |
| PlanExecution.PlanController.Advance | src/leanharness/planning/controller.py:167-246 | a turn of the plan makes the specified run of one step within the budget and records the step exactly when it completed |
| PlanExecution.PlanController.RunSteps | src/leanharness/planning/controller.py:126-289 | the loop makes the specified runs, at most as many turns as the budget says over all steps; steps complete in order; the plan stops at the first that does not, as that run ended |
| PlanExecution.PlanController.RunShared | src/leanharness/planning/controller.py:291-448 | one run for all steps, the specified one: they succeed, pause or fail together, and a run stopped by a withheld permission pauses the plan |
| PlanExecution.PlanController.Run | src/leanharness/planning/controller.py:126-289 | the plan makes the specified runs on a new agent; public events are consecutive from the first number and the plan ends with one terminal event that agrees with its outcome; it is unfinished exactly when its last run is pending, broke or had an invalid text |
| PlanExecution.PlanController.PausesFor | src/leanharness/planning/controller.py:627-653 | a plan pauses exactly for an unresolved missing tool, unrequested change or unavailable approval |
| PlanMachine.StepStarts | src/leanharness/planning/controller.py:179-187 | the run of a step is refused exactly when its text is invalid: the first starts a new agent, the others follow a run that ended |
| PlanMachine.EveryStepRuns | src/leanharness/planning/controller.py:145-265 | a plan stops at a refused run exactly when the text of that step is invalid, and otherwise at the end, out of budget, or at a run that did not complete |
| PlanMachine.PlanStarts | src/leanharness/planning/controller.py:126-290 | the same of a whole plan with or without a budget |
| PlanMachine.NextStepOpens | src/leanharness/planning/controller.py:241-244 | a further step shows the model the system messages, the summary of what was done and its own task |
| PlanCompletes.AnsweredPlan | src/leanharness/planning/controller.py:145-265 | a plan of any length whose steps each look once and then answer completes exactly when its budget holds two turns for each of them |
| PlanOutcomes.StopsAsRun | src/leanharness/planning/controller.py:245-278 | a plan that stops at a run ends as that run did, and leaves its step accordingly |
| PlanOutcomes.InnerIs | src/leanharness/planning/controller.py:189-203 | no public event but the last one starts or ends a run |
| Approvals.AlwaysAgrees | src/leanharness/permissions/approval.py:58-127 | over every interleaving no request is both decided and expired, and its row agrees with it |
| Approvals.SettledForGood | src/leanharness/storage/store.py:1035-1059 | a decision is made at most once and a settled row never changes |
| Approvals.DecisionIsAnswer | src/leanharness/permissions/approval.py:100-115 | a decision comes only from an answer to that request, by its own run and before the deadline |
| Approvals.ToldIsStored | src/leanharness/permissions/approval.py:86-98 | a waiting call that is told a decision is told the one in its row, now and for ever, and it was given in time by its own run |
| Approvals.ToldExpiredIff | src/leanharness/permissions/approval.py:86-98 | a waiting call that is told its request expired agrees with its row exactly when no decision was made before its wait ended and an earlier expiry, if there was one, was written |
| Approvals.ApprovedButToldExpired | src/leanharness/permissions/approval.py:86-98 | a concrete history in which the call is told expired while its row says approved |
| Approvals.UnwrittenExpiryStays | src/leanharness/permissions/approval.py:122-127 | a call that gets the error of a store that cannot write its expiry has an undecided request that takes no answer any more and whose row never changes until the next start |
| Approvals.AnsweredBehind | src/leanharness/permissions/approval.py:100-115 | an answer that counts comes behind the request it answers |
| Approvals.CancelRunIs | src/leanharness/permissions/approval.py:117-120 | after a run is cancelled exactly its open futures are cancelled; every other request, decision and row is as before |
| Approvals.OthersStillAnswer | src/leanharness/permissions/approval.py:100-120 | a request of another run still takes its answer |
| Approvals.CancelledIsTold | src/leanharness/permissions/approval.py:86-98 | a later wait for a cancelled request is told so, whatever happens in between, unless it enters past its deadline |
| Approvals.RequestIs | src/leanharness/permissions/approval.py:58-84 | what a request adds and when it fails |
| Approvals.AnswerIs | src/leanharness/permissions/approval.py:100-115 | which answer is refused for what, and exactly what one that counts changes |
| Approvals.ApprovalCoordinator.Request | src/leanharness/permissions/approval.py:58-84 | a request is one step of the machine |
| Approvals.ApprovalCoordinator.Wait | src/leanharness/permissions/approval.py:86-98 | the end of a wait is one step of the machine, and its answer is the decision, expired, cancelled or the error of the store |
| Approvals.ApprovalCoordinator.Resolve | src/leanharness/permissions/approval.py:100-115 | each refusal and the effect of an answer, also on a cancelled future |
| Approvals.ApprovalCoordinator.CancelRun | src/leanharness/permissions/approval.py:117-120 | exactly the open futures of one run are cancelled |
| Approvals.ApprovalStore.InterruptActiveRuns | src/leanharness/storage/store.py:1078-1095 | at start-up every pending row expires |
| TextLines.RenderedLines | src/leanharness/tools/controlled.py:822-824 | a rendered file has the lines it was rendered from unless it ends in an unterminated empty one |
| PatchApplying.AppliedIff | src/leanharness/tools/controlled.py:794-824 | applying succeeds with some lines exactly when old and new lines share the gaps around the two sides of each hunk, each standing where its header says |
| PatchApplying.AppliedGrowth | src/leanharness/tools/controlled.py:794-824 | the number of lines changes by the sum of the header differences |
| PatchApplying.ReversedRestores | src/leanharness/tools/controlled.py:794-824 | the patch with added and removed lines exchanged, placed where its hunks ended up, restores the old lines |
| PatchApplying.UndoneIff | src/leanharness/tools/controlled.py:794-824 | a file patched and patched back has its old text again exactly when that text has line feeds only and the new one keeps lines and their last break |
| PatchApplying.CarriageReturnIsLost | src/leanharness/tools/controlled.py:794-824 | a concrete file whose carriage return is lost by a patch and its reverse |
| PatchApplying.ApplyHunk | src/leanharness/tools/controlled.py:803-818 | the cursor loop finds exactly the hunk's old side at its place |
| PatchApplying.ApplyFilePatch | src/leanharness/tools/controlled.py:794-824 | creation, deletion, change and every error of one file |
| PatchPlaces.OneHunkIs | src/leanharness/tools/controlled.py:803-818 | a hunk replaces its old side at the line its header names, counted from one, and applies nowhere else |
| PatchPlaces.FileIs | src/leanharness/tools/controlled.py:794-824 | what becomes of a file and exactly how it is written, with its last line break |
| PatchPlaces.LineEnds | src/leanharness/tools/controlled.py:800 | which characters end a line |
| PatchParsing.ParsedSound | src/leanharness/tools/controlled.py:721-791 | an accepted patch has matching counts, normal paths inside the workspace, distinct up to case, and 1 to 50 files |
| PatchParsing.PosixSound | src/leanharness/tools/controlled.py:780-791 | a normalised path is normal and still inside |
| PatchReader.ParseUnifiedDiff | src/leanharness/tools/controlled.py:721-777 | the index loops read exactly the grammar, and what they accept is sound |
| PatchGrammar.HeaderIff | src/leanharness/tools/controlled.py:740-749 | a line is a hunk header with these numbers exactly if it is written so, where an omitted count is one |
| PatchGrammar.NameIff | src/leanharness/tools/controlled.py:780-791 | a file name means a path exactly if it is that path in some form, or the empty device |
| PatchGrammar.ReadsIff | src/leanharness/tools/controlled.py:721-777 | a text is read as a patch exactly if its lines are written for it, it has 1 to 50 files, and no path occurs twice up to case |
| PatchGrammar.RenameRefused | src/leanharness/tools/controlled.py:736-737 | two different paths in one file refuse the patch |
| PatchGrammar.EitherEnding | src/leanharness/tools/controlled.py:722 | lines may end with or without carriage returns |
| PatchVariants.VariantParses | src/leanharness/tools/controlled.py:740-749 | how hunk headers are written does not matter |
| PatchVariants.ShortParsesIff | src/leanharness/tools/controlled.py:740-749 | a patch printed without its counts of one reads back under the same condition as one printed in full |
| PatchVariants.MarkBetween | src/leanharness/tools/controlled.py:755-757 | a mark of a missing line break may stand anywhere in a hunk |
| PatchVariants.NoiseBetween | src/leanharness/tools/controlled.py:726-728 | lines that name the versions change nothing where the code skips them |
| PatchGrammar.InsideIff | src/leanharness/tools/controlled.py:788-790 | a path leaves the workspace exactly if it is absolute or has a component that goes up |
| PatchGrammar.NameRefused | src/leanharness/tools/controlled.py:780-791 | which error a refused name gives |
| PatchPrinting.PrintedParsesIff | src/leanharness/tools/controlled.py:721-777 | a printed patch reads back exactly when no removed line looks like a file header and every path is clean |
| PatchPrinting.ParsedPrinted | src/leanharness/tools/controlled.py:721-777 | printing an accepted patch and reading it again changes nothing exactly when its paths are clean |
| PatchPrinting.TrailingSpaceIsLost | src/leanharness/tools/controlled.py:780-791 | an accepted path whose normal form is read as another path |
| PatchCommit.Workspace.Stage | src/leanharness/tools/controlled.py:202-213 | one temporary file for each kept target, and what is there when one fails |
| PatchCommit.Workspace.Install | src/leanharness/tools/controlled.py:214-220 | the targets before the failing one are replaced, the others untouched |
| PatchCommit.Workspace.Rollback | src/leanharness/tools/controlled.py:222-229 | each target whose rollback write succeeds holds its old content, whatever the others do |
| PatchCommit.Workspace.Commit | src/leanharness/tools/controlled.py:199-235 | all or nothing over every fault: committed exactly when every write goes through, and otherwise rolled back, with the temporary files removed exactly when each of those made can be |
| PatchCommit.NothingRefusedIff | src/leanharness/tools/controlled.py:184-197 | a patch is refused for nothing exactly when every file decodes, matches and stays small, and all results together do |
| PatchPlaces.FirstFault | src/leanharness/tools/controlled.py:184-197 | the first file at fault decides what a patch is refused for |
| PatchPlaces.UnwrittenIs | src/leanharness/tools/controlled.py:221-235 | a failed write is reported as one exactly if each temporary file that was made can be removed |
| PatchCommit.SucceedsIff | src/leanharness/tools/controlled.py:172-235 | the call succeeds exactly when nothing refuses it, every temporary file is written and every target is replaced |
| PatchCommit.Workspace.Execute | src/leanharness/tools/controlled.py:172-249 | the whole call succeeds exactly when nothing refuses the patch and every write goes through, each error has its exact cause, and every file becomes what its hunks say, only from the approved contents, or nothing changes |
| SseDecoding.IterSseData | src/leanharness/models/openai_compatible.py:259-292 | the loops are the specified reader; a stream that is not sensitive decodes alike in every chunking, and a line over the limit is always rejected |
| SseDecoding.ChunksMatterIff | src/leanharness/models/openai_compatible.py:259-292 | some chunking decodes otherwise than one chunk exactly when decoding reaches a line over the limit by its carriage returns alone and does not reject the stream from there on anyway |
| SseDecoding.ReturnsMatter | src/leanharness/models/openai_compatible.py:261-272 | a line of exactly the limit with a carriage return behind it makes its stream one where chunking matters, unless it is no text |
| SseLines.LineYields | src/leanharness/models/openai_compatible.py:284-292 | a line yields its text behind the field name and any spaces, or nothing if it is empty, a comment or another field, or is rejected |
| SseLines.StreamYields | src/leanharness/models/openai_compatible.py:259-292 | a stream of lines gives their texts in order, however many carriage returns end them |
| SseLines.OpenLineYields | src/leanharness/models/openai_compatible.py:278-281 | a last line without a line feed counts like the others |
| ToolCallDeltas.AccumulatedIs | src/leanharness/models/openai_compatible.py:397-434 | deltas are accepted exactly when well typed and within limits, and amount to the concatenations of each index |
| ToolCallDeltas.FragmentationIrrelevant | src/leanharness/models/openai_compatible.py:397-449 | streams with the same concatenations give the same calls or are both rejected |
| ToolCallDeltas.AssembledSound | src/leanharness/models/openai_compatible.py:437-449 | accepted calls stand at the indexes 0 to n - 1 with distinct non-empty ids |
| ToolCallDeltas.ParsedIff | src/leanharness/models/openai_compatible.py:374-394 | a whole response parses exactly when each call is well formed and ids are distinct |
| ToolCallDeltas.ParsedStreams | src/leanharness/models/openai_compatible.py:374-449 | a parsed response streamed as whole calls gives the same calls |
| ToolCallDeltas.DeltasJoin | src/leanharness/models/openai_compatible.py:397-434 | accumulating delta by delta is accumulating the joined stream |
| ToolCallTexts.StreamGives | src/leanharness/models/openai_compatible.py:397-449 | a stream gives these calls exactly when every item is well typed, the items speak of the calls 0 to n - 1, and the texts of each make that call with an id of its own |
| ToolCallTexts.ResponseGives | src/leanharness/models/openai_compatible.py:374-394 | a response gives these calls exactly when it spells one object for each, at most 64, with distinct ids |
| ToolCallTexts.SizeIs | src/leanharness/models/openai_compatible.py:433 | sizes are those of the UTF-8 encoding |
| ToolCallDeltas.ToolCallBuffers.Accumulate | src/leanharness/models/openai_compatible.py:397-434 | the dictionary loop adds the items of one delta or rejects it |
| ToolCallDeltas.ToolCallBuffers.Finalize | src/leanharness/models/openai_compatible.py:437-449 | the finished calls in index order |
| ToolCallDeltas.ParseToolCalls | src/leanharness/models/openai_compatible.py:374-394 | the loop over a whole response, with distinct non-empty ids |
| PlanMarkdown.NormalFixed | src/leanharness/planning/parser.py:86-88 | words separated by single spaces stay as they are |
| PlanMarkdown.ParsedSound | src/leanharness/planning/parser.py:20-68 | an accepted plan has 1 to 32 steps numbered from 1 with normal texts and safe titles |
| PlanMarkdown.RoundTripIff | src/leanharness/planning/parser.py:20-96 | a printed plan parses back exactly when it stays within the limits and its step titles are safe |
| PlanMarkdown.ParsedPrinted | src/leanharness/planning/parser.py:20-96 | printing an accepted plan and parsing it again changes nothing exactly when its printed form is within the limits, and fails otherwise |
| PlanMarkdown.LongStepIsLost | src/leanharness/planning/parser.py:20-96 | an accepted step of 1,990 letters that is too long once printed |
| PlanLines.LineIs | src/leanharness/planning/parser.py:30-65 | what each line of a plan means: nothing, a heading, the next step, or a refusal |
| PlanLines.WordsSpell | src/leanharness/planning/parser.py:86-88 | the words found are those the text is spelled with |
| PlanLines.SpelledWords | src/leanharness/planning/parser.py:86-88 | and no others |
| PlanLines.SplitIs | src/leanharness/planning/parser.py:79-83 | the first dash between spaces parts title and instruction; stars and spaces are taken off the title |
| PlanLines.EmptyLines | src/leanharness/planning/parser.py:35-36 | empty lines may stand anywhere |
| PlanMarkdown.ParsePlanMarkdown | src/leanharness/planning/parser.py:20-68 | the line loop is the grammar |
| PlanMarkdown.RenderPlanMarkdown | src/leanharness/planning/parser.py:71-76 | the enabled steps are printed and numbered from 1 |
| SessionHistory.SelectGroups | src/leanharness/application/session_gateway.py:254-263 | the longest suffix of whole groups within the limit |
| SessionHistory.GroupMessages | src/leanharness/application/session_gateway.py:220-249 | each group holds exactly what its messages contribute, groups in order of first appearance |
| SessionHistory.ContextHistory | src/leanharness/application/session_gateway.py:201-263 | the history is that suffix, no group split |
| SessionHistory.GroupingConserves | src/leanharness/application/session_gateway.py:220-249 | grouping loses nothing and repeats nothing |
| SessionHistory.HistoryIdsDistinctIff | src/leanharness/application/session_gateway.py:241-252 | the source ids are distinct exactly when message ids are and no run has two shown answers |
| SessionHistory.WindowIsForeign | src/leanharness/application/session_gateway.py:201-263 | any window then has the distinct foreign ids the projector relies on, and no tool messages |
| HistoryForms.ShownIs | src/leanharness/application/session_gateway.py:220-244 | which messages are shown, as what, and which bring evidence with them |
| HistoryForms.SameGroup | src/leanharness/application/session_gateway.py:226-232 | messages share a group exactly when they are of one run |
| HistoryForms.LeftoverNext | src/leanharness/application/session_gateway.py:250-252 | a finished run that no shown answer speaks of has a group of its own |
| HistoryForms.WindowIs | src/leanharness/application/session_gateway.py:254-263 | the window holds at most 64,000 characters, each source with 64 more, and one group more would be too many |
| EvidenceText.RunEvidence | src/leanharness/application/session_gateway.py:312-334 | the shrinking loop returns its first form that fits and runs for ever exactly when the values of the record leave no room for its keys |
| EvidenceText.LongTextsNeverFit | src/leanharness/application/session_gateway.py:305-334 | task and answer alone can make a record too large |
| EvidenceText.PlainRecordSize | src/leanharness/application/session_gateway.py:295-311 | how large a record of plain characters is |
| EvidenceForms.EscapedReads | src/leanharness/application/session_gateway.py:313 | every text comes back from its JSON form, whatever comes behind it |
| EvidenceForms.FullFormReads | src/leanharness/application/session_gateway.py:295-311 | read back as JSON, a record says these seven things of its run, each under its own name, and then shows the evidence and the last tools |
| EvidenceForms.CompactFormReads | src/leanharness/application/session_gateway.py:321-334 | the compact record says the same of its run and then shows the digest |
| EvidenceForms.JoinedJoins | src/leanharness/application/session_gateway.py:308 | the tools are listed with commas between them |
| EvidenceForms.TooLargeIff | src/leanharness/application/session_gateway.py:312-334 | a record is too large when neither its compact form nor its full form without tools stays within 2,000 characters |
| EvidenceText.LongTaskNeverEnds | src/leanharness/application/session_gateway.py:305-334 | a concrete record, a task of 2,000 letters with an empty answer, for which the loop never ends |

## Left out

- HTTP, FastAPI routes, the command line and the web front end: input and output.
- Real files, subprocesses, Git, SQLite, images and documents: files are a map, writes fail as inputs say.
- Hashes and JSON texts (but for the run evidence) are functions with no assumed injectivity, so an equal digest is only what the code compares; only what survives a checkpoint names it as a premise (`TellsApart`).
- Redaction, logging, prompts, language detection and localised texts: contents are parameters.
- Awaits are inputs in program order; a cancellation that arrives between two awaits appears at the next point where the code looks at it.
- Images in messages, and history given as bare messages: only sources with ids are modelled; a bare message fails in the normalisation the projector runs.
- Tool definitions sent to the model, and the choice of tools in a reserved round.
- Delegated workers: a batch is one tool with a given result; the running cap of five is modelled.
- Agent.CodingAgent.HandleCalls: the guidance after failing tools is one user message with a fixed text, because its wording carries no invariant.
- Agent.CodingAgent.constructor: callers that stay in range; out of range the constructor raises, which `Create` models.
- Agent.CodingAgent.RunTask: a run whose world has not answered its next step is a prefix of one; closing the generator early is not an input. The counters an application may hand in at the start are zero.
- RunOutcomes.RunFromLeaves: legality presumes that the ids of all calls of the journal are distinct, which the model chooses and the code checks only within one response.
- RunApprovals.StartedWasApproved: where the coordinator's steps fall between the events of a run is a premise: a request before its event, its wait before the next one. An error of the store that reaches a run through its request or its wait is not an input of the run; in the code it ends the run without a terminal event.
- ProjectionLife.ReachableLife: a checkpoint presumes that digests tell sources apart, and that the task stands directly behind the system messages, which `RunLeads` and `CheckpointLeads` show of every journal an agent has; without a checkpoint neither is needed.
- PlanExecution.PlanController.PermissionPause: looks at the unresolved errors of the ledger only; a model error whose own code equals a permission code is not distinguished.
- PlanExecution.PlanController.Run: step answers, reports and the plan's stored rows are not modelled; a failing status callback is not an input.
- PatchParsing.ParsedSound: paths follow POSIX rules and decimal digits are the ASCII ones; drive letters and other digits are not modelled.
- PatchCommit.Workspace.Execute: symbolic links and the resolution of a path inside the workspace are not modelled; a target is its normal path, and temporary names are new.
- PlanMarkdown.ParsedSound: the scan for raw tags is a parameter and step numbers use ASCII digits.
- Approvals.ApprovalCoordinator.Request: identifiers are random, so a new request has a new id.
- Approvals.ApprovalCoordinator.Wait: when the deadline and a decision fall together, which of the two the event loop reports is an input; a wait that entered past the deadline always expires.
- SseDecoding.IterSseData: event names, ids and retry fields are ignored by the code as well.
- Run metrics, model configuration, attachment checks and the plugin host: one-branch validation or counters read back from events.
