/** What a run writes down: its journal, its ledger, the operations and failures it
    counts, and the calls its events announce. */
module RunRecords {
  import opened Text
  import opened Messages
  import opened RunStates
  import opened RunJournal
  import Completion
  import opened Recovery
  import opened RunEvents
  import opened RunMachine
  import opened RunSafety

  // ---- how much of a response is handled ----

  /** How many of the `n` calls of a response may be closed when it ends this way. */
  predicate Answering(flow: Flow, answered: nat, n: nat) {
    match flow
    case Continue => answered <= n
    case Crashed => answered < n
    case Ended(Stopped) => answered == n
    case Ended(StalledCall) => answered < n
    case Ended(StalledFailure) => 0 < answered <= n
    case Ended(_) => false
  }

  /** How many calls were announced: one more when the run ends at an open one. */
  function Asked(flow: Flow, answered: nat): nat {
    if flow == Crashed || flow == Ended(StalledCall) then answered + 1 else answered
  }

  /** How many of the `n` calls of a response are closed when a step ends this way. */
  predicate Follows(flow: Flow, answered: nat, n: nat) {
    match flow
    case Continue => answered == n
    case Crashed => answered < n
    case Ended(SummaryRound) => answered == 0
    case Ended(OutOfSteps) => false
    case Ended(StalledCall) => answered < n
    case Ended(StalledFailure) => 0 < answered <= n
    case Ended(_) => answered == n
  }

  // ---- what a phase adds ----

  /** Nothing of a run's frame changes, and these calls are announced and completed. */
  ghost predicate Adds(before: Run, after: Run, asked: seq<string>, completed: seq<string>) {
    && after.first == before.first && after.maxSteps == before.maxSteps && after.opening == before.opening
    && after.history == before.history && after.known == before.known && after.modelCalls == before.modelCalls
    && Requested(after.events) == Requested(before.events) + asked
    && RunEvents.Completed(after.events) == RunEvents.Completed(before.events) + completed
  }

  /** Nothing is written down and no operation is counted. */
  ghost predicate Unwritten(before: Run, after: Run) {
    && after.journal == before.journal && after.trace == before.trace && after.failures == before.failures
    && after.disabled == before.disabled && after.dealt == before.dealt
  }

  ghost predicate Silent(before: Run, after: Run) {
    Adds(before, after, [], []) && Unwritten(before, after) && after.recorded == before.recorded
  }

  lemma AddsThen(
    a: Run, b: Run, c: Run, asked: seq<string>, completed: seq<string>, more: seq<string>, done: seq<string>)
    requires Adds(a, b, asked, completed) && Adds(b, c, more, done)
    ensures Adds(a, c, asked + more, completed + done)
  {
    hide Requested, RunEvents.Completed;
    Associates(Requested(a.events), asked, more);
    Associates(RunEvents.Completed(a.events), completed, done);
  }

  lemma Associates<T>(a: seq<T>, b: seq<T>, c: seq<T>)
    ensures a + b + c == a + (b + c)
  {
  }

  lemma AddsNothing<T>(a: seq<T>)
    ensures a + [] == a && [] + a == a
  {
  }

  lemma EmittedAdds(r: Run, kind: EventKind, step: nat)
    ensures Adds(r, Emitted(r, kind, step), RequestedBy(kind), CompletedBy(kind))
  {
    hide Requested, RunEvents.Completed;
    AnnouncedSnoc(r.events, Event(kind, r.sequence, step));
  }

  lemma SilentThen(a: Run, b: Run, c: Run)
    requires Silent(a, b) && Silent(b, c)
    ensures Silent(a, c)
  {
    hide Requested, RunEvents.Completed;
  }

  predicate Private(kind: EventKind) {
    !kind.ToolRequested? && !kind.ToolCompleted?
  }

  lemma EmittedSilent(r: Run, kind: EventKind, step: nat)
    requires Private(kind)
    ensures Silent(r, Emitted(r, kind, step))
  {
    hide Requested, RunEvents.Completed;
    EmittedAdds(r, kind, step);
  }

  lemma MovedSilent(r: Run, target: RunState)
    ensures Silent(r, Moved(r, target))
  {
    hide Requested, RunEvents.Completed;
  }

  lemma FinishedSilent(r: Run, ending: Ending, step: nat)
    ensures Silent(r, RunMachine.Finished(r, ending, step))
  {
    hide Silent, Moved, Emitted;
    MovedSilent(r, TerminalState(ending));
    EmittedSilent(Moved(r, TerminalState(ending)), TerminalKind(ending), step);
    SilentThen(r, Moved(r, TerminalState(ending)), RunMachine.Finished(r, ending, step));
  }

  lemma ResumedSilent(r: Run, step: nat)
    ensures Silent(r, Resumed(r, step))
  {
    hide Silent, Moved, Emitted;
    MovedSilent(r, Preparing);
    EmittedSilent(Moved(r, Preparing), StepCompleted, step);
    SilentThen(r, Moved(r, Preparing), Resumed(r, step));
  }

  lemma StepClosedSilent(r: Run, step: nat)
    ensures Silent(r, StepClosed(r, step))
  {
    hide Silent, Emitted;
    EmittedSilent(r, Progress, step);
    EmittedSilent(Emitted(r, Progress, step), StepCompleted, step);
    SilentThen(r, Emitted(r, Progress, step), StepClosed(r, step));
  }

  lemma StartedSilent(r: Run, call: ToolCall, index: nat, step: nat)
    ensures Silent(r, StartedTool(r, call, index, step))
  {
    hide Requested, RunEvents.Completed;
    EmittedSilent(Moved(r, ExecutingTool), ToolStarted(call.id), step);
  }

  lemma {:induction false} EmittedEachSilent(r: Run, kind: EventKind, n: nat, step: nat)
    requires Private(kind)
    ensures Silent(r, EmittedEach(r, kind, n, step))
  {
    hide Emitted, Silent;
    if n == 0 {
      NothingSilent(r);
    } else {
      EmittedEachSilent(r, kind, n - 1, step);
      EmittedSilent(EmittedEach(r, kind, n - 1, step), kind, step);
      SilentThen(r, EmittedEach(r, kind, n - 1, step), EmittedEach(r, kind, n, step));
    }
  }

  lemma NothingSilent(r: Run)
    ensures Silent(r, r)
  {
  }

  lemma BatchSilent(r: Run, n: nat, step: nat, execution: Execution)
    ensures Silent(r, BatchRun(r, n, step, execution))
  {
    hide EmittedEach, Silent;
    var counted := r.(delegated := r.delegated + n);
    CountedSilent(r, n);
    EmittedEachSilent(counted, SubtaskRequested, n, step);
    var asked := EmittedEach(counted, SubtaskRequested, n, step);
    EmittedEachSilent(asked, SubtaskStarted, n, step);
    var begun := EmittedEach(asked, SubtaskStarted, n, step);
    EmittedEachSilent(begun, if execution.Executed? then SubtaskCompleted else SubtaskCancelled, n, step);
    SilentThen(r, counted, asked);
    SilentThen(r, asked, begun);
    SilentThen(r, begun, BatchRun(r, n, step, execution));
  }

  lemma CountedSilent(r: Run, n: nat)
    ensures Silent(r, r.(delegated := r.delegated + n))
  {
  }

  lemma DelegatedSilent(
    cfg: Config, r: Run, call: ToolCall, index: nat, step: nat, request: Delegation, execution: Execution)
    ensures Silent(r, DelegatedAs(cfg, r, call, index, step, request, execution).run)
  {
    hide Silent, StartedTool, BatchRun, ErrorResult;
    StartedSilent(r, call, index, step);
    if request.Batch? {
      BatchSilent(StartedTool(r, call, index, step), request.subtasks, step, execution);
      SilentThen(r, StartedTool(r, call, index, step),
                 BatchRun(StartedTool(r, call, index, step), request.subtasks, step, execution));
    }
  }

  lemma DecidedSilent(cfg: Config, r: Run, call: ToolCall, index: nat, step: nat, input: CallInput)
    ensures Silent(r, DecidedAs(cfg, r, call, index, step, input).run)
  {
    hide Silent, StartedTool, Emitted, ErrorResult;
    NothingSilent(r);
    var told := Emitted(r, ApprovalResolved(call.id, input.wait.Approve?), step);
    EmittedSilent(r, ApprovalResolved(call.id, input.wait.Approve?), step);
    StartedSilent(told, call, index, step);
    SilentThen(r, told, StartedTool(told, call, index, step));
  }

  lemma ApprovedSilent(cfg: Config, r: Run, call: ToolCall, index: nat, step: nat, input: CallInput)
    ensures Silent(r, ApprovedAs(cfg, r, call, index, step, input).run)
  {
    hide Silent, Moved, Emitted, DecidedAs, ErrorResult;
    NothingSilent(r);
    var moved := Moved(r, WaitingApproval);
    var asked := Emitted(moved, ApprovalRequired(call.id), step);
    MovedSilent(r, WaitingApproval);
    EmittedSilent(moved, ApprovalRequired(call.id), step);
    SilentThen(r, moved, asked);
    DecidedSilent(cfg, asked, call, index, step, input);
    SilentThen(r, asked, DecidedAs(cfg, asked, call, index, step, input).run);
  }

  lemma DispatchedSilent(cfg: Config, r: Run, call: ToolCall, index: nat, step: nat, input: CallInput)
    ensures Silent(r, DispatchedAs(cfg, r, call, index, step, input).run)
  {
    hide Silent, StartedTool, DelegatedAs, ApprovedAs, ErrorResult;
    NothingSilent(r);
    StartedSilent(r, call, index, step);
    if input.delegation.Some? {
      DelegatedSilent(cfg, r, call, index, step, input.delegation.value, input.execution);
    }
    ApprovedSilent(cfg, r, call, index, step, input);
  }

  /** Whether a call is counted as an operation. */
  predicate Counts(index: nat, input: CallInput) {
    !input.cancelled && index < MAX_TOOL_CALLS_PER_STEP
  }

  function KeyIf(cfg: Config, call: ToolCall, counted: bool): seq<CallKey> {
    if counted then [KeyOf(cfg, call)] else []
  }

  lemma ConsideredSilent(cfg: Config, r: Run, call: ToolCall, index: nat, step: nat, input: CallInput)
    ensures Silent(r, ConsideredAs(cfg, r, call, index, step, input).run)
  {
    hide Silent, DispatchedAs, ErrorResult, Repeats;
    NothingSilent(r);
    DispatchedSilent(cfg, r, call, index, step, input);
  }

  lemma ProducedAdds(cfg: Config, r: Run, call: ToolCall, index: nat, step: nat, input: CallInput)
    ensures var p := ProducedAs(cfg, r, call, index, step, input);
            && Adds(r, p.run, [], []) && Unwritten(r, p.run)
            && p.run.recorded == r.recorded + KeyIf(cfg, call, index < MAX_TOOL_CALLS_PER_STEP)
  {
    hide ConsideredAs, ErrorResult, Requested, RunEvents.Completed;
    ConsideredSilent(cfg, r.(recorded := r.recorded + [KeyOf(cfg, call)]), call, index, step, input);
  }

  /** A call is announced and counted; nothing is written down before its result. */
  lemma CalledAdds(cfg: Config, r: Run, call: ToolCall, index: nat, step: nat, input: CallInput)
    ensures var p := CalledAs(cfg, r, call, index, step, input);
            && Adds(r, p.run, [call.id], []) && Unwritten(r, p.run)
            && p.run.recorded == r.recorded + KeyIf(cfg, call, Counts(index, input))
  {
    hide ProducedAs, KeyOf, Requested, RunEvents.Completed;
    var counted := r.(toolCalls := r.toolCalls + 1);
    EmittedAdds(counted, ToolRequested(call.id), step);
    var asked := Emitted(counted, ToolRequested(call.id), step);
    ProducedAdds(cfg, asked, call, index, step, input);
  }

  // ---- results ----

  function ResultMessages(dealt: seq<Deal>): (out: seq<Message>)
    ensures |out| == |dealt|
  {
    seq(|dealt|, k requires 0 <= k < |dealt| => ToolMessage(dealt[k].result.content, dealt[k].call.id))
  }

  function DealtCalls(dealt: seq<Deal>): (out: seq<ToolCall>)
    ensures |out| == |dealt|
  {
    seq(|dealt|, k requires 0 <= k < |dealt| => dealt[k].call)
  }

  /** These calls are closed in order: the same results enter ledger and journal. */
  ghost predicate Closes(before: Run, after: Run, calls: seq<ToolCall>) {
    && before.dealt <= after.dealt
    && var added := after.dealt[|before.dealt|..];
       DealtCalls(added) == calls && after.journal == before.journal + ResultMessages(added)
  }

  lemma ClosesThen(a: Run, b: Run, c: Run, first: seq<ToolCall>, second: seq<ToolCall>)
    requires Closes(a, b, first) && Closes(b, c, second)
    ensures Closes(a, c, first + second)
  {
    var one, two := b.dealt[|a.dealt|..], c.dealt[|b.dealt|..];
    assert c.dealt[|a.dealt|..] == one + two;
    assert DealtCalls(one + two) == DealtCalls(one) + DealtCalls(two);
    assert ResultMessages(one + two) == ResultMessages(one) + ResultMessages(two);
  }

  lemma ClosesNothing(before: Run, after: Run)
    requires Unwritten(before, after)
    ensures Closes(before, after, [])
  {
  }

  lemma ClosesLater(a: Run, b: Run, c: Run, calls: seq<ToolCall>)
    requires Unwritten(a, b) && Closes(b, c, calls)
    ensures Closes(a, c, calls)
  {
    hide Unwritten;
    ClosesNothing(a, b);
    ClosesThen(a, b, c, [], calls);
    AddsNothing(calls);
  }

  lemma SettledAdds(cfg: Config, r: Run, call: ToolCall, index: nat, step: nat, result: ToolResult)
    ensures var next := Settled(cfg, r, call, index, step, result);
            && Adds(r, next, [], [call.id]) && Closes(r, next, [call])
            && next.recorded == r.recorded && next.dealt == r.dealt + [Deal(call, step, index, result, false)]
            && next.failures == WithFailure(r.failures, FailureFrom(cfg, call, result))
            && next.disabled == r.disabled + Disables(call, result)
  {
    hide Adds, Closes, WithFailure, FailureFrom, Disables, Delivered;
    DeliveredAdds(r, Deal(call, step, index, result, false), WithFailure(r.failures, FailureFrom(cfg, call, result)),
                  r.disabled + Disables(call, result));
  }

  lemma FinishedCallAdds(
    cfg: Config, r: Run, call: ToolCall, index: nat, step: nat, produced: ToolResult, bytes: nat)
    ensures var h, result := FinishedCall(cfg, r, call, index, step, produced, bytes),
            Bounded(cfg, call, produced, bytes);
            && Adds(r, h.run, [], [call.id]) && Closes(r, h.run, [call]) && h.answered == 1
            && (h.flow == Continue || h.flow == Ended(StalledFailure))
            && h.run.recorded == r.recorded && h.run.dealt == r.dealt + [Deal(call, step, index, result, false)]
            && h.run.failures == WithFailure(r.failures, FailureFrom(cfg, call, result))
            && h.run.disabled == r.disabled + Disables(call, result)
  {
    hide Requested, RunEvents.Completed, WithFailure, FailureFrom, Disables, Bounded, Settled, Judged,
         RunMachine.Finished;
    var result := Bounded(cfg, call, produced, bytes);
    var kept := Settled(cfg, r, call, index, step, result);
    SettledAdds(cfg, r, call, index, step, result);
    FinishedSilent(kept, StalledFailure, step);
  }

  /** One more result in ledger, journal and events. */
  lemma DeliveredAdds(r: Run, d: Deal, failures: seq<FailureKey>, disabled: set<string>)
    ensures var kept := r.(trace := r.trace + [Completion.Entry(d.call.name, d.result)], failures := failures,
                           disabled := disabled, dealt := r.dealt + [d]);
            var next := Delivered(kept, d.call, d.result, d.step);
            && Adds(r, next, [], [d.call.id]) && Closes(r, next, [d.call]) && next.recorded == r.recorded
            && next.failures == failures && next.disabled == disabled && next.dealt == r.dealt + [d]
  {
    hide Requested, RunEvents.Completed;
    assert (r.dealt + [d])[|r.dealt|..] == [d];
    AnnouncedSnoc(r.events, Event(ToolCompleted(d.call.id), r.sequence, d.step));
  }

  lemma CancelledOneAdds(cfg: Config, r: Run, calls: seq<ToolCall>, index: nat, announced: bool, step: nat)
    requires index < |calls|
    ensures var next := CancelledOne(cfg, r, calls, index, announced, step);
            && Adds(r, next, if announced then [] else [calls[index].id], [calls[index].id])
            && Closes(r, next, [calls[index]])
            && next.recorded == r.recorded && next.failures == r.failures && next.disabled == r.disabled
  {
    hide Adds, Closes, ErrorResult, Delivered, Emitted;
    var call, next := calls[index], CancelledOne(cfg, r, calls, index, announced, step);
    var asked := if announced then r else Emitted(r, ToolRequested(call.id), step);
    EmittedAdds(r, ToolRequested(call.id), step);
    EmittedKeeps(r, ToolRequested(call.id), step);
    NothingAdds(r);
    var d := Deal(call, step, index, ErrorResult(cfg, call, "TOOL_CANCELLED"), true);
    DeliveredAdds(asked, d, asked.failures, asked.disabled);
    AddsThen(r, asked, next, if announced then [] else [call.id], [], [], [call.id]);
    AddsNothing([call.id]);
    ClosesFrom(r, asked, next, [call]);
  }

  lemma ClosesFrom(a: Run, b: Run, c: Run, calls: seq<ToolCall>)
    requires a.journal == b.journal && a.dealt == b.dealt && Closes(b, c, calls)
    ensures Closes(a, c, calls)
  {
  }

  lemma {:induction false} CancelledToAdds(cfg: Config, r: Run, calls: seq<ToolCall>, start: nat, end: nat, step: nat)
    requires start <= end <= |calls|
    ensures var next := CancelledTo(cfg, r, calls, start, end, step);
            && Adds(r, next, if start == end then [] else IdsOfCalls(calls[start + 1..end]),
                    IdsOfCalls(calls[start..end]))
            && Closes(r, next, calls[start..end])
            && next.recorded == r.recorded && next.failures == r.failures && next.disabled == r.disabled
    decreases end
  {
    hide Adds, Closes, CancelledOne, IdsOfCalls;
    if end == start {
      hide Adds, Closes;
      NothingAdds(r);
      assert calls[start..end] == [];
      NoIds();
    } else {
      var before := CancelledTo(cfg, r, calls, start, end - 1, step);
      CancelledToAdds(cfg, r, calls, start, end - 1, step);
      CancelledOneAdds(cfg, before, calls, end - 1, end - 1 == start, step);
      IdsSnocOf(calls, start, end);
      AddsThen(r, before, CancelledTo(cfg, r, calls, start, end, step),
               if start == end - 1 then [] else IdsOfCalls(calls[start + 1..end - 1]),
               IdsOfCalls(calls[start..end - 1]),
               if end - 1 == start then [] else [calls[end - 1].id], [calls[end - 1].id]);
      ClosesThen(r, before, CancelledTo(cfg, r, calls, start, end, step), calls[start..end - 1], [calls[end - 1]]);
      assert calls[start..end] == calls[start..end - 1] + [calls[end - 1]];
    }
  }

  lemma NoIds()
    ensures IdsOfCalls([]) == []
  {
  }

  lemma NothingAdds(r: Run)
    ensures Adds(r, r, [], []) && Closes(r, r, [])
  {
  }

  lemma IdsSnocOf(calls: seq<ToolCall>, start: nat, end: nat)
    requires start < end <= |calls|
    ensures IdsOfCalls(calls[start..end]) == IdsOfCalls(calls[start..end - 1]) + [calls[end - 1].id]
    ensures start + 1 == end ==> IdsOfCalls(calls[start + 1..end]) == []
    ensures start + 1 < end ==>
              IdsOfCalls(calls[start + 1..end]) == IdsOfCalls(calls[start + 1..end - 1]) + [calls[end - 1].id]
  {
  }

  /** A cancelled run announces and closes every call it leaves. */
  lemma StoppedAdds(cfg: Config, r: Run, calls: seq<ToolCall>, start: nat, step: nat)
    requires start < |calls|
    ensures var next := StoppedAt(cfg, r, calls, start, step);
            && Adds(r, next, IdsOfCalls(calls[start + 1..]), IdsOfCalls(calls[start..]))
            && Closes(r, next, calls[start..])
            && next.recorded == r.recorded && next.failures == r.failures && next.disabled == r.disabled
  {
    hide IdsOfCalls, CancelledTo, Requested, RunEvents.Completed;
    var moved := Moved(r, Cancelled);
    var closed := CancelledTo(cfg, moved, calls, start, |calls|, step);
    CancelledToAdds(cfg, moved, calls, start, |calls|, step);
    EmittedSilent(closed, RunCancelled, step);
    assert calls[start..|calls|] == calls[start..] && calls[start + 1..|calls|] == calls[start + 1..];
  }

  // ---- the calls of one response ----

  /** The keys of the counted calls among the first `n`. */
  function Keys(cfg: Config, calls: seq<ToolCall>, n: nat): (out: seq<CallKey>)
    requires n <= |calls|
    ensures |out| == if n < MAX_TOOL_CALLS_PER_STEP then n else MAX_TOOL_CALLS_PER_STEP
  {
    seq(if n < MAX_TOOL_CALLS_PER_STEP then n else MAX_TOOL_CALLS_PER_STEP,
        k requires 0 <= k < |calls| => KeyOf(cfg, calls[k]))
  }

  lemma KeysSnoc(cfg: Config, calls: seq<ToolCall>, n: nat)
    requires n < |calls|
    ensures Keys(cfg, calls, n + 1) == Keys(cfg, calls, n) + KeyIf(cfg, calls[n], n < MAX_TOOL_CALLS_PER_STEP)
  {
  }

  /** What the handling of `calls[from..]` up to the `answered` closed ones adds. */
  ghost predicate Handles(before: Run, h: Handled, calls: seq<ToolCall>, from: nat) {
    && from + Asked(h.flow, h.answered) <= |calls| && Answering(h.flow, h.answered, |calls| - from)
    && Adds(before, h.run, IdsOfCalls(calls[from..from + Asked(h.flow, h.answered)]),
            IdsOfCalls(calls[from..from + h.answered]))
    && Closes(before, h.run, calls[from..from + h.answered])
  }

  lemma OneId(calls: seq<ToolCall>, k: nat)
    requires k < |calls|
    ensures calls[k..k + 1] == [calls[k]] && IdsOfCalls(calls[k..k + 1]) == [calls[k].id]
    ensures calls[k..k] == [] && IdsOfCalls(calls[k..k]) == []
    ensures calls[k..k + (|calls| - k)] == calls[k..]
    ensures IdsOfCalls(calls[k..]) == [calls[k].id] + IdsOfCalls(calls[k + 1..])
  {
  }

  lemma ConcludedHandles(cfg: Config, p: Produced, calls: seq<ToolCall>, index: nat, step: nat, bytes: nat)
    requires index < |calls|
    ensures var h := Concluded(cfg, p, calls, index, step, bytes);
            && index + Asked(h.flow, h.answered) <= |calls| && Answering(h.flow, h.answered, |calls| - index)
            && Adds(p.run, h.run,
                    if h.answered == 0 then [] else IdsOfCalls(calls[index + 1..index + h.answered]),
                    IdsOfCalls(calls[index..index + h.answered]))
            && Closes(p.run, h.run, calls[index..index + h.answered])
            && h.run.recorded == p.run.recorded
            && (h.flow == Continue ==> h.answered == 1)
            && (h.flow != Ended(Stopped) ==> Asked(h.flow, h.answered) == 1)
            && (h.answered == 0 <==> h.flow == Crashed || h.flow == Ended(StalledCall))
  {
    hide Adds, Closes, RunMachine.Finished, FinishedCall, StoppedAt, IdsOfCalls;
    OneId(calls, index);
    NothingIds(calls, index);
    match p.d
    case Stalls =>
      FinishedSilent(p.run, StalledCall, step);
      ClosesNothing(p.run, RunMachine.Finished(p.run, StalledCall, step));
    case Refused => NothingAdds(p.run);
    case CancelledHere => StoppedAdds(cfg, p.run, calls, index, step);
    case Outcome(result) => FinishedCallAdds(cfg, p.run, calls[index], index, step, result, bytes);
  }

  lemma NothingIds(calls: seq<ToolCall>, k: nat)
    requires k < |calls|
    ensures calls[k + 1..k + 1] == [] && IdsOfCalls(calls[k + 1..k + 1]) == []
    ensures calls[k + 1..k + (|calls| - k)] == calls[k + 1..]
  {
  }

  lemma AskedIds(calls: seq<ToolCall>, k: nat, answered: nat, asked: nat)
    requires k < |calls| && k + answered <= |calls| && asked == if answered == 0 then 1 else answered
    ensures [calls[k].id] + (if answered == 0 then [] else IdsOfCalls(calls[k + 1..k + answered]))
            == IdsOfCalls(calls[k..k + asked])
  {
  }

  /** One call of a response: announced once, closed once unless the run breaks or
      stalls at it; a cancellation closes every call behind it too. */
  lemma CallTurnHandles(
    cfg: Config, r: Run, calls: seq<ToolCall>, index: nat, step: nat, input: CallInput, bytes: nat)
    requires index < |calls|
    ensures var h := CallTurn(cfg, r, calls, index, step, input, bytes);
            && Handles(r, h, calls, index) && (h.flow == Continue ==> h.answered == 1)
            && (h.flow != Ended(Stopped) ==> Asked(h.flow, h.answered) == 1)
            && h.run.recorded == r.recorded + KeyIf(cfg, calls[index], Counts(index, input))
            && (input.cancelled ==> h.flow == Ended(Stopped))
  {
    hide Adds, Closes, Unwritten, CalledAs, Concluded, IdsOfCalls, KeyOf;
    var p := CalledAs(cfg, r, calls[index], index, step, input);
    var h := Concluded(cfg, p, calls, index, step, bytes);
    CalledAdds(cfg, r, calls[index], index, step, input);
    ConcludedHandles(cfg, p, calls, index, step, bytes);
    AskedIds(calls, index, h.answered, Asked(h.flow, h.answered));
    AddsThen(r, p.run, h.run, [calls[index].id], [],
             if h.answered == 0 then [] else IdsOfCalls(calls[index + 1..index + h.answered]),
             IdsOfCalls(calls[index..index + h.answered]));
    AddsNothing(IdsOfCalls(calls[index..index + h.answered]));
    ClosesLater(r, p.run, h.run, calls[index..index + h.answered]);
    if input.cancelled {
      CancelledStops(cfg, r, calls, index, step, input, bytes);
    }
  }

  lemma CancelledStops(
    cfg: Config, r: Run, calls: seq<ToolCall>, index: nat, step: nat, input: CallInput, bytes: nat)
    requires index < |calls| && input.cancelled
    ensures CallTurn(cfg, r, calls, index, step, input, bytes).flow == Ended(Stopped)
  {
    hide StoppedAt;
  }

  /** Two stretches of one response, one behind the other. */
  lemma HandlesThen(r: Run, before: Handled, now: Handled, h: Handled, calls: seq<ToolCall>, n: nat)
    requires n < |calls| && Handles(r, before, calls, 0) && before.flow == Continue && before.answered == n
    requires Handles(before.run, now, calls, n) && (now.flow == Continue ==> now.answered == 1)
    requires h.run == now.run && h.flow == now.flow && h.answered == n + now.answered
    ensures Handles(r, h, calls, 0) && (h.flow == Continue ==> h.answered == n + 1)
  {
    hide Adds, Closes, IdsOfCalls;
    var asked := Asked(now.flow, now.answered);
    AddsThen(r, before.run, now.run, IdsOfCalls(calls[0..n]), IdsOfCalls(calls[0..n]), IdsOfCalls(calls[n..n + asked]),
             IdsOfCalls(calls[n..n + now.answered]));
    IdsConcat(calls, n, asked);
    IdsConcat(calls, n, now.answered);
    ClosesThen(r, before.run, now.run, calls[0..n], calls[n..n + now.answered]);
  }

  lemma IdsConcat(calls: seq<ToolCall>, n: nat, more: nat)
    requires n + more <= |calls|
    ensures calls[0..n] + calls[n..n + more] == calls[0..n + more]
    ensures IdsOfCalls(calls[0..n]) + IdsOfCalls(calls[n..n + more]) == IdsOfCalls(calls[0..n + more])
  {
  }

  lemma NothingHandled(r: Run, calls: seq<ToolCall>)
    ensures Handles(r, Handled(r, Continue, 0, 0, false), calls, 0)
  {
    assert calls[0..0] == [];
  }

  /** Some number of calls is counted. */
  ghost predicate Counted(cfg: Config, before: seq<CallKey>, after: seq<CallKey>, calls: seq<ToolCall>) {
    exists n :: 0 <= n <= |calls| && after == before + Keys(cfg, calls, n)
  }

  /** The calls of a response are announced, closed and counted in order. */
  lemma {:induction false} CallsTurnHandles(
    cfg: Config, r: Run, calls: seq<ToolCall>, step: nat, inputs: nat -> CallInput, n: nat)
    requires n <= |calls|
    ensures var h := CallsTurn(cfg, r, calls, step, inputs, n);
            && Handles(r, h, calls, 0) && (h.flow == Continue ==> h.answered == n)
            && Counted(cfg, r.recorded, h.run.recorded, calls)
            && (h.flow != Ended(Stopped) ==> h.run.recorded == r.recorded + Keys(cfg, calls, Asked(h.flow, h.answered)))
    decreases n
  {
    hide Handles, CallTurn, Keys, KeyIf, Counted;
    if n == 0 {
      NothingHandled(r, calls);
      NothingCounted(cfg, r.recorded, calls);
    } else {
      var before := CallsTurn(cfg, r, calls, step, inputs, n - 1);
      CallsTurnHandles(cfg, r, calls, step, inputs, n - 1);
      if before.flow == Continue {
        var now := CallTurn(cfg, before.run, calls, n - 1, step, inputs(n - 1), before.bytes);
        CallTurnHandles(cfg, before.run, calls, n - 1, step, inputs(n - 1), before.bytes);
        HandlesThen(r, before, now, CallsTurn(cfg, r, calls, step, inputs, n), calls, n - 1);
        KeysCounted(cfg, r.recorded, before.run.recorded, now.run.recorded, calls, n - 1, inputs(n - 1));
      }
    }
  }

  lemma NothingCounted(cfg: Config, recorded: seq<CallKey>, calls: seq<ToolCall>)
    ensures recorded == recorded + Keys(cfg, calls, 0) && Counted(cfg, recorded, recorded, calls)
  {
  }

  lemma KeysCounted(
    cfg: Config, start: seq<CallKey>, before: seq<CallKey>, after: seq<CallKey>, calls: seq<ToolCall>, n: nat,
    input: CallInput)
    requires n < |calls| && before == start + Keys(cfg, calls, n)
    requires after == before + KeyIf(cfg, calls[n], Counts(n, input))
    ensures !input.cancelled ==> after == start + Keys(cfg, calls, n + 1)
    ensures Counted(cfg, start, after, calls)
  {
    KeysSnoc(cfg, calls, n);
    assert after == start + Keys(cfg, calls, n) || after == start + Keys(cfg, calls, n + 1);
  }

  // ---- what the results are ----

  /** What a dispatched call comes to, read off the operations recorded, the tools
      disabled and the subtasks delegated before it, whether an approval is still
      waited for, and what the world answers. */
  function ComesTo(cfg: Config, r: Run, call: ToolCall, index: nat, input: CallInput): Dispatched {
    if input.cancelled then CancelledHere
    else if index >= MAX_TOOL_CALLS_PER_STEP then Outcome(ErrorResult(cfg, call, "TOOL_CALL_LIMIT"))
    else if RunLength(r.recorded + [KeyOf(cfg, call)]) >= 4 then Stalls
    else if RunLength(r.recorded + [KeyOf(cfg, call)]) == 3 then Outcome(ErrorResult(cfg, call, "TOOL_REPEATED"))
    else if call.name in r.disabled then Outcome(ErrorResult(cfg, call, "TOOL_UNAVAILABLE"))
    else if call.name == OUTCOME_TOOL then Outcome(ErrorResult(cfg, call, "OUTCOME_MUST_BE_ALONE"))
    else if input.delegation.Some? && input.delegation.value.Unprepared? then
      Outcome(ErrorResult(cfg, call, input.delegation.value.code))
    else if input.delegation.Some? && r.delegated + input.delegation.value.subtasks > MAX_SUBTASKS then
      Outcome(ErrorResult(cfg, call, "SUBTASK_LIMIT"))
    else if !NeedsDecision(input) then RanTo(input.execution)
    else if !cfg.approvals then Outcome(ErrorResult(cfg, call, "APPROVAL_UNAVAILABLE"))
    else if input.preview.Some? then Outcome(input.preview.value)
    else if r.state == WaitingApproval then Refused
    else if input.wait.WaitCancelled? then CancelledHere
    else if input.wait.Expire? then Outcome(ErrorResult(cfg, call, "APPROVAL_TIMEOUT"))
    else if input.wait.Refuse? then Outcome(ErrorResult(cfg, call, "APPROVAL_REJECTED"))
    else RanTo(input.execution)
  }

  lemma CalledTo(cfg: Config, r: Run, call: ToolCall, index: nat, step: nat, input: CallInput)
    requires CallState(r.state)
    ensures CalledAs(cfg, r, call, index, step, input).d == ComesTo(cfg, r, call, index, input)
  {
    hide ErrorResult, RunLength, KeyOf, StartedTool, BatchRun;
    var asked := Emitted(r.(toolCalls := r.toolCalls + 1), ToolRequested(call.id), step);
    EmittedKeeps(r.(toolCalls := r.toolCalls + 1), ToolRequested(call.id), step);
    if !input.cancelled && index < MAX_TOOL_CALLS_PER_STEP {
      DispatchedTo(cfg, asked.(recorded := asked.recorded + [KeyOf(cfg, call)]), call, index, step, input);
    }
  }

  lemma DispatchedTo(cfg: Config, r: Run, call: ToolCall, index: nat, step: nat, input: CallInput)
    requires CallState(r.state)
    ensures DispatchedAs(cfg, r, call, index, step, input).d
            == if call.name == OUTCOME_TOOL then Outcome(ErrorResult(cfg, call, "OUTCOME_MUST_BE_ALONE"))
               else if input.delegation.Some? && input.delegation.value.Unprepared? then
                 Outcome(ErrorResult(cfg, call, input.delegation.value.code))
               else if input.delegation.Some? && r.delegated + input.delegation.value.subtasks > MAX_SUBTASKS then
                 Outcome(ErrorResult(cfg, call, "SUBTASK_LIMIT"))
               else if !NeedsDecision(input) then RanTo(input.execution)
               else if !cfg.approvals then Outcome(ErrorResult(cfg, call, "APPROVAL_UNAVAILABLE"))
               else if input.preview.Some? then Outcome(input.preview.value)
               else if r.state == WaitingApproval then Refused
               else if input.wait.WaitCancelled? then CancelledHere
               else if input.wait.Expire? then Outcome(ErrorResult(cfg, call, "APPROVAL_TIMEOUT"))
               else if input.wait.Refuse? then Outcome(ErrorResult(cfg, call, "APPROVAL_REJECTED"))
               else RanTo(input.execution)
  {
    hide ErrorResult, StartedTool, BatchRun, Emitted;
  }

  /** The result call `k` of a response is closed with, if it gets one of its own. */
  function ResultOf(
    cfg: Config, r: Run, calls: seq<ToolCall>, step: nat, inputs: nat -> CallInput, k: nat): Option<ToolResult>
    requires k < |calls|
  {
    var before := CallsTurn(cfg, r, calls, step, inputs, k);
    var d := ComesTo(cfg, before.run, calls[k], k, inputs(k));
    if before.flow == Continue && d.Outcome? then Some(Bounded(cfg, calls[k], d.result, before.bytes)) else None
  }

  /** The bytes of the results so far are counted against the budget of the step. */
  function BytesOf(
    cfg: Config, r: Run, calls: seq<ToolCall>, step: nat, inputs: nat -> CallInput, n: nat): nat
    requires n <= |calls|
  {
    if n == 0 then 0
    else
      var result := ResultOf(cfg, r, calls, step, inputs, n - 1);
      BytesOf(cfg, r, calls, step, inputs, n - 1) + if result.Some? then cfg.utf8Size(result.value.content) else 0
  }

  lemma StateKept(cfg: Config, script: seq<StepInput>, r: Run, calls: seq<ToolCall>, step: nat, n: nat)
    requires ResponseAt(script, step, calls) && n <= |calls| && Live(cfg, script, r) && CallState(r.state)
    ensures var h := CallsTurn(cfg, r, calls, step, script[step - 1].calls, n);
            h.flow == Continue ==> CallState(h.run.state)
  {
    hide Live, Over, CallsTurn, AcceptedCalls;
    CallsTurnGood(cfg, script, r, calls, step, n);
  }

  /** The first `n` results are in, each what its call comes to. */
  ghost predicate Settles(
    cfg: Config, r: Run, h: Handled, calls: seq<ToolCall>, step: nat, inputs: nat -> CallInput, n: nat)
    requires n <= |calls|
  {
    && |h.run.dealt| == |r.dealt| + n && r.dealt <= h.run.dealt
    && h.bytes == BytesOf(cfg, r, calls, step, inputs, n)
    && forall k | 0 <= k < n ::
         && ResultOf(cfg, r, calls, step, inputs, k).Some?
         && h.run.dealt[|r.dealt| + k] == Deal(calls[k], step, k, ResultOf(cfg, r, calls, step, inputs, k).value, false)
  }

  lemma SettlesNext(
    cfg: Config, r: Run, before: Handled, now: Handled, calls: seq<ToolCall>, step: nat, inputs: nat -> CallInput,
    n: nat, result: ToolResult)
    requires n < |calls| && Settles(cfg, r, before, calls, step, inputs, n)
    requires ResultOf(cfg, r, calls, step, inputs, n) == Some(result)
    requires now.run.dealt == before.run.dealt + [Deal(calls[n], step, n, result, false)]
    requires now.bytes == before.bytes + cfg.utf8Size(result.content)
    ensures Settles(cfg, r, now, calls, step, inputs, n + 1)
  {
    hide ResultOf;
  }

  lemma SettlesNothing(cfg: Config, r: Run, calls: seq<ToolCall>, step: nat, inputs: nat -> CallInput)
    ensures Settles(cfg, r, Handled(r, Continue, 0, 0, false), calls, step, inputs, 0)
  {
    hide ResultOf;
  }

  /** While the handling goes on, every call so far has exactly one result, in
      order, and that result is what the call comes to within the byte budget. */
  lemma {:induction false} ResultsAre(
    cfg: Config, script: seq<StepInput>, r: Run, calls: seq<ToolCall>, step: nat, n: nat)
    requires ResponseAt(script, step, calls) && n <= |calls| && Live(cfg, script, r) && CallState(r.state)
    ensures var h := CallsTurn(cfg, r, calls, step, script[step - 1].calls, n);
            h.flow == Continue ==> Settles(cfg, r, h, calls, step, script[step - 1].calls, n)
  {
    hide Live, CallTurn, AcceptedCalls, ComesTo, Bounded, CallState, Settles;
    var inputs := script[step - 1].calls;
    if n == 0 {
      SettlesNothing(cfg, r, calls, step, inputs);
    } else {
      var before := CallsTurn(cfg, r, calls, step, inputs, n - 1);
      ResultsAre(cfg, script, r, calls, step, n - 1);
      if before.flow == Continue {
        StateKept(cfg, script, r, calls, step, n - 1);
        var now := CallTurn(cfg, before.run, calls, n - 1, step, inputs(n - 1), before.bytes);
        TurnDeals(cfg, before.run, calls, n - 1, step, inputs(n - 1), before.bytes);
        if now.flow == Continue {
          var d := ComesTo(cfg, before.run, calls[n - 1], n - 1, inputs(n - 1));
          SettlesNext(cfg, r, before, CallsTurn(cfg, r, calls, step, inputs, n), calls, step, inputs, n - 1,
                      Bounded(cfg, calls[n - 1], d.result, before.bytes));
        }
      }
    }
  }

  lemma TurnDeals(
    cfg: Config, r: Run, calls: seq<ToolCall>, index: nat, step: nat, input: CallInput, bytes: nat)
    requires index < |calls| && CallState(r.state)
    ensures var h, d := CallTurn(cfg, r, calls, index, step, input, bytes), ComesTo(cfg, r, calls[index], index, input);
            h.flow == Continue ==>
              && d.Outcome?
              && var result := Bounded(cfg, calls[index], d.result, bytes);
                 && h.run.dealt == r.dealt + [Deal(calls[index], step, index, result, false)]
                 && h.bytes == bytes + cfg.utf8Size(result.content)
                 && h.run.failures == WithFailure(r.failures, FailureFrom(cfg, calls[index], result))
                 && h.run.disabled == r.disabled + Disables(calls[index], result)
  {
    hide ComesTo, CalledAs, Bounded, StoppedAt, RunMachine.Finished, WithFailure, FailureFrom, Disables, Adds, Closes,
         CallState;
    CalledTo(cfg, r, calls[index], index, step, input);
    CalledAdds(cfg, r, calls[index], index, step, input);
    var p := CalledAs(cfg, r, calls[index], index, step, input);
    if p.d.Outcome? {
      FinishedCallAdds(cfg, p.run, calls[index], index, step, p.d.result, bytes);
    }
  }
}
