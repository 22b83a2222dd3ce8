/** What a step of a run announces: which events, in which order and under which step,
    read off what the world brings. */
module RunAnnounces {
  import opened Text
  import opened Messages
  import opened RunStates
  import opened Recovery
  import opened RunEvents
  import opened RunMachine
  import opened RunSafety
  import opened RunOutcomes
  import opened RunEndings
  import opened RunBreaks
  import Completion

  // ---- events of one step ----

  /** Events of these kinds under the next numbers. */
  function Next(kinds: seq<EventKind>, first: nat, step: nat): (out: seq<Event>)
    ensures |out| == |kinds|
  {
    seq(|kinds|, k requires 0 <= k < |kinds| => Event(kinds[k], first + k, step))
  }

  /** Exactly events of these kinds were added, in this order and all of this step. */
  ghost predicate Tells(before: Run, after: Run, step: nat, kinds: seq<EventKind>) {
    after.events == before.events + Next(kinds, before.sequence, step) && after.sequence == before.sequence + |kinds|
  }

  lemma TellsThen(a: Run, b: Run, c: Run, step: nat, first: seq<EventKind>, second: seq<EventKind>)
    requires Tells(a, b, step, first) && Tells(b, c, step, second)
    ensures Tells(a, c, step, first + second)
  {
    assert Next(first + second, a.sequence, step) == Next(first, a.sequence, step) + Next(second, b.sequence, step);
  }

  lemma TellsOne(r: Run, kind: EventKind, step: nat)
    ensures Tells(r, Emitted(r, kind, step), step, [kind])
  {
  }

  /** Nothing but other parts of a run changed. */
  lemma TellsNothing(a: Run, b: Run, step: nat)
    requires b.events == a.events && b.sequence == a.sequence
    ensures Tells(a, b, step, [])
  {
  }

  lemma TellsSame(a: Run, b: Run, c: Run, d: Run, step: nat, kinds: seq<EventKind>)
    requires Tells(b, c, step, kinds)
    requires a.events == b.events && a.sequence == b.sequence && c.events == d.events && c.sequence == d.sequence
    ensures Tells(a, d, step, kinds)
  {
  }

  function Times(kind: EventKind, n: nat): (out: seq<EventKind>)
    ensures |out| == n
  {
    seq(n, _ => kind)
  }

  lemma {:induction false} TellsEach(r: Run, kind: EventKind, n: nat, step: nat)
    ensures Tells(r, EmittedEach(r, kind, n, step), step, Times(kind, n))
    ensures EmittedEach(r, kind, n, step).delegated == r.delegated
  {
    hide Tells, Emitted;
    if n == 0 {
      TellsNothing(r, r, step);
      assert Times(kind, 0) == [];
    } else {
      var before := EmittedEach(r, kind, n - 1, step);
      TellsEach(r, kind, n - 1, step);
      TellsOne(before, kind, step);
      TellsThen(r, before, Emitted(before, kind, step), step, Times(kind, n - 1), [kind]);
      assert Times(kind, n) == Times(kind, n - 1) + [kind];
      EmittedDelegates(before, kind, step);
    }
  }

  lemma EmittedDelegates(r: Run, kind: EventKind, step: nat)
    ensures Emitted(r, kind, step).delegated == r.delegated
  {
  }

  // ---- one call ----

  /** The subtasks of a batch within the limit of five a run are requested, started
      and ended together. */
  function SubtaskKinds(r: Run, input: CallInput): seq<EventKind> {
    if input.delegation.Some? && input.delegation.value.Batch?
      && r.delegated + input.delegation.value.subtasks <= 5 then
      var n := input.delegation.value.subtasks;
      Times(SubtaskRequested, n) + Times(SubtaskStarted, n)
      + Times(if input.execution.Executed? then SubtaskCompleted else SubtaskCancelled, n)
    else []
  }

  /** How many subtasks a call delegates. */
  function Delegates(cfg: Config, r: Run, call: ToolCall, index: nat, input: CallInput): nat {
    if ToolStarts(cfg, r, call, index, input) && input.delegation.Some? && input.delegation.value.Batch?
       && r.delegated + input.delegation.value.subtasks <= 5 then input.delegation.value.subtasks
    else 0
  }

  /** A call is requested; it may ask the user and hear the decision, and its tool may
      start. */
  function CallKinds(cfg: Config, r: Run, call: ToolCall, index: nat, input: CallInput): seq<EventKind> {
    [ToolRequested(call.id)]
    + if AsksApproval(cfg, r, call, index, input) && r.state != WaitingApproval then
        [ApprovalRequired(call.id)]
        + match input.wait
          case WaitCancelled => []
          case Approve => [ApprovalResolved(call.id, true), ToolStarted(call.id)]
          case _ => [ApprovalResolved(call.id, false)]
      else if ToolStarts(cfg, r, call, index, input) && !NeedsDecision(input) then
        [ToolStarted(call.id)] + SubtaskKinds(r, input)
      else []
  }

  lemma StartedTells(r: Run, call: ToolCall, index: nat, step: nat)
    ensures var next := StartedTool(r, call, index, step);
            Tells(r, next, step, [ToolStarted(call.id)]) && next.delegated == r.delegated
  {
  }

  lemma BatchTells(r: Run, n: nat, step: nat, execution: Execution)
    ensures var next := BatchRun(r, n, step, execution);
            && next.delegated == r.delegated + n
            && Tells(r, next, step,
                     Times(SubtaskRequested, n) + Times(SubtaskStarted, n)
                     + Times(if execution.Executed? then SubtaskCompleted else SubtaskCancelled, n))
  {
    hide Tells, EmittedEach;
    var counted := r.(delegated := r.delegated + n);
    var asked := EmittedEach(counted, SubtaskRequested, n, step);
    var begun := EmittedEach(asked, SubtaskStarted, n, step);
    var last := if execution.Executed? then SubtaskCompleted else SubtaskCancelled;
    TellsNothing(r, counted, step);
    TellsEach(counted, SubtaskRequested, n, step);
    TellsThen(r, counted, asked, step, [], Times(SubtaskRequested, n));
    TellsEach(asked, SubtaskStarted, n, step);
    TellsThen(r, asked, begun, step, [] + Times(SubtaskRequested, n), Times(SubtaskStarted, n));
    TellsEach(begun, last, n, step);
    TellsThen(r, begun, EmittedEach(begun, last, n, step), step,
      [] + Times(SubtaskRequested, n) + Times(SubtaskStarted, n), Times(last, n));
    assert [] + Times(SubtaskRequested, n) == Times(SubtaskRequested, n);
  }

  lemma DelegatedTells(
    cfg: Config, r: Run, call: ToolCall, index: nat, step: nat, request: Delegation, input: CallInput)
    requires input.delegation == Some(request)
    ensures var next := DelegatedAs(cfg, r, call, index, step, request, input.execution).run;
            && Tells(r, next, step, [ToolStarted(call.id)] + SubtaskKinds(r, input))
            && next.delegated == r.delegated
                 + if request.Batch? && r.delegated + request.subtasks <= 5 then request.subtasks else 0
  {
    hide Tells, StartedTool, BatchRun, ErrorResult;
    var started := StartedTool(r, call, index, step);
    StartedTells(r, call, index, step);
    assert [ToolStarted(call.id)] + [] == [ToolStarted(call.id)];
    if request.Batch? && r.delegated + request.subtasks <= 5 {
      BatchTells(started, request.subtasks, step, input.execution);
      TellsThen(r, started, BatchRun(started, request.subtasks, step, input.execution), step,
        [ToolStarted(call.id)], SubtaskKinds(r, input));
    }
  }

  lemma DecidedTells(cfg: Config, r: Run, call: ToolCall, index: nat, step: nat, input: CallInput)
    ensures var next := DecidedAs(cfg, r, call, index, step, input).run;
            && next.delegated == r.delegated
            && Tells(r, next, step,
                     match input.wait
                     case WaitCancelled => []
                     case Approve => [ApprovalResolved(call.id, true), ToolStarted(call.id)]
                     case _ => [ApprovalResolved(call.id, false)])
  {
    hide Tells, StartedTool, ErrorResult, Emitted;
    var approved := Emitted(r, ApprovalResolved(call.id, true), step);
    TellsNothing(r, r, step);
    TellsOne(r, ApprovalResolved(call.id, false), step);
    EmittedDelegates(r, ApprovalResolved(call.id, false), step);
    TellsOne(r, ApprovalResolved(call.id, true), step);
    EmittedDelegates(r, ApprovalResolved(call.id, true), step);
    StartedTells(approved, call, index, step);
    TellsThen(r, approved, StartedTool(approved, call, index, step), step, [ApprovalResolved(call.id, true)],
      [ToolStarted(call.id)]);
    assert [ApprovalResolved(call.id, true)] + [ToolStarted(call.id)]
        == [ApprovalResolved(call.id, true), ToolStarted(call.id)];
  }

  lemma DispatchedTells(cfg: Config, r: Run, call: ToolCall, index: nat, step: nat, input: CallInput)
    requires CallState(r.state)
    ensures var next := DispatchedAs(cfg, r, call, index, step, input).run;
            var free := call.name != OUTCOME_TOOL;
            && Tells(r, next, step,
                     if free && NeedsDecision(input) && cfg.approvals && input.preview.None?
                       && r.state != WaitingApproval
                     then [ApprovalRequired(call.id)]
                          + match input.wait
                            case WaitCancelled => []
                            case Approve => [ApprovalResolved(call.id, true), ToolStarted(call.id)]
                            case _ => [ApprovalResolved(call.id, false)]
                     else if free && !NeedsDecision(input) then [ToolStarted(call.id)] + SubtaskKinds(r, input)
                     else [])
            && next.delegated == r.delegated
                 + if free && input.delegation.Some? && input.delegation.value.Batch?
                      && r.delegated + input.delegation.value.subtasks <= 5
                   then input.delegation.value.subtasks else 0
  {
    hide Tells, StartedTool, DelegatedAs, DecidedAs, ErrorResult, Emitted;
    TellsNothing(r, r, step);
    if input.delegation.Some? {
      DelegatedTells(cfg, r, call, index, step, input.delegation.value, input);
    }
    StartedTells(r, call, index, step);
    assert [ToolStarted(call.id)] + [] == [ToolStarted(call.id)];
    var moved := Moved(r, WaitingApproval);
    var asked := Emitted(moved, ApprovalRequired(call.id), step);
    TellsOne(moved, ApprovalRequired(call.id), step);
    EmittedDelegates(moved, ApprovalRequired(call.id), step);
    TellsSame(r, moved, asked, asked, step, [ApprovalRequired(call.id)]);
    DecidedTells(cfg, asked, call, index, step, input);
    TellsThen(r, asked, DecidedAs(cfg, asked, call, index, step, input).run, step, [ApprovalRequired(call.id)],
              match input.wait
              case WaitCancelled => []
              case Approve => [ApprovalResolved(call.id, true), ToolStarted(call.id)]
              case _ => [ApprovalResolved(call.id, false)]);
  }

  /** A call announces itself, then what its dispatch comes to, and delegates no more
      than is left of the limit. */
  lemma CalledTells(cfg: Config, r: Run, call: ToolCall, index: nat, step: nat, input: CallInput)
    requires CallState(r.state)
    ensures var next := CalledAs(cfg, r, call, index, step, input).run;
            && Tells(r, next, step, CallKinds(cfg, r, call, index, input))
            && next.delegated == r.delegated + Delegates(cfg, r, call, index, input)
  {
    hide Tells, DispatchedAs, ErrorResult, RunLength, KeyOf, Emitted, SubtaskKinds;
    var counted := r.(toolCalls := r.toolCalls + 1);
    var asked := Emitted(counted, ToolRequested(call.id), step);
    EmittedKeeps(counted, ToolRequested(call.id), step);
    TellsOne(counted, ToolRequested(call.id), step);
    TellsSame(r, counted, asked, asked, step, [ToolRequested(call.id)]);
    var ready := asked.(recorded := asked.recorded + [KeyOf(cfg, call)]);
    var next := CalledAs(cfg, r, call, index, step, input).run;
    assert [ToolRequested(call.id)] + [] == [ToolRequested(call.id)];
    if LetThrough(cfg, r, call, index, input) {
      EmittedDelegates(counted, ToolRequested(call.id), step);
      DispatchedTells(cfg, ready, call, index, step, input);
      SubtasksSame(r, ready, input);
      TellsSame(asked, ready, next, next, step, CallKinds(cfg, r, call, index, input)[1..]);
      TellsThen(r, asked, next, step, [ToolRequested(call.id)], CallKinds(cfg, r, call, index, input)[1..]);
    } else {
      HeldBack(cfg, r, call, index, step, input);
      TellsSame(r, r, asked, next, step, [ToolRequested(call.id)]);
    }
  }

  lemma SubtasksSame(a: Run, b: Run, input: CallInput)
    requires a.delegated == b.delegated
    ensures SubtaskKinds(a, input) == SubtaskKinds(b, input)
  {
  }

  /** A call that is not let through announces nothing but itself. */
  lemma HeldBack(cfg: Config, r: Run, call: ToolCall, index: nat, step: nat, input: CallInput)
    requires !LetThrough(cfg, r, call, index, input)
    ensures var asked := Emitted(r.(toolCalls := r.toolCalls + 1), ToolRequested(call.id), step);
            var next := CalledAs(cfg, r, call, index, step, input).run;
            next.events == asked.events && next.sequence == asked.sequence && next.delegated == r.delegated
  {
    hide ApprovedAs, DelegatedAs, RanAs, ErrorResult, RunLength, KeyOf;
  }

  // ---- the subtasks among the events ----

  function SubtasksIn(kinds: seq<EventKind>): nat {
    if kinds == [] then 0
    else SubtasksIn(kinds[..|kinds| - 1]) + if kinds[|kinds| - 1] == SubtaskRequested then 1 else 0
  }

  lemma {:induction false} SubtasksJoin(a: seq<EventKind>, b: seq<EventKind>)
    ensures SubtasksIn(a + b) == SubtasksIn(a) + SubtasksIn(b)
  {
    if b == [] {
      assert a + b == a;
    } else {
      SubtasksJoin(a, b[..|b| - 1]);
      assert (a + b)[..|a + b| - 1] == a + b[..|b| - 1];
    }
  }

  lemma {:induction false} NoSubtasksIn(kinds: seq<EventKind>)
    requires forall k | 0 <= k < |kinds| :: kinds[k] != SubtaskRequested
    ensures SubtasksIn(kinds) == 0
  {
    if kinds != [] {
      NoSubtasksIn(kinds[..|kinds| - 1]);
    }
  }

  lemma {:induction false} AllSubtasks(n: nat)
    ensures SubtasksIn(Times(SubtaskRequested, n)) == n
  {
    if n > 0 {
      AllSubtasks(n - 1);
      assert Times(SubtaskRequested, n)[..n - 1] == Times(SubtaskRequested, n - 1);
    }
  }

  /** The events of these kinds were added, and the subtasks among them are counted. */
  ghost predicate Telling(before: Run, after: Run, step: nat, kinds: seq<EventKind>) {
    Tells(before, after, step, kinds) && after.delegated == before.delegated + SubtasksIn(kinds)
  }

  lemma TellingThen(a: Run, b: Run, c: Run, step: nat, first: seq<EventKind>, second: seq<EventKind>)
    requires Telling(a, b, step, first) && Telling(b, c, step, second)
    ensures Telling(a, c, step, first + second)
  {
    hide Tells;
    TellsThen(a, b, c, step, first, second);
    SubtasksJoin(first, second);
  }

  lemma TellingOne(r: Run, kind: EventKind, step: nat)
    requires kind != SubtaskRequested
    ensures Telling(r, Emitted(r, kind, step), step, [kind])
  {
    TellsOne(r, kind, step);
    NoSubtasksIn([kind]);
  }

  lemma TellingNothing(a: Run, b: Run, step: nat)
    requires b.events == a.events && b.sequence == a.sequence && b.delegated == a.delegated
    ensures Telling(a, b, step, [])
  {
    TellsNothing(a, b, step);
  }

  /** Other parts of a run do not matter. */
  lemma TellingSame(a: Run, b: Run, c: Run, d: Run, step: nat, kinds: seq<EventKind>)
    requires Telling(b, c, step, kinds) && a.delegated == b.delegated && c.delegated == d.delegated
    requires a.events == b.events && a.sequence == b.sequence && c.events == d.events && c.sequence == d.sequence
    ensures Telling(a, d, step, kinds)
  {
  }

  lemma {:induction false} CallSubtasks(cfg: Config, r: Run, call: ToolCall, index: nat, input: CallInput)
    ensures SubtasksIn(CallKinds(cfg, r, call, index, input)) == Delegates(cfg, r, call, index, input)
  {
    hide SubtasksIn, LetThrough;
    var kinds := CallKinds(cfg, r, call, index, input);
    if ToolStarts(cfg, r, call, index, input) && !NeedsDecision(input) && SubtaskKinds(r, input) != [] {
      var n := input.delegation.value.subtasks;
      var last := if input.execution.Executed? then SubtaskCompleted else SubtaskCancelled;
      AllSubtasks(n);
      NoSubtasksIn(Times(SubtaskStarted, n));
      NoSubtasksIn(Times(last, n));
      NoSubtasksIn([ToolRequested(call.id)] + [ToolStarted(call.id)]);
      SubtasksJoin(Times(SubtaskRequested, n), Times(SubtaskStarted, n));
      SubtasksJoin(Times(SubtaskRequested, n) + Times(SubtaskStarted, n), Times(last, n));
      SubtasksJoin([ToolRequested(call.id)] + [ToolStarted(call.id)], SubtaskKinds(r, input));
      assert kinds == [ToolRequested(call.id)] + [ToolStarted(call.id)] + SubtaskKinds(r, input);
    } else {
      NoSubtasksIn(kinds);
    }
  }

  // ---- the end of a call ----

  /** The calls still open are requested, unless they were, and completed. */
  function OpenKinds(calls: seq<ToolCall>, start: nat, end: nat): seq<EventKind>
    requires start <= end <= |calls|
  {
    if end == start then []
    else
      OpenKinds(calls, start, end - 1)
      + (if end - 1 == start then [] else [ToolRequested(calls[end - 1].id)]) + [ToolCompleted(calls[end - 1].id)]
  }

  /** How a call ends: with its result, with the end of the run, or without a word. */
  function CloseKinds(flow: Flow, calls: seq<ToolCall>, index: nat): seq<EventKind>
    requires index < |calls|
  {
    match flow
    case Continue => [ToolCompleted(calls[index].id)]
    case Crashed => []
    case Ended(StalledFailure) => [ToolCompleted(calls[index].id), RunFailed]
    case Ended(Stopped) => OpenKinds(calls, index, |calls|) + [RunCancelled]
    case Ended(_) => [RunFailed]
  }

  lemma CancelledOneTells(cfg: Config, r: Run, calls: seq<ToolCall>, index: nat, announced: bool, step: nat)
    requires index < |calls|
    ensures Telling(r, CancelledOne(cfg, r, calls, index, announced, step), step,
                    (if announced then [] else [ToolRequested(calls[index].id)]) + [ToolCompleted(calls[index].id)])
  {
    hide ErrorResult;
    var id := calls[index].id;
    var next := CancelledOne(cfg, r, calls, index, announced, step);
    NoSubtasksIn((if announced then [] else [ToolRequested(id)]) + [ToolCompleted(id)]);
    var asked := if announced then r else Emitted(r, ToolRequested(id), step);
    assert Tells(r, asked, step, if announced then [] else [ToolRequested(id)]);
    assert Tells(asked, next, step, [ToolCompleted(id)]);
    TellsThen(r, asked, next, step, if announced then [] else [ToolRequested(id)], [ToolCompleted(id)]);
  }

  lemma {:induction false} CancelledToTells(
    cfg: Config, r: Run, calls: seq<ToolCall>, start: nat, end: nat, step: nat)
    requires start <= end <= |calls|
    ensures Telling(r, CancelledTo(cfg, r, calls, start, end, step), step, OpenKinds(calls, start, end))
    decreases end
  {
    hide Telling, CancelledOne;
    if start == end {
      TellingNothing(r, r, step);
    } else {
      var before := CancelledTo(cfg, r, calls, start, end - 1, step);
      CancelledToTells(cfg, r, calls, start, end - 1, step);
      CancelledOneTells(cfg, before, calls, end - 1, end - 1 == start, step);
      var more := (if end - 1 == start then [] else [ToolRequested(calls[end - 1].id)]);
      TellingThen(r, before, CancelledOne(cfg, before, calls, end - 1, end - 1 == start, step), step,
        OpenKinds(calls, start, end - 1), more + [ToolCompleted(calls[end - 1].id)]);
      assert OpenKinds(calls, start, end)
          == OpenKinds(calls, start, end - 1) + (more + [ToolCompleted(calls[end - 1].id)]);
    }
  }

  lemma {:induction false} StoppedTells(cfg: Config, r: Run, calls: seq<ToolCall>, start: nat, step: nat)
    requires start < |calls|
    ensures Telling(r, StoppedAt(cfg, r, calls, start, step), step, OpenKinds(calls, start, |calls|) + [RunCancelled])
  {
    hide Telling, CancelledTo, Emitted, OpenKinds;
    var moved := Moved(r, Cancelled);
    var closed := CancelledTo(cfg, moved, calls, start, |calls|, step);
    CancelledToTells(cfg, moved, calls, start, |calls|, step);
    TellingSame(r, moved, closed, closed, step, OpenKinds(calls, start, |calls|));
    TellingOne(closed, RunCancelled, step);
    TellingThen(r, closed, Emitted(closed, RunCancelled, step), step, OpenKinds(calls, start, |calls|), [RunCancelled]);
  }

  lemma FinishedTells(r: Run, ending: Ending, step: nat)
    ensures Telling(r, RunMachine.Finished(r, ending, step), step, [TerminalKind(ending)])
  {
    hide Telling, Emitted;
    var moved := Moved(r, TerminalState(ending));
    TellingOne(moved, TerminalKind(ending), step);
    TellingSame(r, moved, Emitted(moved, TerminalKind(ending), step), Emitted(moved, TerminalKind(ending), step), step,
      [TerminalKind(ending)]);
  }

  lemma SettledTells(cfg: Config, r: Run, call: ToolCall, index: nat, step: nat, result: ToolResult)
    ensures Telling(r, Settled(cfg, r, call, index, step, result), step, [ToolCompleted(call.id)])
  {
    hide WithFailure, FailureFrom, Disables;
    NoSubtasksIn([ToolCompleted(call.id)]);
  }

  lemma FinishedCallTells(
    cfg: Config, r: Run, calls: seq<ToolCall>, index: nat, step: nat, produced: ToolResult, bytes: nat)
    requires index < |calls|
    ensures var h := FinishedCall(cfg, r, calls[index], index, step, produced, bytes);
            Telling(r, h.run, step, CloseKinds(h.flow, calls, index))
  {
    hide Telling, Settled, Bounded, Judged, FailureFrom, RunMachine.Finished;
    var call := calls[index];
    var result := Bounded(cfg, call, produced, bytes);
    var kept := Settled(cfg, r, call, index, step, result);
    SettledTells(cfg, r, call, index, step, result);
    FinishedTells(kept, StalledFailure, step);
    TellingThen(r, kept, RunMachine.Finished(kept, StalledFailure, step), step, [ToolCompleted(call.id)], [RunFailed]);
    assert [ToolCompleted(call.id)] + [RunFailed] == [ToolCompleted(call.id), RunFailed];
  }

  /** All that one call of a response announces. */
  lemma CallTells(
    cfg: Config, r: Run, calls: seq<ToolCall>, index: nat, step: nat, input: CallInput, bytes: nat)
    requires index < |calls| && CallState(r.state)
    ensures var h := CallTurn(cfg, r, calls, index, step, input, bytes);
            Telling(r, h.run, step,
                    CallKinds(cfg, r, calls[index], index, input) + CloseKinds(h.flow, calls, index))
  {
    hide Telling, CallKinds, CalledAs, FinishedCall, StoppedAt, RunMachine.Finished, OpenKinds;
    var p := CalledAs(cfg, r, calls[index], index, step, input);
    var h := CallTurn(cfg, r, calls, index, step, input, bytes);
    CalledTelling(cfg, r, calls[index], index, step, input);
    match p.d {
      case Stalls => FinishedTells(p.run, StalledCall, step);
      case Refused => TellingNothing(p.run, p.run, step);
      case CancelledHere => StoppedTells(cfg, p.run, calls, index, step);
      case Outcome(result) => FinishedCallTells(cfg, p.run, calls, index, step, result, bytes);
    }
    TellingThen(r, p.run, h.run, step, CallKinds(cfg, r, calls[index], index, input),
      CloseKinds(h.flow, calls, index));
  }

  lemma CalledTelling(cfg: Config, r: Run, call: ToolCall, index: nat, step: nat, input: CallInput)
    requires CallState(r.state)
    ensures Telling(r, CalledAs(cfg, r, call, index, step, input).run, step, CallKinds(cfg, r, call, index, input))
  {
    hide Tells, CalledAs, CallKinds, Delegates;
    CalledTells(cfg, r, call, index, step, input);
    CallSubtasks(cfg, r, call, index, input);
  }

  // ---- acting on a response ----

  /** All that the handling of the first `n` calls announces, until it ends. */
  function CallsKinds(
    cfg: Config, r: Run, calls: seq<ToolCall>, step: nat, inputs: nat -> CallInput, n: nat): seq<EventKind>
    requires n <= |calls|
  {
    if n == 0 then []
    else
      var before := CallsTurn(cfg, r, calls, step, inputs, n - 1);
      CallsKinds(cfg, r, calls, step, inputs, n - 1)
      + if before.flow != Continue then []
        else
          CallKinds(cfg, before.run, calls[n - 1], n - 1, inputs(n - 1))
          + CloseKinds(CallsTurn(cfg, r, calls, step, inputs, n).flow, calls, n - 1)
  }

  lemma {:induction false} CallsTell(
    cfg: Config, r: Run, calls: seq<ToolCall>, step: nat, inputs: nat -> CallInput, n: nat)
    requires n <= |calls| && CallState(r.state)
    ensures Telling(r, CallsTurn(cfg, r, calls, step, inputs, n).run, step, CallsKinds(cfg, r, calls, step, inputs, n))
    decreases n
  {
    hide Telling, CallTurn, CallKinds, CloseKinds, CallState;
    if n == 0 {
      TellingNothing(r, r, step);
    } else {
      var before := CallsTurn(cfg, r, calls, step, inputs, n - 1);
      var kinds := CallsKinds(cfg, r, calls, step, inputs, n - 1);
      CallsTell(cfg, r, calls, step, inputs, n - 1);
      assert kinds + [] == kinds;
      if before.flow == Continue {
        AlwaysCallState(cfg, r, calls, step, inputs, n - 1);
        var now := CallTurn(cfg, before.run, calls, n - 1, step, inputs(n - 1), before.bytes);
        CallTells(cfg, before.run, calls, n - 1, step, inputs(n - 1), before.bytes);
        TellingThen(r, before.run, now.run, step, kinds,
          CallKinds(cfg, before.run, calls[n - 1], n - 1, inputs(n - 1)) + CloseKinds(now.flow, calls, n - 1));
      }
    }
  }

  /** What follows the question of a response that asks the user. */
  function QuestionKinds(cfg: Config, id: string, answer: UserAnswer): seq<EventKind> {
    if answer.BadRequest? || !cfg.userInputs then [ToolCompleted(id), StepCompleted]
    else
      [InputRequired(id)]
      + match answer
        case AnswerCancelled => [ToolCompleted(id), RunCancelled]
        case Answer(_) => [InputResolved(id), ToolCompleted(id), StepCompleted]
        case _ => [ToolCompleted(id), StepCompleted]
  }

  /** What follows the report of a response that reports the outcome. */
  ghost function ReportKinds(trace: seq<Completion.Entry>, id: string, report: OutcomeReport): seq<EventKind> {
    [ToolCompleted(id)]
    + if report.ReportsIncomplete? then [RunIncomplete]
      else if report.ReportsCompleted? && Completion.Justified(trace) then [RunCompleted]
      else [Progress, StepCompleted]
  }

  /** What the reaction to a response announces. */
  ghost function ReactionKinds(
    cfg: Config, r: Run, content: string, calls: seq<ToolCall>, input: StepInput, step: nat, summaryRound: bool)
    : seq<EventKind>
  {
    if SummaryEnds(cfg, summaryRound, calls) then [RunIncomplete]
    else if calls == [] then
      if NonBlank(content) && Completion.Justified(r.trace) then [RunCompleted] else [Progress, StepCompleted]
    else if AsksUser(calls) then [ToolRequested(calls[0].id)] + QuestionKinds(cfg, calls[0].id, input.answer)
    else if ReportsOutcome(calls) then
      [ToolRequested(calls[0].id)] + ReportKinds(r.trace, calls[0].id, input.outcome)
    else
      var begun := Emitted(r, Progress, step);
      [Progress] + CallsKinds(cfg, begun, calls, step, input.calls, |calls|)
      + if CallsTurn(cfg, begun, calls, step, input.calls, |calls|).flow == Continue then [StepCompleted] else []
  }

  lemma {:induction false} AllCallsTell(cfg: Config, r: Run, calls: seq<ToolCall>, step: nat, inputs: nat -> CallInput)
    requires CallState(r.state)
    ensures var begun := Emitted(r, Progress, step);
            var h := CallsTurn(cfg, begun, calls, step, inputs, |calls|);
            Telling(r, AllCallsTurn(cfg, r, calls, step, inputs).run, step,
                    [Progress] + CallsKinds(cfg, begun, calls, step, inputs, |calls|)
                    + if h.flow == Continue then [StepCompleted] else [])
  {
    hide Telling, CallsTurn, CallsKinds, Emitted;
    var begun := Emitted(r, Progress, step);
    var h := CallsTurn(cfg, begun, calls, step, inputs, |calls|);
    var kinds := CallsKinds(cfg, begun, calls, step, inputs, |calls|);
    TellingOne(r, Progress, step);
    EmittedKeeps(r, Progress, step);
    CallsTell(cfg, begun, calls, step, inputs, |calls|);
    TellingThen(r, begun, h.run, step, [Progress], kinds);
    assert [Progress] + kinds + [] == [Progress] + kinds;
    if h.flow == Continue {
      var told := if h.guided then Said(h.run, Plain(User, cfg.guidance)) else h.run;
      var moved := Moved(told, Preparing);
      TellingOne(moved, StepCompleted, step);
      var next := Emitted(moved, StepCompleted, step);
      TellingSame(h.run, moved, next, next, step, [StepCompleted]);
      TellingThen(r, h.run, next, step, [Progress] + kinds, [StepCompleted]);
    }
  }

  lemma DeliveredTells(r: Run, call: ToolCall, result: ToolResult, step: nat)
    ensures Telling(r, Delivered(r, call, result, step), step, [ToolCompleted(call.id)])
  {
    hide Emitted, Telling;
    var said := Said(r, ToolMessage(result.content, call.id));
    TellingNothing(r, said, step);
    TellingOne(said, ToolCompleted(call.id), step);
    TellingThen(r, said, Delivered(r, call, result, step), step, [], [ToolCompleted(call.id)]);
    assert [] + [ToolCompleted(call.id)] == [ToolCompleted(call.id)];
  }

  lemma MovedTells(r: Run, target: RunState, kind: EventKind, step: nat)
    requires kind != SubtaskRequested
    ensures Telling(r, Emitted(Moved(r, target), kind, step), step, [kind])
  {
    hide Emitted, Telling;
    var moved := Moved(r, target);
    TellingNothing(r, moved, step);
    TellingOne(moved, kind, step);
    TellingThen(r, moved, Emitted(moved, kind, step), step, [], [kind]);
    assert [] + [kind] == [kind];
  }

  lemma StepClosedTells(r: Run, step: nat)
    ensures Telling(r, StepClosed(r, step), step, [Progress, StepCompleted])
  {
    hide Emitted, Telling;
    TellingOne(r, Progress, step);
    var shown := Emitted(r, Progress, step);
    TellingOne(shown, StepCompleted, step);
    TellingThen(r, shown, Emitted(shown, StepCompleted, step), step, [Progress], [StepCompleted]);
    assert [Progress] + [StepCompleted] == [Progress, StepCompleted];
  }

  lemma AnsweredTells(r: Run, call: ToolCall, result: ToolResult, step: nat)
    ensures Telling(r, Resumed(Delivered(r, call, result, step), step), step, [ToolCompleted(call.id), StepCompleted])
  {
    hide Emitted, Telling, Delivered;
    var told := Delivered(r, call, result, step);
    DeliveredTells(r, call, result, step);
    MovedTells(told, Preparing, StepCompleted, step);
    TellingThen(r, told, Resumed(told, step), step, [ToolCompleted(call.id)], [StepCompleted]);
    assert [ToolCompleted(call.id)] + [StepCompleted] == [ToolCompleted(call.id), StepCompleted];
  }

  lemma OpenOne(call: ToolCall)
    ensures OpenKinds([call], 0, 1) == [ToolCompleted(call.id)]
  {
    assert OpenKinds([call], 0, 0) == [];
  }

  lemma InputTells(cfg: Config, r: Run, call: ToolCall, answer: UserAnswer, step: nat)
    ensures Telling(r, InputTurn(cfg, r, call, answer, step).run, step,
                    [ToolRequested(call.id)] + QuestionKinds(cfg, call.id, answer))
  {
    hide Emitted, Telling, Delivered, Resumed, Moved, StoppedAt, InputResult;
    var asked := Emitted(r, ToolRequested(call.id), step);
    var result := InputResult(cfg, call, answer);
    TellingOne(r, ToolRequested(call.id), step);
    if answer.BadRequest? || !cfg.userInputs {
      AnsweredTells(asked, call, result, step);
      TellingThen(r, asked, Resumed(Delivered(asked, call, result, step), step), step, [ToolRequested(call.id)],
        [ToolCompleted(call.id), StepCompleted]);
    } else {
      var waiting := Emitted(Moved(asked, WaitingInput), InputRequired(call.id), step);
      MovedTells(asked, WaitingInput, InputRequired(call.id), step);
      TellingThen(r, asked, waiting, step, [ToolRequested(call.id)], [InputRequired(call.id)]);
      WaitingTells(cfg, waiting, call, answer, result, step);
      var last := InputTurn(cfg, r, call, answer, step).run;
      var rest := QuestionKinds(cfg, call.id, answer)[1..];
      TellingThen(r, waiting, last, step, [ToolRequested(call.id)] + [InputRequired(call.id)], rest);
      assert [ToolRequested(call.id)] + QuestionKinds(cfg, call.id, answer)
          == [ToolRequested(call.id)] + [InputRequired(call.id)] + rest;
    }
  }

  lemma WaitingTells(cfg: Config, r: Run, call: ToolCall, answer: UserAnswer, result: ToolResult, step: nat)
    requires !answer.BadRequest? && cfg.userInputs
    ensures var told := if answer.Answer? then Emitted(r, InputResolved(call.id), step) else r;
            var last := if answer.AnswerCancelled? then StoppedAt(cfg, r, [call], 0, step)
                        else Resumed(Delivered(told, call, result, step), step);
            Telling(r, last, step, QuestionKinds(cfg, call.id, answer)[1..])
  {
    hide Emitted, Telling, Delivered, Resumed, StoppedAt;
    var id := call.id;
    match answer
    case AnswerCancelled =>
      StoppedTells(cfg, r, [call], 0, step);
      OpenOne(call);
      assert [ToolCompleted(id)] + [RunCancelled] == [ToolCompleted(id), RunCancelled];
    case Answer(_) =>
      var told := Emitted(r, InputResolved(id), step);
      TellingOne(r, InputResolved(id), step);
      AnsweredTells(told, call, result, step);
      TellingThen(r, told, Resumed(Delivered(told, call, result, step), step), step, [InputResolved(id)],
        [ToolCompleted(id), StepCompleted]);
      assert [InputResolved(id)] + [ToolCompleted(id), StepCompleted]
          == [InputResolved(id), ToolCompleted(id), StepCompleted];
    case _ =>
      AnsweredTells(r, call, result, step);
  }

  lemma TriedTells(r: Run, call: ToolCall, result: ToolResult, step: nat)
    ensures Telling(r, TriedAgain(r, call, result, step), step, [ToolCompleted(call.id)] + [Progress, StepCompleted])
  {
    hide Emitted, Telling, Delivered, StepClosed;
    var told := Delivered(r, call, result, step);
    var closed := StepClosed(told, step);
    DeliveredTells(r, call, result, step);
    StepClosedTells(told, step);
    TellingThen(r, told, closed, step, [ToolCompleted(call.id)], [Progress, StepCompleted]);
    TellingSame(r, r, closed, Moved(closed, Preparing), step, [ToolCompleted(call.id)] + [Progress, StepCompleted]);
  }

  lemma OutcomeTells(cfg: Config, r: Run, call: ToolCall, report: OutcomeReport, step: nat)
    ensures Telling(r, OutcomeTurn(cfg, r, call, report, step).run, step,
                    [ToolRequested(call.id)] + ReportKinds(r.trace, call.id, report))
  {
    hide Emitted, Telling, Delivered, TriedAgain, RunMachine.Finished, ErrorResult, ReportResult,
         Completion.Accepts, Completion.Justified;
    Completion.AcceptedIff(r.trace);
    var asked := Emitted(r, ToolRequested(call.id), step);
    var id, last := call.id, OutcomeTurn(cfg, r, call, report, step).run;
    TellingOne(r, ToolRequested(id), step);
    match report {
      case BadOutcome(code) => TriedTells(asked, call, ErrorResult(cfg, call, code), step);
      case ReportsIncomplete(text) =>
        var told := Delivered(asked, call, ReportResult(text), step);
        DeliveredTells(asked, call, ReportResult(text), step);
        FinishedTells(told, Reported, step);
        TellingThen(asked, told, last, step, [ToolCompleted(id)], [RunIncomplete]);
      case ReportsCompleted(text) =>
        if Completion.Accepts(r.trace) {
          DoneTells(asked, call, text, step);
        } else {
          TriedTells(asked, call, ErrorResult(cfg, call, "OUTCOME_CONTRADICTS_EVIDENCE"), step);
        }
    }
    TellingThen(r, asked, last, step, [ToolRequested(id)], ReportKinds(r.trace, id, report));
  }

  lemma DoneTells(r: Run, call: ToolCall, text: string, step: nat)
    ensures var closed := Delivered(Moved(r, RunState.Completed), call, ReportResult(text), step);
            Telling(r, Emitted(closed, RunCompleted, step), step, [ToolCompleted(call.id)] + [RunCompleted])
  {
    hide Emitted, Telling, Delivered, ReportResult;
    var moved := Moved(r, RunState.Completed);
    var closed := Delivered(moved, call, ReportResult(text), step);
    DeliveredTells(moved, call, ReportResult(text), step);
    TellingSame(r, moved, closed, closed, step, [ToolCompleted(call.id)]);
    TellingOne(closed, RunCompleted, step);
    TellingThen(r, closed, Emitted(closed, RunCompleted, step), step, [ToolCompleted(call.id)], [RunCompleted]);
  }

  lemma TextTells(cfg: Config, r: Run, content: string, step: nat)
    ensures Telling(r, TextTurn(cfg, r, content, step).run, step,
                    if NonBlank(content) && Completion.Justified(r.trace) then [RunCompleted]
                    else [Progress, StepCompleted])
  {
    hide Telling, StepClosed, RunMachine.Finished, Completion.Accepts, Completion.Justified, NonBlank;
    Completion.AcceptedIff(r.trace);
    FinishedTells(r, Done, step);
    var told := Moved(Said(r, Plain(User, cfg.nudge)), Preparing);
    var closed := StepClosed(told, step);
    StepClosedTells(told, step);
    TellingSame(r, told, closed, closed, step, [Progress, StepCompleted]);
  }

  lemma ReactionTells(
    cfg: Config, r: Run, content: string, calls: seq<ToolCall>, input: StepInput, step: nat, summaryRound: bool)
    requires CallState(r.state)
    ensures Telling(r, ActTurn(cfg, r, content, calls, input, step, summaryRound).run, step,
                    ReactionKinds(cfg, r, content, calls, input, step, summaryRound))
  {
    hide Telling, InputTurn, OutcomeTurn, AllCallsTurn, TextTurn, SummaryEnds, RunMachine.Finished, QuestionKinds,
         ReportKinds, CallsKinds, CallsTurn, Completion.Justified, NonBlank;
    if SummaryEnds(cfg, summaryRound, calls) {
      FinishedTells(r, SummaryRound, step);
    } else if calls == [] {
      TextTells(cfg, r, content, step);
    } else if AsksUser(calls) {
      InputTells(cfg, r, calls[0], input.answer, step);
    } else if ReportsOutcome(calls) {
      OutcomeTells(cfg, r, calls[0], input.outcome, step);
    } else {
      AllCallsTell(cfg, r, calls, step, input.calls);
    }
  }

  // ---- one step ----

  /** What asking the model announces: each context it is shown, and each that was made
      shorter for it. */
  function AskedKinds(input: StepInput): seq<EventKind> {
    if input.projection.Unprojected? then []
    else
      [ContextProjected] + (if input.projection.compacted then [ContextCompacted] else [])
      + if SentAgain(input) then [ContextCompacted] else []
  }

  predicate OfContext(failure: ModelFailure) {
    failure.ContextBudget? || failure.ContextProtocol?
  }

  /** The context is what the request failed for. */
  predicate ContextFails(input: StepInput) {
    if input.projection.Unprojected? then OfContext(input.projection.failure)
    else if input.reply.Broken? then OfContext(input.reply.failure)
    else if !input.reply.ContextTooLong? then false
    else if input.recovery.Unprojected? then OfContext(input.recovery.failure)
    else
      || !SentAgain(input) || input.secondReply.ContextTooLong?
      || (input.secondReply.Broken? && OfContext(input.secondReply.failure))
  }

  /** The model said what it cost. */
  predicate CostKnown(input: StepInput)
    requires input.projection.Projected?
  {
    || (input.reply.Responded? && input.reply.usage)
    || (SentAgain(input) && input.secondReply.Responded? && input.secondReply.usage)
  }

  /** All that a step without a response announces behind the request. */
  function SilentKinds(r: Run, input: StepInput): seq<EventKind> {
    if IsRepaired(r, input) then [Progress, StepCompleted]
    else if RequestCancelled(input) then [RunCancelled]
    else if ContextFails(input) then [CompactionFailed, RunFailed]
    else [RunFailed]
  }

  /** The run at the moment a response is acted on. */
  function AtResponse(cfg: Config, r: Run, input: StepInput, step: nat): Run {
    var reached := ModelTurn(cfg, Emitted(r, StepStarted, step), input, step);
    if reached.answer.Accepted?
    then RunBreaks.Reported(reached.run, reached.answer.content, reached.answer.calls, reached.answer.usage, step)
    else reached.run
  }

  /** All that a step announces. */
  ghost function StepKinds(cfg: Config, r: Run, input: StepInput, step: nat, summaryRound: bool): seq<EventKind> {
    if input.cancelled then [RunCancelled]
    else
      var text := AcceptedText(input);
      [StepStarted] + AskedKinds(input)
      + if text.None? then SilentKinds(r, input)
        else
          (if CostKnown(input) then [UsageReported] else [])
          + ReactionKinds(cfg, AtResponse(cfg, r, input, step), text.value, AcceptedCalls(input), input, step,
                          summaryRound)
  }

  lemma ShownTells(r: Run, compacted: bool, step: nat)
    ensures var asked := AskedModel(Moved(Shown(r, compacted, step), RequestingModel));
            Telling(r, asked, step, [ContextProjected] + if compacted then [ContextCompacted] else [])
  {
    hide Emitted, Telling;
    var shown := Emitted(r, ContextProjected, step);
    TellingOne(r, ContextProjected, step);
    assert [ContextProjected] + [] == [ContextProjected];
    if compacted {
      TellingOne(shown, ContextCompacted, step);
      TellingThen(r, shown, Emitted(shown, ContextCompacted, step), step, [ContextProjected], [ContextCompacted]);
    }
    var last := Shown(r, compacted, step);
    TellingSame(r, r, last, AskedModel(Moved(last, RequestingModel)), step,
      [ContextProjected] + if compacted then [ContextCompacted] else []);
  }

  lemma RetryTells(r: Run, input: StepInput, digest: string, step: nat)
    ensures Telling(r, RetryTurn(r, input, digest, step).run, step,
                    if input.recovery.Projected? && input.recovery.digest != digest then [ContextCompacted] else [])
  {
    hide Emitted, Telling;
    TellingNothing(r, r, step);
    if input.recovery.Projected? && input.recovery.digest != digest {
      var shown := Emitted(r, ContextCompacted, step);
      TellingOne(r, ContextCompacted, step);
      TellingSame(r, r, shown, RetryTurn(r, input, digest, step).run, step, [ContextCompacted]);
    }
  }

  lemma RepairTells(cfg: Config, r: Run, step: nat)
    ensures Telling(r, RepairTurn(cfg, r, step).run, step, if r.repaired then [] else [Progress, StepCompleted])
  {
    hide Telling, StepClosed;
    TellingNothing(r, r, step);
    var told := Moved(Said(r.(repaired := true), Plain(User, cfg.repairPrompt)), Preparing);
    StepClosedTells(told, step);
    TellingSame(r, told, StepClosed(told, step), StepClosed(told, step), step, [Progress, StepCompleted]);
  }

  lemma ReplyTells(cfg: Config, r: Run, input: StepInput, digest: string, step: nat)
    requires input.projection.Projected? && input.projection.digest == digest
    ensures Telling(r, ReplyTurn(cfg, r, input, digest, step).run, step,
                    if input.reply.Malformed? && !r.repaired then [Progress, StepCompleted]
                    else if SentAgain(input) then [ContextCompacted] else [])
  {
    hide Telling, RetryTurn, RepairTurn;
    TellingNothing(r, r, step);
    TellingNothing(r, Moved(r, Interpreting), step);
    RetryTells(r, input, digest, step);
    RepairTells(cfg, r, step);
  }

  lemma ModelTells(cfg: Config, r: Run, input: StepInput, step: nat)
    ensures Telling(r, ModelTurn(cfg, r, input, step).run, step,
                    AskedKinds(input) + if IsRepaired(r, input) then [Progress, StepCompleted] else [])
  {
    hide Telling, ReplyTurn, Shown;
    TellingNothing(r, r, step);
    if input.projection.Projected? {
      var asked := AskedModel(Moved(Shown(r, input.projection.compacted, step), RequestingModel));
      var shown := [ContextProjected] + if input.projection.compacted then [ContextCompacted] else [];
      ShownTells(r, input.projection.compacted, step);
      ShownRepaired(r, input.projection.compacted, step);
      ReplyTells(cfg, asked, input, input.projection.digest, step);
      var rest := if IsRepaired(r, input) then [Progress, StepCompleted]
        else if SentAgain(input) then [ContextCompacted] else [];
      TellingThen(r, asked, ModelTurn(cfg, r, input, step).run, step, shown, rest);
      assert AskedKinds(input) + (if IsRepaired(r, input) then [Progress, StepCompleted] else []) == shown + rest;
    }
  }

  lemma ShownRepaired(r: Run, compacted: bool, step: nat)
    ensures Shown(r, compacted, step).repaired == r.repaired
  {
  }

  lemma GoneTells(r: Run, failure: ModelFailure, step: nat)
    ensures Telling(r, GoneTurn(r, failure, step).run, step,
                    if failure.CancelRequest? then [RunCancelled]
                    else if OfContext(failure) then [CompactionFailed, RunFailed] else [RunFailed])
  {
    hide Telling, Emitted, RunMachine.Finished;
    FinishedTells(r, Stopped, step);
    var moved := Moved(r, Failed);
    var told := Emitted(moved, CompactionFailed, step);
    MovedTells(r, Failed, CompactionFailed, step);
    MovedTells(r, Failed, RunFailed, step);
    TellingOne(told, RunFailed, step);
    TellingThen(r, told, Emitted(told, RunFailed, step), step, [CompactionFailed], [RunFailed]);
    assert [CompactionFailed] + [RunFailed] == [CompactionFailed, RunFailed];
  }

  /** Why the model is gone, as the input has it. */
  lemma GoneFor(cfg: Config, r: Run, input: StepInput, step: nat)
    requires !input.cancelled
    ensures var answer := ModelTurn(cfg, r, input, step).answer;
            && (answer.Gone? ==> (OfContext(answer.failure) <==> ContextFails(input)))
            && (answer.Accepted? ==> input.projection.Projected? && answer.usage == CostKnown(input))
  {
  }

  lemma AcceptedTells(cfg: Config, reached: Reached, input: StepInput, step: nat, summaryRound: bool)
    requires reached.answer.Accepted? && reached.run.state == Interpreting
    ensures var answer := reached.answer;
            var at := RunBreaks.Reported(reached.run, answer.content, answer.calls, answer.usage, step);
            Telling(reached.run, AnsweredTurn(cfg, reached, input, step, summaryRound).run, step,
                    (if answer.usage then [UsageReported] else [])
                    + ReactionKinds(cfg, at, answer.content, answer.calls, input, step, summaryRound))
  {
    hide Telling, Emitted, ActTurn, ReactionKinds;
    var answer, r := reached.answer, reached.run;
    var said := Said(r, Message(Assistant, answer.content, answer.calls, None));
    var at := RunBreaks.Reported(r, answer.content, answer.calls, answer.usage, step);
    var first := if answer.usage then [UsageReported] else [];
    TellingNothing(r, said, step);
    TellingOne(said, UsageReported, step);
    EmittedKeeps(said, UsageReported, step);
    TellingSame(r, said, at, at, step, first);
    ReactionTells(cfg, at, answer.content, answer.calls, input, step, summaryRound);
    TellingThen(r, at, ActTurn(cfg, at, answer.content, answer.calls, input, step, summaryRound).run, step, first,
      ReactionKinds(cfg, at, answer.content, answer.calls, input, step, summaryRound));
  }

  /** One turn of the loop announces exactly this. */
  lemma StepTells(cfg: Config, r: Run, input: StepInput, step: nat, summaryRound: bool)
    ensures Telling(r, StepTurn(cfg, r, input, step, summaryRound).run, step,
                    StepKinds(cfg, r, input, step, summaryRound))
  {
    hide Telling, Emitted, ModelTurn, AcceptedText, AcceptedCalls, AskedKinds, ReactionKinds, RunMachine.Finished,
         GoneTurn, ResponseTurn, ContextFails, RequestCancelled, CostKnown;
    if input.cancelled {
      FinishedTells(r, Stopped, step);
    } else {
      var begun := Emitted(r, StepStarted, step);
      var reached := ModelTurn(cfg, begun, input, step);
      var last := AnsweredTurn(cfg, reached, input, step, summaryRound).run;
      TellingOne(r, StepStarted, step);
      BegunRepaired(r, step);
      ModelTells(cfg, begun, input, step);
      AnswerAsScripted(cfg, begun, input, step);
      AcceptedAsScripted(cfg, begun, input, step);
      GoneFor(cfg, begun, input, step);
      ModelKeeps(cfg, begun, input, step);
      var asked := AskedKinds(input);
      assert asked + [] == asked;
      TellingThen(r, begun, reached.run, step, [StepStarted],
        asked + if IsRepaired(begun, input) then [Progress, StepCompleted] else []);
      match reached.answer {
        case Repaired =>
          assert [StepStarted] + (asked + [Progress, StepCompleted])
                 == [StepStarted] + asked + [Progress, StepCompleted];
        case Gone(failure) =>
          GoneTells(reached.run, failure, step);
          TellingThen(r, reached.run, last, step, [StepStarted] + asked, SilentKinds(r, input));
        case Accepted(content, calls, usage) =>
          AcceptedTells(cfg, reached, input, step, summaryRound);
          TellingThen(r, reached.run, last, step, [StepStarted] + asked,
            (if usage then [UsageReported] else [])
            + ReactionKinds(cfg, AtResponse(cfg, r, input, step), content, calls, input, step, summaryRound));
      }
    }
  }

  lemma BegunRepaired(r: Run, step: nat)
    ensures Emitted(r, StepStarted, step).repaired == r.repaired
  {
  }

  // ---- whole runs ----

  function KindsOf(events: seq<Event>): (out: seq<EventKind>)
    ensures |out| == |events|
  {
    seq(|events|, k requires 0 <= k < |events| => events[k].kind)
  }

  lemma TellingCounts(before: Run, after: Run, step: nat, kinds: seq<EventKind>)
    requires Telling(before, after, step, kinds)
    ensures SubtasksIn(KindsOf(after.events)) - after.delegated == SubtasksIn(KindsOf(before.events)) - before.delegated
  {
    SubtasksJoin(KindsOf(before.events), kinds);
    assert KindsOf(after.events) == KindsOf(before.events) + kinds;
  }

  /** A run requests exactly the subtasks it counts. */
  lemma {:induction false} RunCounts(cfg: Config, r: Run, script: seq<StepInput>, steps: nat)
    requires steps <= |script|
    ensures var after := RunFrom(cfg, r, script, steps).run;
            SubtasksIn(KindsOf(after.events)) - after.delegated == SubtasksIn(KindsOf(r.events)) - r.delegated
    decreases |script| - steps
  {
    hide StepTurn, Telling, KindsOf, RunMachine.Finished, StepKinds;
    if r.maxSteps.Some? && steps >= r.maxSteps.value {
      FinishedTells(r, OutOfSteps, r.maxSteps.value);
      TellingCounts(r, RunMachine.Finished(r, OutOfSteps, r.maxSteps.value), r.maxSteps.value, [RunIncomplete]);
    } else if steps < |script| {
      var round := InSummaryRound(cfg, r.maxSteps, steps + 1);
      var t := StepTurn(cfg, r, script[steps], steps + 1, round);
      StepTells(cfg, r, script[steps], steps + 1, round);
      TellingCounts(r, t.run, steps + 1, StepKinds(cfg, r, script[steps], steps + 1, round));
      if t.flow == Continue {
        RunCounts(cfg, t.run, script, steps + 1);
      }
    }
  }

  /** No task, first or further, delegates more than five subtasks. */
  lemma FewSubtasks(cfg: Config, r: Run, task: string, initialize: bool, script: seq<StepInput>)
    requires Ready(cfg, r) && !TaskRun(cfg, r, task, initialize, script).outcome.Rejected?
    ensures SubtasksIn(KindsOf(TaskRun(cfg, r, task, initialize, script).run.events)) <= 5
  {
    hide RunFrom, RunLeft, StartsOk, DealsOk, FailuresOf, RunEvents.Finished, Ongoing, EndsRight, ValidTask, Opening,
         SubtasksIn;
    var begun := Begun(cfg, r, task, initialize);
    TaskRuns(cfg, r, task, initialize, script);
    RunCounts(cfg, begun, script, 0);
    assert KindsOf(begun.events) == [RunStarted];
    NoSubtasksIn([RunStarted]);
  }
}
