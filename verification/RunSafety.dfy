/** What every moment of every run keeps: numbered events, allowed transitions,
    permitted starts, genuine evidence and the bounds of the tracker. */
module RunSafety {
  import opened Text
  import opened Messages
  import opened RunStates
  import Completion
  import opened Recovery
  import opened RunEvents
  import opened RunMachine

  // ---- what the script says about a call ----

  /** The calls of the response a step accepts, if it accepts one. */
  function AcceptedCalls(input: StepInput): seq<ToolCall> {
    if input.cancelled || input.projection.Unprojected? then []
    else if input.reply.Responded? then input.reply.calls
    else if input.reply.ContextTooLong? && input.recovery.Projected? && input.recovery.digest != input.projection.digest
            && input.secondReply.Responded? then input.secondReply.calls
    else []
  }

  /** The response accepted in step number `step`. */
  predicate ResponseAt(script: seq<StepInput>, step: nat, calls: seq<ToolCall>) {
    0 < step <= |script| && calls == AcceptedCalls(script[step - 1])
  }

  predicate CallAt(script: seq<StepInput>, step: nat, index: nat, call: ToolCall) {
    && 0 < step <= |script| && index < |AcceptedCalls(script[step - 1])|
    && AcceptedCalls(script[step - 1])[index] == call
  }

  function InputAt(script: seq<StepInput>, step: nat, index: nat): CallInput
    requires 0 < step <= |script|
  {
    script[step - 1].calls(index)
  }

  /** The call may reach a tool only after a decision of its own. */
  predicate NeedsDecision(input: CallInput) {
    input.delegation.None? && input.needsApproval
  }

  /** Its own decision was to approve it. */
  predicate WasApproved(cfg: Config, input: CallInput) {
    cfg.approvals && input.preview.None? && input.wait.Approve?
  }

  predicate MayStart(cfg: Config, call: ToolCall, input: CallInput) {
    call.name != OUTCOME_TOOL && (NeedsDecision(input) ==> WasApproved(cfg, input))
  }

  // ---- the parts of the invariant ----

  /** Every transition taken is an allowed one, and the last state is the current one. */
  ghost predicate Walked(path: seq<RunState>, state: RunState) {
    && path != [] && path[|path| - 1] == state
    && forall k | 0 < k < |path| :: CanMove(path[k - 1], path[k])
  }

  /** The two events before `position` asked the user about this call and approved it. */
  predicate AskedAndApproved(events: seq<Event>, position: nat, id: string) {
    && 2 <= position <= |events| && events[position - 2].kind == ApprovalRequired(id)
    && events[position - 1].kind == ApprovalResolved(id, true)
  }

  /** A started tool: a call of the script whose dispatch is permitted, announced
      by its event, right behind its own request and approval when it needs one, and
      not recorded for the third time in a row. */
  ghost predicate StartOk(
    cfg: Config, script: seq<StepInput>, events: seq<Event>, recorded: seq<CallKey>, s: Start)
  {
    && CallAt(script, s.step, s.index, s.call) && s.index < MAX_TOOL_CALLS_PER_STEP
    && MayStart(cfg, s.call, InputAt(script, s.step, s.index))
    && 0 < s.position < |events|
    && events[s.position].kind == ToolStarted(s.call.id) && events[s.position].step == s.step
    && (NeedsDecision(InputAt(script, s.step, s.index)) ==> AskedAndApproved(events, s.position, s.call.id))
    && 0 < s.at <= |recorded| && recorded[s.at - 1] == KeyOf(cfg, s.call) && RunLength(recorded[..s.at]) <= 2
  }

  ghost predicate StartsOk(
    cfg: Config, script: seq<StepInput>, events: seq<Event>, recorded: seq<CallKey>, starts: seq<Start>)
  {
    && (forall k | 0 <= k < |starts| :: StartOk(cfg, script, events, recorded, starts[k]))
    && (forall i, j | 0 <= i < j < |starts| :: starts[i].at < starts[j].at)
  }

  function Positions(starts: seq<Start>): (out: seq<nat>)
    ensures |out| == |starts|
  {
    seq(|starts|, k requires 0 <= k < |starts| => starts[k].position)
  }

  ghost predicate HasStart(starts: seq<Start>, step: nat, index: nat) {
    exists k :: 0 <= k < |starts| && starts[k].step == step && starts[k].index == index
  }

  /** A success is the one the script's tool returned after it was started, or the
      answer of its approval preview. */
  ghost predicate Genuine(script: seq<StepInput>, starts: seq<Start>, step: nat, index: nat, result: ToolResult)
    requires 0 < step <= |script|
  {
    var input := InputAt(script, step, index);
    result.ok ==>
      || (NeedsDecision(input) && input.preview == Some(result))
      || (input.execution == Executed(result) && HasStart(starts, step, index))
  }

  ghost predicate DealOk(script: seq<StepInput>, starts: seq<Start>, d: Deal) {
    CallAt(script, d.step, d.index, d.call) && Genuine(script, starts, d.step, d.index, d.result)
  }

  /** The results of this run are those behind the `known` ones. */
  ghost predicate DealsOk(script: seq<StepInput>, starts: seq<Start>, dealt: seq<Deal>, known: nat) {
    known <= |dealt| && forall k | known <= k < |dealt| :: DealOk(script, starts, dealt[k])
  }

  /** What the ledger has recorded for these results. */
  function TraceOf(dealt: seq<Deal>): (trace: seq<Completion.Entry>)
    ensures |trace| == |dealt|
  {
    seq(|dealt|, k requires 0 <= k < |dealt| => Completion.Entry(dealt[k].call.name, dealt[k].result))
  }

  /** The failure keys the tracker has counted for these results; a cancellation is none. */
  function FailuresOf(cfg: Config, dealt: seq<Deal>): seq<FailureKey> {
    if dealt == [] then []
    else
      var last := dealt[|dealt| - 1];
      var older := FailuresOf(cfg, dealt[..|dealt| - 1]);
      if last.cancelled then older else WithFailure(older, FailureFrom(cfg, last.call, last.result))
  }

  ghost predicate BelowStall(failures: seq<FailureKey>, bound: nat) {
    forall k: FailureKey | StallsOn(k.code) :: multiset(failures)[k] <= bound
  }

  /** Everything started and closed is backed by the script, and ledger and tracker
      hold exactly what was closed. */
  ghost predicate Backed(cfg: Config, script: seq<StepInput>, r: Run) {
    && StartsOk(cfg, script, r.events, r.recorded, r.starts)
    && StartPositions(r.events) == Positions(r.starts)
    && DealsOk(script, r.starts, r.dealt, r.known)
    && r.trace == TraceOf(r.dealt) && r.failures == FailuresOf(cfg, r.dealt)
    && r.delegated <= MAX_SUBTASKS
  }

  /** A run that has not ended, at any moment. */
  ghost predicate Near(cfg: Config, script: seq<StepInput>, r: Run) {
    && Ongoing(r.events, r.first) && r.sequence == r.first + |r.events|
    && Walked(r.path, r.state)
    && Backed(cfg, script, r)
  }

  /** Neither bound of the tracker is reached. */
  ghost predicate Within(r: Run) {
    RunLength(r.recorded) <= 3 && BelowStall(r.failures, 2)
  }

  ghost predicate Live(cfg: Config, script: seq<StepInput>, r: Run) {
    Near(cfg, script, r) && Within(r)
  }

  /** A run that ended, and why: with one terminal event that agrees with its
      state, stalled exactly when a bound of the tracker is reached, and completed
      only on evidence that justifies it. */
  ghost predicate Over(cfg: Config, script: seq<StepInput>, r: Run, ending: Ending) {
    && RunEvents.Finished(r.events, r.first) && r.sequence == r.first + |r.events|
    && r.events[|r.events| - 1].kind == TerminalKind(ending)
    && Walked(r.path, r.state) && r.state == TerminalState(ending)
    && Backed(cfg, script, r)
    && EndsRight(r, ending)
  }

  ghost predicate EndsRight(r: Run, ending: Ending) {
    && RunLength(r.recorded) <= 4 && (RunLength(r.recorded) == 4 <==> ending == StalledCall)
    && BelowStall(r.failures, 3) && (!BelowStall(r.failures, 2) <==> ending == StalledFailure)
    && (ending == Done ==> Completion.Justified(r.trace))
  }

  // ---- the single steps ----

  lemma WalkedTo(path: seq<RunState>, state: RunState, target: RunState)
    requires Walked(path, state) && CanMove(state, target)
    ensures Walked(path + [target], target)
  {
  }

  lemma StartsLater(
    cfg: Config, script: seq<StepInput>, events: seq<Event>, e: Event, recorded: seq<CallKey>, starts: seq<Start>)
    requires StartsOk(cfg, script, events, recorded, starts)
    ensures StartsOk(cfg, script, events + [e], recorded, starts)
  {
    forall k | 0 <= k < |starts| ensures StartOk(cfg, script, events + [e], recorded, starts[k]) {
      assert StartOk(cfg, script, events, recorded, starts[k]);
    }
  }

  lemma {:induction false} StartsRecorded(
    cfg: Config, script: seq<StepInput>, events: seq<Event>, recorded: seq<CallKey>, key: CallKey, starts: seq<Start>)
    requires StartsOk(cfg, script, events, recorded, starts)
    ensures StartsOk(cfg, script, events, recorded + [key], starts)
  {
    forall k | 0 <= k < |starts| ensures StartOk(cfg, script, events, recorded + [key], starts[k]) {
      assert StartOk(cfg, script, events, recorded, starts[k]);
      assert (recorded + [key])[..starts[k].at] == recorded[..starts[k].at];
    }
  }

  /** A state change alone. */
  lemma MovedNear(cfg: Config, script: seq<StepInput>, r: Run, target: RunState)
    requires Near(cfg, script, r) && CanMove(r.state, target)
    ensures Near(cfg, script, Moved(r, target)) && (Within(r) ==> Within(Moved(r, target)))
  {
    hide Ongoing, StartsOk, StartPositions, DealsOk, FailuresOf, Walked, RunLength, BelowStall;
    WalkedTo(r.path, r.state, target);
  }

  lemma SaidNear(cfg: Config, script: seq<StepInput>, r: Run, m: Message)
    requires Near(cfg, script, r)
    ensures Near(cfg, script, Said(r, m)) && (Within(r) ==> Within(Said(r, m)))
  {
    hide Ongoing, StartsOk, StartPositions, DealsOk, FailuresOf, Walked, RunLength, BelowStall;
  }

  /** An event that starts no tool leaves everything backed. */
  lemma EmittedBacked(cfg: Config, script: seq<StepInput>, r: Run, kind: EventKind, step: nat)
    requires Backed(cfg, script, r) && !kind.ToolStarted?
    ensures Backed(cfg, script, Emitted(r, kind, step))
  {
    hide StartsOk, StartPositions, DealsOk, FailuresOf;
    var e := Event(kind, r.sequence, step);
    AnnouncedSnoc(r.events, e);
    StartsLater(cfg, script, r.events, e, r.recorded, r.starts);
  }

  lemma EmittedNear(cfg: Config, script: seq<StepInput>, r: Run, kind: EventKind, step: nat)
    requires Near(cfg, script, r) && MayFollow(kind) && !kind.ToolStarted?
    ensures Near(cfg, script, Emitted(r, kind, step)) && (Within(r) ==> Within(Emitted(r, kind, step)))
  {
    hide Ongoing, Backed, Walked, RunLength, BelowStall;
    OngoingSnoc(r.events, r.first, Event(kind, r.sequence, step));
    EmittedBacked(cfg, script, r, kind, step);
  }

  /** The terminal event. */
  lemma EndedOver(cfg: Config, script: seq<StepInput>, r: Run, ending: Ending, step: nat)
    requires Near(cfg, script, r) && r.state == TerminalState(ending) && EndsRight(r, ending)
    ensures Over(cfg, script, Emitted(r, TerminalKind(ending), step), ending)
  {
    hide Ongoing, RunEvents.Finished, Backed, Walked, RunLength, BelowStall, Completion.Justified;
    FinishedSnoc(r.events, r.first, Event(TerminalKind(ending), r.sequence, step));
    EmittedBacked(cfg, script, r, TerminalKind(ending), step);
  }

  /** The bounds when neither is reached. */
  lemma WithinEnds(r: Run, ending: Ending)
    requires Within(r) && ending != StalledCall && ending != StalledFailure
    requires ending == Done ==> Completion.Justified(r.trace)
    ensures EndsRight(r, ending)
  {
    hide RunLength, Completion.Justified;
  }

  /** A run that ends from wherever it stands. */
  lemma FinishedOver(cfg: Config, script: seq<StepInput>, r: Run, ending: Ending, step: nat)
    requires Near(cfg, script, r) && CanMove(r.state, TerminalState(ending)) && EndsRight(r, ending)
    ensures Over(cfg, script, RunMachine.Finished(r, ending, step), ending)
  {
    hide Near, Over, RunLength, BelowStall, Completion.Justified;
    MovedNear(cfg, script, r, TerminalState(ending));
    EndedOver(cfg, script, Moved(r, TerminalState(ending)), ending, step);
  }

  /** A live run that ends for a reason that is not the tracker's. */
  lemma LiveOver(cfg: Config, script: seq<StepInput>, r: Run, ending: Ending, step: nat)
    requires Live(cfg, script, r) && CanMove(r.state, TerminalState(ending))
    requires ending != StalledCall && ending != StalledFailure && (ending == Done ==> Completion.Justified(r.trace))
    ensures Over(cfg, script, RunMachine.Finished(r, ending, step), ending)
  {
    hide Near, Over, Within, EndsRight, Completion.Justified;
    WithinEnds(r, ending);
    FinishedOver(cfg, script, r, ending, step);
  }

  lemma MovedLive(cfg: Config, script: seq<StepInput>, r: Run, target: RunState)
    requires Live(cfg, script, r) && CanMove(r.state, target)
    ensures Live(cfg, script, Moved(r, target)) && Moved(r, target).state == target
  {
    hide Near, Within;
    MovedNear(cfg, script, r, target);
  }

  lemma SaidLive(cfg: Config, script: seq<StepInput>, r: Run, m: Message)
    requires Live(cfg, script, r)
    ensures Live(cfg, script, Said(r, m)) && Said(r, m).state == r.state
  {
    hide Near, Within;
    SaidNear(cfg, script, r, m);
  }

  lemma EmittedLive(cfg: Config, script: seq<StepInput>, r: Run, kind: EventKind, step: nat)
    requires Live(cfg, script, r) && MayFollow(kind) && !kind.ToolStarted?
    ensures Live(cfg, script, Emitted(r, kind, step)) && Emitted(r, kind, step).state == r.state
  {
    hide Near, Within;
    EmittedNear(cfg, script, r, kind, step);
  }

  lemma DeliveredLive(cfg: Config, script: seq<StepInput>, r: Run, call: ToolCall, result: ToolResult, step: nat)
    requires Live(cfg, script, r)
    ensures Live(cfg, script, Delivered(r, call, result, step)) && Delivered(r, call, result, step).state == r.state
  {
    hide Live, Said, Emitted;
    SaidLive(cfg, script, r, ToolMessage(result.content, call.id));
    EmittedLive(cfg, script, Said(r, ToolMessage(result.content, call.id)), ToolCompleted(call.id), step);
  }

  lemma ResumedLive(cfg: Config, script: seq<StepInput>, r: Run, step: nat)
    requires Live(cfg, script, r) && CanMove(r.state, Preparing)
    ensures Live(cfg, script, Resumed(r, step)) && Resumed(r, step).state == Preparing
  {
    hide Live, Moved, Emitted;
    MovedLive(cfg, script, r, Preparing);
    EmittedLive(cfg, script, Moved(r, Preparing), StepCompleted, step);
  }

  lemma StepClosedLive(cfg: Config, script: seq<StepInput>, r: Run, step: nat)
    requires Live(cfg, script, r)
    ensures Live(cfg, script, StepClosed(r, step)) && StepClosed(r, step).state == r.state
  {
    hide Live, Emitted;
    EmittedLive(cfg, script, r, Progress, step);
    EmittedLive(cfg, script, Emitted(r, Progress, step), StepCompleted, step);
  }

  /** Counters that carry no invariant. */
  lemma CountedLive(cfg: Config, script: seq<StepInput>, r: Run, modelCalls: nat, toolCalls: nat, repaired: bool)
    requires Live(cfg, script, r)
    ensures Live(cfg, script, r.(modelCalls := modelCalls, toolCalls := toolCalls, repaired := repaired))
  {
    hide Ongoing, StartsOk, StartPositions, DealsOk, FailuresOf, Walked, RunLength, BelowStall;
  }

  // ---- tools that start ----

  predicate CallState(state: RunState) {
    state.Interpreting? || state.ExecutingTool? || state.WaitingApproval?
  }

  /** The operation recorded last belongs to this call, was not started yet and is
      not a repeat to reject. */
  ghost predicate MayDispatch(cfg: Config, r: Run, call: ToolCall) {
    && r.recorded != [] && r.recorded[|r.recorded| - 1] == KeyOf(cfg, call) && RunLength(r.recorded) <= 2
    && forall k | 0 <= k < |r.starts| :: r.starts[k].at < |r.recorded|
  }

  /** Nothing stands in the way of starting this call. */
  ghost predicate Cleared(cfg: Config, script: seq<StepInput>, r: Run, call: ToolCall, index: nat, step: nat) {
    && CallAt(script, step, index, call) && index < MAX_TOOL_CALLS_PER_STEP
    && MayStart(cfg, call, InputAt(script, step, index))
    && (NeedsDecision(InputAt(script, step, index)) ==>
          AskedAndApproved(r.events, |r.events|, call.id))
    && MayDispatch(cfg, r, call)
  }

  lemma {:induction false} StartsMore(
    cfg: Config, script: seq<StepInput>, r: Run, call: ToolCall, index: nat, step: nat)
    requires StartsOk(cfg, script, r.events, r.recorded, r.starts) && Cleared(cfg, script, r, call, index, step)
    requires r.events != []
    ensures var next := StartedTool(r, call, index, step);
            StartsOk(cfg, script, next.events, next.recorded, next.starts)
  {
    var next := StartedTool(r, call, index, step);
    var e, s := next.events[|r.events|], next.starts[|r.starts|];
    assert next.events == r.events + [e] && next.starts == r.starts + [s];
    StartsLater(cfg, script, r.events, e, r.recorded, r.starts);
    assert r.recorded[..|r.recorded|] == r.recorded;
    assert StartOk(cfg, script, next.events, next.recorded, s);
    forall k | 0 <= k < |next.starts| ensures StartOk(cfg, script, next.events, next.recorded, next.starts[k]) {
      if k < |r.starts| {
        assert next.starts[k] == r.starts[k];
      }
    }
  }

  lemma GenuineLater(
    script: seq<StepInput>, starts: seq<Start>, s: Start, step: nat, index: nat, result: ToolResult)
    requires 0 < step <= |script| && Genuine(script, starts, step, index, result)
    ensures Genuine(script, starts + [s], step, index, result)
  {
    if HasStart(starts, step, index) {
      var k :| 0 <= k < |starts| && starts[k].step == step && starts[k].index == index;
      assert (starts + [s])[k] == starts[k];
    }
  }

  lemma DealsLater(script: seq<StepInput>, starts: seq<Start>, s: Start, dealt: seq<Deal>, known: nat)
    requires DealsOk(script, starts, dealt, known)
    ensures DealsOk(script, starts + [s], dealt, known)
  {
    hide Genuine;
    forall k | known <= k < |dealt| ensures DealOk(script, starts + [s], dealt[k]) {
      assert DealOk(script, starts, dealt[k]);
      GenuineLater(script, starts, s, dealt[k].step, dealt[k].index, dealt[k].result);
    }
  }

  lemma PositionsSnoc(starts: seq<Start>, s: Start)
    ensures Positions(starts + [s]) == Positions(starts) + [s.position]
  {
  }

  lemma OngoingStarted(events: seq<Event>, first: nat)
    requires Ongoing(events, first)
    ensures events != []
  {
  }

  /** A cleared call starts. */
  lemma StartedLive(cfg: Config, script: seq<StepInput>, r: Run, call: ToolCall, index: nat, step: nat)
    requires Live(cfg, script, r) && Cleared(cfg, script, r, call, index, step) && CallState(r.state)
    ensures var next := StartedTool(r, call, index, step);
            Live(cfg, script, next) && next.state == ExecutingTool && HasStart(next.starts, step, index)
  {
    hide Ongoing, StartsOk, StartPositions, DealsOk, FailuresOf, Walked, RunLength, BelowStall, Cleared;
    var next := StartedTool(r, call, index, step);
    var e, s := Event(ToolStarted(call.id), r.sequence, step), Start(call, step, index, |r.events|, |r.recorded|);
    OngoingStarted(r.events, r.first);
    OngoingSnoc(r.events, r.first, e);
    AnnouncedSnoc(r.events, e);
    PositionsSnoc(r.starts, s);
    StartsMore(cfg, script, r, call, index, step);
    DealsLater(script, r.starts, s, r.dealt, r.known);
    WalkedTo(r.path, r.state, ExecutingTool);
    assert next.starts[|r.starts|] == s;
  }

  lemma {:induction false} EmittedEachLive(cfg: Config, script: seq<StepInput>, r: Run, kind: EventKind, n: nat,
      step: nat)
    requires Live(cfg, script, r) && MayFollow(kind) && !kind.ToolStarted?
    ensures var next := EmittedEach(r, kind, n, step);
            Live(cfg, script, next) && next.state == r.state && next.starts == r.starts
  {
    hide Live;
    if n > 0 {
      EmittedEachLive(cfg, script, r, kind, n - 1, step);
      EmittedLive(cfg, script, EmittedEach(r, kind, n - 1, step), kind, step);
    }
  }

  // ---- what one call comes to ----

  /** What holds when a call was dispatched: the run is live, and a success is genuine. */
  ghost predicate Good(cfg: Config, script: seq<StepInput>, p: Produced, index: nat, step: nat)
    requires 0 < step <= |script|
  {
    && Live(cfg, script, p.run) && CallState(p.run.state) && !p.d.Stalls?
    && (p.d.Outcome? ==> Genuine(script, p.run.starts, step, index, p.d.result))
    && (p.d.Refused? ==> p.run.state == WaitingApproval)
  }

  lemma RanGood(cfg: Config, script: seq<StepInput>, r: Run, call: ToolCall, index: nat, step: nat,
      execution: Execution)
    requires Live(cfg, script, r) && Cleared(cfg, script, r, call, index, step) && CallState(r.state)
    requires execution == InputAt(script, step, index).execution
    ensures Good(cfg, script, RanAs(r, call, index, step, execution), index, step)
  {
    hide Live, Cleared, StartedTool, HasStart;
    StartedLive(cfg, script, r, call, index, step);
  }

  lemma BatchLive(cfg: Config, script: seq<StepInput>, r: Run, n: nat, step: nat, execution: Execution)
    requires Live(cfg, script, r) && r.delegated + n <= MAX_SUBTASKS
    ensures var next := BatchRun(r, n, step, execution);
            Live(cfg, script, next) && next.state == r.state && next.starts == r.starts
  {
    hide EmittedEach, Live;
    var counted := r.(delegated := r.delegated + n);
    DelegatedLive(cfg, script, r, n);
    EmittedEachLive(cfg, script, counted, SubtaskRequested, n, step);
    var asked := EmittedEach(counted, SubtaskRequested, n, step);
    EmittedEachLive(cfg, script, asked, SubtaskStarted, n, step);
    EmittedEachLive(cfg, script, EmittedEach(asked, SubtaskStarted, n, step),
                    if execution.Executed? then SubtaskCompleted else SubtaskCancelled, n, step);
  }

  lemma DelegatedLive(cfg: Config, script: seq<StepInput>, r: Run, n: nat)
    requires Live(cfg, script, r) && r.delegated + n <= MAX_SUBTASKS
    ensures Live(cfg, script, r.(delegated := r.delegated + n))
  {
    hide Ongoing, StartsOk, StartPositions, DealsOk, FailuresOf, Walked, RunLength, BelowStall;
  }

  lemma DelegatedGood(
    cfg: Config, script: seq<StepInput>, r: Run, call: ToolCall, index: nat, step: nat, request: Delegation)
    requires CallAt(script, step, index, call) && Cleared(cfg, script, r, call, index, step)
    requires Live(cfg, script, r) && CallState(r.state)
    ensures Good(cfg, script, DelegatedAs(cfg, r, call, index, step, request, InputAt(script, step, index).execution),
            index, step)
  {
    hide Live, Cleared, HasStart, BatchRun;
    StartedLive(cfg, script, r, call, index, step);
    var started := StartedTool(r, call, index, step);
    if request.Batch? && r.delegated + request.subtasks <= MAX_SUBTASKS {
      BatchLive(cfg, script, started, request.subtasks, step, InputAt(script, step, index).execution);
    }
  }

  lemma DispatchLater(cfg: Config, r: Run, call: ToolCall, kind: EventKind, step: nat)
    requires MayDispatch(cfg, r, call)
    ensures MayDispatch(cfg, Emitted(r, kind, step), call)
    ensures var e := Emitted(r, kind, step).events; e == r.events + [e[|r.events|]] && e[|r.events|].kind == kind
  {
    hide RunLength;
  }

  lemma DecidedGood(cfg: Config, script: seq<StepInput>, r: Run, call: ToolCall, index: nat, step: nat)
    requires CallAt(script, step, index, call) && index < MAX_TOOL_CALLS_PER_STEP
    requires Live(cfg, script, r) && r.state == WaitingApproval && MayDispatch(cfg, r, call)
             && call.name != OUTCOME_TOOL
    requires cfg.approvals && InputAt(script, step, index).preview.None?
    requires r.events != [] && r.events[|r.events| - 1].kind == ApprovalRequired(call.id)
    ensures Good(cfg, script, DecidedAs(cfg, r, call, index, step, InputAt(script, step, index)), index, step)
  {
    hide Live, HasStart, MayDispatch, Emitted, RanAs, Genuine;
    var input := InputAt(script, step, index);
    var approved := input.wait.Approve?;
    var next := Emitted(r, ApprovalResolved(call.id, approved), step);
    EmittedLive(cfg, script, r, ApprovalResolved(call.id, approved), step);
    DispatchLater(cfg, r, call, ApprovalResolved(call.id, approved), step);
    if approved {
      RanGood(cfg, script, next, call, index, step, input.execution);
    }
    ErrorIsGenuine(cfg, script, r.starts, call, "APPROVAL_TIMEOUT", index, step);
    ErrorIsGenuine(cfg, script, next.starts, call, "APPROVAL_TIMEOUT", index, step);
    ErrorIsGenuine(cfg, script, next.starts, call, "APPROVAL_REJECTED", index, step);
  }

  lemma ErrorIsGenuine(
    cfg: Config, script: seq<StepInput>, starts: seq<Start>, call: ToolCall, code: string, index: nat, step: nat)
    requires 0 < step <= |script|
    ensures Genuine(script, starts, step, index, ErrorResult(cfg, call, code))
  {
  }

  lemma ApprovedGood(cfg: Config, script: seq<StepInput>, r: Run, call: ToolCall, index: nat, step: nat)
    requires CallAt(script, step, index, call) && index < MAX_TOOL_CALLS_PER_STEP
    requires Live(cfg, script, r) && CallState(r.state) && MayDispatch(cfg, r, call) && call.name != OUTCOME_TOOL
    requires NeedsDecision(InputAt(script, step, index))
    ensures Good(cfg, script, ApprovedAs(cfg, r, call, index, step, InputAt(script, step, index)), index, step)
  {
    hide Live, HasStart, Emitted, DecidedAs, RunLength;
    var input := InputAt(script, step, index);
    if cfg.approvals && input.preview.None? && CanMove(r.state, WaitingApproval) {
      var moved := Moved(r, WaitingApproval);
      MovedLive(cfg, script, r, WaitingApproval);
      EmittedLive(cfg, script, moved, ApprovalRequired(call.id), step);
      DispatchLater(cfg, moved, call, ApprovalRequired(call.id), step);
      DecidedGood(cfg, script, Emitted(moved, ApprovalRequired(call.id), step), call, index, step);
    }
  }

  lemma DispatchedGood(cfg: Config, script: seq<StepInput>, r: Run, call: ToolCall, index: nat, step: nat)
    requires CallAt(script, step, index, call) && index < MAX_TOOL_CALLS_PER_STEP
    requires Live(cfg, script, r) && CallState(r.state) && MayDispatch(cfg, r, call)
    ensures Good(cfg, script, DispatchedAs(cfg, r, call, index, step, InputAt(script, step, index)), index, step)
  {
    hide Live, HasStart, MayDispatch, Good, Genuine, RanAs, DelegatedAs, ApprovedAs;
    var input := InputAt(script, step, index);
    if call.name == OUTCOME_TOOL {
      ErrorGood(cfg, script, r, call, "OUTCOME_MUST_BE_ALONE", index, step);
    } else if input.delegation.Some? {
      DelegatedGood(cfg, script, r, call, index, step, input.delegation.value);
    } else if input.needsApproval {
      ApprovedGood(cfg, script, r, call, index, step);
    } else {
      RanGood(cfg, script, r, call, index, step, input.execution);
    }
  }

  /** A call refused by the runtime itself. */
  lemma ErrorGood(cfg: Config, script: seq<StepInput>, r: Run, call: ToolCall, code: string, index: nat, step: nat)
    requires 0 < step <= |script| && Live(cfg, script, r) && CallState(r.state)
    ensures Good(cfg, script, Produced(r, Outcome(ErrorResult(cfg, call, code))), index, step)
  {
    hide Live;
  }

  lemma {:induction false} RunLengthSnoc(recorded: seq<CallKey>, key: CallKey)
    ensures RunLength(recorded + [key]) <= RunLength(recorded) + 1
  {
    assert (recorded + [key])[..|recorded|] == recorded;
  }

  lemma StartsBefore(cfg: Config, script: seq<StepInput>, r: Run)
    requires Live(cfg, script, r)
    ensures forall k | 0 <= k < |r.starts| :: r.starts[k].at <= |r.recorded|
  {
    hide Ongoing, StartPositions, DealsOk, FailuresOf, Walked, RunLength, BelowStall;
    forall k | 0 <= k < |r.starts| ensures r.starts[k].at <= |r.recorded| {
      assert StartOk(cfg, script, r.events, r.recorded, r.starts[k]);
    }
  }

  /** Recording a call: the run stays near its bounds, and a call that is neither a
      repeat nor the fourth of its kind may be dispatched. */
  lemma RecordedNear(cfg: Config, script: seq<StepInput>, r: Run, call: ToolCall)
    requires Live(cfg, script, r)
    ensures var next := r.(recorded := r.recorded + [KeyOf(cfg, call)]);
            && Near(cfg, script, next) && BelowStall(next.failures, 2) && RunLength(next.recorded) <= 4
            && (Repeats(next.recorded) != Stall ==> Live(cfg, script, next))
            && (Repeats(next.recorded) == Proceed ==> MayDispatch(cfg, next, call))
  {
    hide Ongoing, StartsOk, StartPositions, DealsOk, FailuresOf, Walked, RunLength, BelowStall, KeyOf;
    StartsRecorded(cfg, script, r.events, r.recorded, KeyOf(cfg, call), r.starts);
    RunLengthSnoc(r.recorded, KeyOf(cfg, call));
    StartsBefore(cfg, script, r);
  }

  /** What holds after a call was considered: it stalled the run, or it is good. */
  ghost predicate Considered(cfg: Config, script: seq<StepInput>, p: Produced, index: nat, step: nat)
    requires 0 < step <= |script|
  {
    if p.d.Stalls? then
      && Near(cfg, script, p.run) && CallState(p.run.state)
      && RunLength(p.run.recorded) == 4 && BelowStall(p.run.failures, 2)
    else Good(cfg, script, p, index, step)
  }

  lemma GoodConsidered(cfg: Config, script: seq<StepInput>, p: Produced, index: nat, step: nat)
    requires 0 < step <= |script| && Good(cfg, script, p, index, step)
    ensures Considered(cfg, script, p, index, step)
  {
    hide Live, Genuine;
  }

  lemma ConsideredGood(cfg: Config, script: seq<StepInput>, r: Run, call: ToolCall, index: nat, step: nat)
    requires CallAt(script, step, index, call) && index < MAX_TOOL_CALLS_PER_STEP
    requires Live(cfg, script, r) && CallState(r.state)
    ensures var next := r.(recorded := r.recorded + [KeyOf(cfg, call)]);
            Considered(cfg, script, ConsideredAs(cfg, next, call, index, step, InputAt(script, step, index)),
              index, step)
  {
    hide Live, Near, Good, MayDispatch, ErrorResult, DispatchedAs, RunLength, BelowStall, KeyOf;
    var next := r.(recorded := r.recorded + [KeyOf(cfg, call)]);
    RecordedNear(cfg, script, r, call);
    var p := ConsideredAs(cfg, next, call, index, step, InputAt(script, step, index));
    match Repeats(next.recorded)
    case Stall =>
    case Reject =>
      ErrorGood(cfg, script, next, call, "TOOL_REPEATED", index, step);
      GoodConsidered(cfg, script, p, index, step);
    case Proceed =>
      if call.name in next.disabled {
        ErrorGood(cfg, script, next, call, "TOOL_UNAVAILABLE", index, step);
      } else {
        DispatchedGood(cfg, script, next, call, index, step);
      }
      GoodConsidered(cfg, script, p, index, step);
  }

  lemma CalledGood(cfg: Config, script: seq<StepInput>, r: Run, call: ToolCall, index: nat, step: nat)
    requires CallAt(script, step, index, call) && Live(cfg, script, r) && CallState(r.state)
    ensures Considered(cfg, script, CalledAs(cfg, r, call, index, step, InputAt(script, step, index)), index, step)
  {
    hide Live, Good, ErrorResult, ConsideredAs, Emitted, Considered;
    var input := InputAt(script, step, index);
    var counted := r.(toolCalls := r.toolCalls + 1);
    CountedLive(cfg, script, r, r.modelCalls, r.toolCalls + 1, r.repaired);
    EmittedLive(cfg, script, counted, ToolRequested(call.id), step);
    var asked := Emitted(counted, ToolRequested(call.id), step);
    if input.cancelled {
      CancelledGood(cfg, script, asked, index, step);
    } else if index >= MAX_TOOL_CALLS_PER_STEP {
      ErrorGood(cfg, script, asked, call, "TOOL_CALL_LIMIT", index, step);
      GoodConsidered(cfg, script, ProducedAs(cfg, asked, call, index, step, input), index, step);
    } else {
      ConsideredGood(cfg, script, asked, call, index, step);
    }
  }

  lemma CancelledGood(cfg: Config, script: seq<StepInput>, r: Run, index: nat, step: nat)
    requires 0 < step <= |script| && Live(cfg, script, r) && CallState(r.state)
    ensures Considered(cfg, script, Produced(r, CancelledHere), index, step)
  {
    hide Live;
  }

  // ---- results ----

  lemma {:induction false} DealtSnoc(cfg: Config, dealt: seq<Deal>, d: Deal)
    ensures TraceOf(dealt + [d]) == TraceOf(dealt) + [Completion.Entry(d.call.name, d.result)]
    ensures FailuresOf(cfg, dealt + [d])
            == if d.cancelled then FailuresOf(cfg, dealt)
               else WithFailure(FailuresOf(cfg, dealt), FailureFrom(cfg, d.call, d.result))
  {
    assert (dealt + [d])[..|dealt|] == dealt;
  }

  lemma DealsMore(script: seq<StepInput>, starts: seq<Start>, dealt: seq<Deal>, d: Deal, known: nat)
    requires DealsOk(script, starts, dealt, known) && DealOk(script, starts, d)
    ensures DealsOk(script, starts, dealt + [d], known)
  {
    hide DealOk;
  }

  /** A failure counts once more; only the third of a stalling kind reaches the bound. */
  lemma {:induction false} JudgedRight(failures: seq<FailureKey>, failure: Option<FailureKey>)
    requires BelowStall(failures, 2)
    ensures var next := WithFailure(failures, failure);
            BelowStall(next, 3) && (Judged(next, failure).stall <==> !BelowStall(next, 2))
  {
    if failure.Some? {
      var key := failure.value;
      assert multiset(failures + [key]) == multiset(failures) + multiset{key};
      GuidedNeverStalls(key.code);
    }
  }

  /** One more result in the ledger and the tracker. */
  lemma DealtNear(cfg: Config, script: seq<StepInput>, r: Run, d: Deal, disabled: set<string>)
    requires Live(cfg, script, r) && DealOk(script, r.starts, d)
    ensures var failure := if d.cancelled then None else FailureFrom(cfg, d.call, d.result);
            var next := r.(trace := r.trace + [Completion.Entry(d.call.name, d.result)],
                           failures := WithFailure(r.failures, failure), disabled := disabled, dealt := r.dealt + [d]);
            && Near(cfg, script, next) && RunLength(next.recorded) <= 3 && BelowStall(next.failures, 3)
            && (Judged(next.failures, failure).stall <==> !BelowStall(next.failures, 2))
  {
    hide Ongoing, StartsOk, StartPositions, DealsOk, DealOk, TraceOf, FailuresOf, Walked, RunLength, BelowStall, Judged,
         FailureFrom, WithFailure;
    var failure := if d.cancelled then None else FailureFrom(cfg, d.call, d.result);
    DealtSnoc(cfg, r.dealt, d);
    DealsMore(script, r.starts, r.dealt, d, r.known);
    JudgedRight(r.failures, failure);
    NoFailure(r.failures);
  }

  lemma NoFailure(failures: seq<FailureKey>)
    ensures WithFailure(failures, None) == failures && !Judged(failures, None).stall
  {
  }

  /** What holds after calls were handled in part. */
  ghost predicate WellHandled(cfg: Config, script: seq<StepInput>, run: Run, flow: Flow) {
    match flow
    case Continue => Live(cfg, script, run) && CallState(run.state)
    case Crashed => Live(cfg, script, run) && run.state == WaitingApproval
    case Ended(ending) => Over(cfg, script, run, ending)
  }

  lemma DeliveredNear(cfg: Config, script: seq<StepInput>, r: Run, call: ToolCall, result: ToolResult, step: nat)
    requires Near(cfg, script, r)
    ensures var next := Delivered(r, call, result, step);
            && Near(cfg, script, next) && next.state == r.state && next.recorded == r.recorded
            && next.failures == r.failures
            && next.starts == r.starts
  {
    hide Near, Within;
    SaidNear(cfg, script, r, ToolMessage(result.content, call.id));
    EmittedNear(cfg, script, Said(r, ToolMessage(result.content, call.id)), ToolCompleted(call.id), step);
  }

  lemma BoundedGenuine(
    cfg: Config, script: seq<StepInput>, starts: seq<Start>, call: ToolCall, result: ToolResult, bytes: nat,
    index: nat, step: nat)
    requires 0 < step <= |script| && Genuine(script, starts, step, index, result)
    ensures Genuine(script, starts, step, index, Bounded(cfg, call, result, bytes))
  {
    hide HasStart;
  }

  lemma FinishedGood(
    cfg: Config, script: seq<StepInput>, r: Run, call: ToolCall, index: nat, step: nat, produced: ToolResult,
    bytes: nat)
    requires CallAt(script, step, index, call) && Live(cfg, script, r) && CallState(r.state)
    requires Genuine(script, r.starts, step, index, produced)
    ensures var h := FinishedCall(cfg, r, call, index, step, produced, bytes);
            WellHandled(cfg, script, h.run, h.flow) && !h.flow.Crashed?
  {
    hide Near, Over, RunLength, BelowStall, Genuine, Bounded, FailureFrom, Judged, WithFailure, Delivered,
         RunMachine.Finished, Disables, Completion.Justified;
    var result := Bounded(cfg, call, produced, bytes);
    var d := Deal(call, step, index, result, false);
    BoundedGenuine(cfg, script, r.starts, call, produced, bytes, index, step);
    var failure := FailureFrom(cfg, call, result);
    var next := r.(trace := r.trace + [Completion.Entry(call.name, result)],
                   failures := WithFailure(r.failures, failure),
                   disabled := r.disabled + Disables(call, result), dealt := r.dealt + [d]);
    DealtNear(cfg, script, r, d, r.disabled + Disables(call, result));
    DeliveredNear(cfg, script, next, call, result, step);
    var kept := Delivered(next, call, result, step);
    if Judged(kept.failures, failure).stall {
      FinishedOver(cfg, script, kept, StalledFailure, step);
    }
  }

  lemma CancelledOneLive(
    cfg: Config, script: seq<StepInput>, r: Run, calls: seq<ToolCall>, index: nat, announced: bool, step: nat)
    requires ResponseAt(script, step, calls) && index < |calls| && Live(cfg, script, r)
    ensures var next := CancelledOne(cfg, r, calls, index, announced, step);
            Live(cfg, script, next) && next.state == r.state
  {
    hide Near, RunLength, BelowStall, Genuine, Delivered, Emitted, FailureFrom, Judged, WithFailure, ErrorResult;
    var call := calls[index];
    var asked := if announced then r else Emitted(r, ToolRequested(call.id), step);
    if !announced {
      EmittedLive(cfg, script, r, ToolRequested(call.id), step);
    }
    EmittedKeeps(r, ToolRequested(call.id), step);
    var result := ErrorResult(cfg, call, "TOOL_CANCELLED");
    var d := Deal(call, step, index, result, true);
    ErrorIsGenuine(cfg, script, asked.starts, call, "TOOL_CANCELLED", index, step);
    DealtNear(cfg, script, asked, d, asked.disabled);
    NoFailure(asked.failures);
    var next := asked.(trace := asked.trace + [Completion.Entry(call.name, result)], dealt := asked.dealt + [d]);
    DeliveredNear(cfg, script, next, call, result, step);
  }

  lemma EmittedKeeps(r: Run, kind: EventKind, step: nat)
    ensures var next := Emitted(r, kind, step);
            && next.trace == r.trace && next.dealt == r.dealt && next.journal == r.journal && next.state == r.state
            && next.recorded == r.recorded && next.failures == r.failures && next.disabled == r.disabled
  {
  }

  lemma {:induction false} CancelledToLive(
    cfg: Config, script: seq<StepInput>, r: Run, calls: seq<ToolCall>, start: nat, end: nat, step: nat)
    requires ResponseAt(script, step, calls) && start <= end <= |calls| && Live(cfg, script, r)
    ensures var next := CancelledTo(cfg, r, calls, start, end, step);
            Live(cfg, script, next) && next.state == r.state
    decreases end
  {
    hide Live, CancelledOne, ResponseAt;
    if end > start {
      CancelledToLive(cfg, script, r, calls, start, end - 1, step);
      CancelledOneLive(
        cfg, script, CancelledTo(cfg, r, calls, start, end - 1, step), calls, end - 1, end - 1 == start, step);
    }
  }

  lemma StoppedOver(cfg: Config, script: seq<StepInput>, r: Run, calls: seq<ToolCall>, start: nat, step: nat)
    requires ResponseAt(script, step, calls) && start < |calls| && Live(cfg, script, r) && CanMove(r.state, Cancelled)
    ensures Over(cfg, script, StoppedAt(cfg, r, calls, start, step), Stopped)
  {
    hide Near, Over, Within, CancelledTo, ResponseAt, EndsRight, Moved, Emitted, Completion.Justified;
    MovedLive(cfg, script, r, Cancelled);
    CancelledToLive(cfg, script, Moved(r, Cancelled), calls, start, |calls|, step);
    var stopped := CancelledTo(cfg, Moved(r, Cancelled), calls, start, |calls|, step);
    WithinEnds(stopped, Stopped);
    EndedOver(cfg, script, stopped, Stopped, step);
  }

  lemma StalledOver(cfg: Config, script: seq<StepInput>, r: Run, step: nat)
    requires Near(cfg, script, r) && CallState(r.state) && RunLength(r.recorded) == 4 && BelowStall(r.failures, 2)
    ensures Over(cfg, script, RunMachine.Finished(r, StalledCall, step), StalledCall)
  {
    hide Near, Over, RunLength, RunMachine.Finished, Completion.Justified;
    FinishedOver(cfg, script, r, StalledCall, step);
  }

  lemma CallTurnGood(
    cfg: Config, script: seq<StepInput>, r: Run, calls: seq<ToolCall>, index: nat, step: nat, bytes: nat)
    requires ResponseAt(script, step, calls) && index < |calls| && Live(cfg, script, r) && CallState(r.state)
    ensures var h := CallTurn(cfg, r, calls, index, step, InputAt(script, step, index), bytes);
            WellHandled(cfg, script, h.run, h.flow)
  {
    hide Live, Near, Over, Genuine, CalledAs, RunMachine.Finished, FinishedCall, StoppedAt, RunLength, BelowStall;
    var p := CalledAs(cfg, r, calls[index], index, step, InputAt(script, step, index));
    CalledGood(cfg, script, r, calls[index], index, step);
    match p.d
    case Stalls => StalledOver(cfg, script, p.run, step);
    case Refused =>
    case CancelledHere => StoppedOver(cfg, script, p.run, calls, index, step);
    case Outcome(result) => FinishedGood(cfg, script, p.run, calls[index], index, step, result, bytes);
  }

  lemma CallsTurnGood(cfg: Config, script: seq<StepInput>, r: Run, calls: seq<ToolCall>, step: nat, n: nat)
    requires ResponseAt(script, step, calls) && n <= |calls| && Live(cfg, script, r) && CallState(r.state)
    ensures var h := CallsTurn(cfg, r, calls, step, script[step - 1].calls, n);
            WellHandled(cfg, script, h.run, h.flow)
  {
    hide Live, Over, CallTurn, CallState;
    if n > 0 {
      CallsTurnGood(cfg, script, r, calls, step, n - 1);
      var before := CallsTurn(cfg, r, calls, step, script[step - 1].calls, n - 1);
      if before.flow == Continue {
        CallTurnGood(cfg, script, before.run, calls, n - 1, step, before.bytes);
      }
    }
  }

  // ---- phases of a step ----

  /** What holds after a step: ready for the next one, refused by the state
      machine, or over. */
  ghost predicate WellTurned(cfg: Config, script: seq<StepInput>, run: Run, flow: Flow) {
    match flow
    case Continue => Live(cfg, script, run) && run.state == Preparing
    case Crashed => Live(cfg, script, run) && run.state == WaitingApproval
    case Ended(ending) => Over(cfg, script, run, ending)
  }

  lemma AllCallsGood(cfg: Config, script: seq<StepInput>, r: Run, calls: seq<ToolCall>, step: nat)
    requires ResponseAt(script, step, calls) && Live(cfg, script, r) && r.state == Interpreting
    ensures var t := AllCallsTurn(cfg, r, calls, step, script[step - 1].calls);
            WellTurned(cfg, script, t.run, t.flow)
  {
    hide Live, Over, CallsTurn, Said, Emitted, Resumed, AcceptedCalls;
    EmittedLive(cfg, script, r, Progress, step);
    var begun := Emitted(r, Progress, step);
    CallsTurnGood(cfg, script, begun, calls, step, |calls|);
    var h := CallsTurn(cfg, begun, calls, step, script[step - 1].calls, |calls|);
    if h.flow == Continue {
      SaidLive(cfg, script, h.run, Plain(User, cfg.guidance));
      ResumedLive(cfg, script, if h.guided then Said(h.run, Plain(User, cfg.guidance)) else h.run, step);
    }
  }

  lemma InputGood(cfg: Config, script: seq<StepInput>, r: Run, call: ToolCall, answer: UserAnswer, step: nat)
    requires ResponseAt(script, step, [call]) && Live(cfg, script, r) && r.state == Interpreting
    ensures var t := InputTurn(cfg, r, call, answer, step);
            WellTurned(cfg, script, t.run, t.flow) && !t.flow.Crashed?
  {
    hide Live, Over, Moved, Emitted, Delivered, Resumed, StoppedAt, InputResult, ResponseAt;
    var asked := Emitted(r, ToolRequested(call.id), step);
    EmittedLive(cfg, script, r, ToolRequested(call.id), step);
    var result := InputResult(cfg, call, answer);
    if answer.BadRequest? || !cfg.userInputs {
      DeliveredLive(cfg, script, asked, call, result, step);
      ResumedLive(cfg, script, Delivered(asked, call, result, step), step);
    } else {
      MovedLive(cfg, script, asked, WaitingInput);
      EmittedLive(cfg, script, Moved(asked, WaitingInput), InputRequired(call.id), step);
      var waiting := Emitted(Moved(asked, WaitingInput), InputRequired(call.id), step);
      if answer.AnswerCancelled? {
        StoppedOver(cfg, script, waiting, [call], 0, step);
      } else {
        EmittedLive(cfg, script, waiting, InputResolved(call.id), step);
        var told := if answer.Answer? then Emitted(waiting, InputResolved(call.id), step) else waiting;
        DeliveredLive(cfg, script, told, call, result, step);
        ResumedLive(cfg, script, Delivered(told, call, result, step), step);
      }
    }
  }

  lemma TriedAgainLive(cfg: Config, script: seq<StepInput>, r: Run, call: ToolCall, result: ToolResult, step: nat)
    requires Live(cfg, script, r) && r.state == Interpreting
    ensures Live(cfg, script, TriedAgain(r, call, result, step)) && TriedAgain(r, call, result, step).state == Preparing
  {
    hide Live, Moved, StepClosed, Delivered;
    DeliveredLive(cfg, script, r, call, result, step);
    StepClosedLive(cfg, script, Delivered(r, call, result, step), step);
    MovedLive(cfg, script, StepClosed(Delivered(r, call, result, step), step), Preparing);
  }

  lemma ReportedOver(cfg: Config, script: seq<StepInput>, r: Run, call: ToolCall, text: string, step: nat)
    requires Live(cfg, script, r) && r.state == Interpreting
    ensures Over(cfg, script, RunMachine.Finished(Delivered(r, call, ReportResult(text), step), Reported, step),
            Reported)
  {
    hide Live, Over, RunMachine.Finished, Delivered, ReportResult, Completion.Justified;
    DeliveredLive(cfg, script, r, call, ReportResult(text), step);
    LiveOver(cfg, script, Delivered(r, call, ReportResult(text), step), Reported, step);
  }

  lemma DoneOver(cfg: Config, script: seq<StepInput>, r: Run, call: ToolCall, text: string, step: nat)
    requires Live(cfg, script, r) && r.state == Interpreting && Completion.Accepts(r.trace)
    ensures var closed := Delivered(Moved(r, RunState.Completed), call, ReportResult(text), step);
            Over(cfg, script, Emitted(closed, RunCompleted, step), Done)
  {
    hide Near, Over, Within, EndsRight, ReportResult, Completion.Justified, Completion.Accepts;
    Completion.AcceptedIff(r.trace);
    MovedLive(cfg, script, r, RunState.Completed);
    DeliveredLive(cfg, script, Moved(r, RunState.Completed), call, ReportResult(text), step);
    var closed := Delivered(Moved(r, RunState.Completed), call, ReportResult(text), step);
    WithinEnds(closed, Done);
    EndedOver(cfg, script, closed, Done, step);
  }

  lemma OutcomeGood(cfg: Config, script: seq<StepInput>, r: Run, call: ToolCall, report: OutcomeReport, step: nat)
    requires Live(cfg, script, r) && r.state == Interpreting
    ensures var t := OutcomeTurn(cfg, r, call, report, step);
            WellTurned(cfg, script, t.run, t.flow) && !t.flow.Crashed?
  {
    hide Live, Over, Emitted, Delivered, TriedAgain, RunMachine.Finished, ReportResult, ErrorResult, Completion.Accepts;
    var asked := Emitted(r, ToolRequested(call.id), step);
    EmittedLive(cfg, script, r, ToolRequested(call.id), step);
    EmittedKeeps(r, ToolRequested(call.id), step);
    match report
    case BadOutcome(code) => TriedAgainLive(cfg, script, asked, call, ErrorResult(cfg, call, code), step);
    case ReportsIncomplete(text) => ReportedOver(cfg, script, asked, call, text, step);
    case ReportsCompleted(text) =>
      if Completion.Accepts(r.trace) {
        DoneOver(cfg, script, asked, call, text, step);
      } else {
        TriedAgainLive(cfg, script, asked, call, ErrorResult(cfg, call, "OUTCOME_CONTRADICTS_EVIDENCE"), step);
      }
  }

  lemma TextGood(cfg: Config, script: seq<StepInput>, r: Run, content: string, step: nat)
    requires Live(cfg, script, r) && r.state == Interpreting
    ensures var t := TextTurn(cfg, r, content, step);
            WellTurned(cfg, script, t.run, t.flow) && !t.flow.Crashed?
  {
    hide Live, Over, Said, Moved, StepClosed, RunMachine.Finished, NonBlank, Completion.Accepts, Completion.Justified;
    if NonBlank(content) && Completion.Accepts(r.trace) {
      Completion.AcceptedIff(r.trace);
      LiveOver(cfg, script, r, Done, step);
    } else {
      SaidLive(cfg, script, r, Plain(User, cfg.nudge));
      MovedLive(cfg, script, Said(r, Plain(User, cfg.nudge)), Preparing);
      StepClosedLive(cfg, script, Moved(Said(r, Plain(User, cfg.nudge)), Preparing), step);
    }
  }

  lemma ActGood(
    cfg: Config, script: seq<StepInput>, r: Run, content: string, calls: seq<ToolCall>, step: nat, summaryRound: bool)
    requires ResponseAt(script, step, calls) && Live(cfg, script, r) && r.state == Interpreting
    ensures var t := ActTurn(cfg, r, content, calls, script[step - 1], step, summaryRound);
            WellTurned(cfg, script, t.run, t.flow)
  {
    hide Live, Over, RunMachine.Finished, InputTurn, OutcomeTurn, AllCallsTurn, TextTurn, AcceptedCalls, SummaryEnds,
         Completion.Justified, WellTurned;
    var input := script[step - 1];
    if SummaryEnds(cfg, summaryRound, calls) {
      SummaryOver(cfg, script, r, step);
    } else if AsksUser(calls) {
      assert calls == [calls[0]];
      InputGood(cfg, script, r, calls[0], input.answer, step);
    } else if ReportsOutcome(calls) {
      OutcomeGood(cfg, script, r, calls[0], input.outcome, step);
    } else if calls != [] {
      AllCallsGood(cfg, script, r, calls, step);
    } else {
      TextGood(cfg, script, r, content, step);
    }
  }

  lemma SummaryOver(cfg: Config, script: seq<StepInput>, r: Run, step: nat)
    requires Live(cfg, script, r) && r.state == Interpreting
    ensures WellTurned(cfg, script, RunMachine.Finished(r, SummaryRound, step), Ended(SummaryRound))
  {
    hide Live, Over, RunMachine.Finished, Completion.Justified;
    LiveOver(cfg, script, r, SummaryRound, step);
  }

  lemma ResponseGood(
    cfg: Config, script: seq<StepInput>, r: Run, content: string, calls: seq<ToolCall>, usage: bool, step: nat,
    summaryRound: bool)
    requires ResponseAt(script, step, calls) && Live(cfg, script, r) && r.state == Interpreting
    ensures var t := ResponseTurn(cfg, r, content, calls, usage, script[step - 1], step, summaryRound);
            WellTurned(cfg, script, t.run, t.flow)
  {
    hide Live, Over, Said, Emitted, ActTurn, ResponseAt, WellTurned;
    var said := Said(r, Message(Assistant, content, calls, None));
    SaidLive(cfg, script, r, Message(Assistant, content, calls, None));
    EmittedLive(cfg, script, said, UsageReported, step);
    ActGood(cfg, script, if usage then Emitted(said, UsageReported, step) else said, content, calls, step,
      summaryRound);
  }

  // ---- the model ----

  /** Where an answer of the model leaves the run. */
  ghost predicate WellReached(cfg: Config, script: seq<StepInput>, reached: Reached) {
    && Live(cfg, script, reached.run)
    && match reached.answer
       case Accepted(_, _, _) => reached.run.state == Interpreting
       case Repaired => reached.run.state == Preparing
       case Gone(_) => reached.run.state == Preparing || reached.run.state == RequestingModel
  }

  lemma RepairGood(cfg: Config, script: seq<StepInput>, r: Run, step: nat)
    requires Live(cfg, script, r) && r.state == RequestingModel
    ensures WellReached(cfg, script, RepairTurn(cfg, r, step))
  {
    hide Live, Said, Moved, StepClosed;
    CountedLive(cfg, script, r, r.modelCalls, r.toolCalls, true);
    var spent := r.(repaired := true);
    SaidLive(cfg, script, spent, Plain(User, cfg.repairPrompt));
    MovedLive(cfg, script, Said(spent, Plain(User, cfg.repairPrompt)), Preparing);
    StepClosedLive(cfg, script, Moved(Said(spent, Plain(User, cfg.repairPrompt)), Preparing), step);
  }

  lemma RetryGood(cfg: Config, script: seq<StepInput>, r: Run, input: StepInput, digest: string, step: nat)
    requires Live(cfg, script, r) && r.state == RequestingModel
    ensures WellReached(cfg, script, RetryTurn(r, input, digest, step))
  {
    hide Live, Emitted, Moved;
    var told := Emitted(r, ContextCompacted, step);
    EmittedLive(cfg, script, r, ContextCompacted, step);
    CountedLive(cfg, script, told, told.modelCalls + 1, told.toolCalls, told.repaired);
    MovedLive(cfg, script, AskedModel(told), Interpreting);
  }

  lemma ReplyGood(cfg: Config, script: seq<StepInput>, r: Run, input: StepInput, digest: string, step: nat)
    requires Live(cfg, script, r) && r.state == RequestingModel
    ensures WellReached(cfg, script, ReplyTurn(cfg, r, input, digest, step))
  {
    hide Live, Moved, RepairTurn, RetryTurn;
    MovedLive(cfg, script, r, Interpreting);
    RepairGood(cfg, script, r, step);
    RetryGood(cfg, script, r, input, digest, step);
  }

  lemma ModelGood(cfg: Config, script: seq<StepInput>, r: Run, input: StepInput, step: nat)
    requires Live(cfg, script, r) && r.state == Preparing
    ensures WellReached(cfg, script, ModelTurn(cfg, r, input, step))
  {
    hide Live, Moved, Emitted, ReplyTurn;
    match input.projection
    case Unprojected(_) =>
    case Projected(compacted, digest) =>
      EmittedLive(cfg, script, r, ContextProjected, step);
      EmittedLive(cfg, script, Emitted(r, ContextProjected, step), ContextCompacted, step);
      var moved := Moved(Shown(r, compacted, step), RequestingModel);
      MovedLive(cfg, script, Shown(r, compacted, step), RequestingModel);
      CountedLive(cfg, script, moved, moved.modelCalls + 1, moved.toolCalls, moved.repaired);
      ReplyGood(cfg, script, AskedModel(moved), input, digest, step);
  }

  /** An accepted response is the one the script gives for that step. */
  lemma AcceptedAsScripted(cfg: Config, r: Run, input: StepInput, step: nat)
    requires !input.cancelled
    ensures var answer := ModelTurn(cfg, r, input, step).answer;
            AcceptedCalls(input) == if answer.Accepted? then answer.calls else []
  {
    hide Emitted, Moved, Said, StepClosed, Shown, AskedModel;
  }

  lemma GoneGood(cfg: Config, script: seq<StepInput>, r: Run, failure: ModelFailure, step: nat)
    requires Live(cfg, script, r) && (r.state == Preparing || r.state == RequestingModel)
    ensures var t := GoneTurn(r, failure, step);
            WellTurned(cfg, script, t.run, t.flow) && !t.flow.Crashed?
  {
    hide Near, Over, Within, Moved, Emitted, EndsRight, Completion.Justified;
    if failure.CancelRequest? {
      LiveOver(cfg, script, r, Stopped, step);
    } else {
      var failed := Moved(r, Failed);
      MovedLive(cfg, script, r, Failed);
      EmittedLive(cfg, script, failed, CompactionFailed, step);
      var told := if failure.ContextBudget? || failure.ContextProtocol? then Emitted(failed, CompactionFailed, step)
        else failed;
      WithinEnds(told, ModelFailed);
      EndedOver(cfg, script, told, ModelFailed, step);
    }
  }

  lemma StepGood(cfg: Config, script: seq<StepInput>, r: Run, step: nat, summaryRound: bool)
    requires Live(cfg, script, r) && r.state == Preparing && 0 < step <= |script|
    ensures var t := StepTurn(cfg, r, script[step - 1], step, summaryRound);
            WellTurned(cfg, script, t.run, t.flow)
  {
    hide Live, Over, Emitted, RunMachine.Finished, ModelTurn, GoneTurn, ResponseTurn, AcceptedCalls,
         Completion.Justified;
    var input := script[step - 1];
    if input.cancelled {
      LiveOver(cfg, script, r, Stopped, step);
    } else {
      EmittedLive(cfg, script, r, StepStarted, step);
      var begun := Emitted(r, StepStarted, step);
      ModelGood(cfg, script, begun, input, step);
      AcceptedAsScripted(cfg, begun, input, step);
      var reached := ModelTurn(cfg, begun, input, step);
      match reached.answer
      case Repaired =>
      case Gone(failure) => GoneGood(cfg, script, reached.run, failure, step);
      case Accepted(content, calls, usage) =>
        ResponseGood(cfg, script, reached.run, content, calls, usage, step, summaryRound);
    }
  }

  // ---- whole runs ----

  /** What a run that was not rejected amounts to. */
  ghost predicate Ran(cfg: Config, script: seq<StepInput>, run: Run, outcome: RunOutcome) {
    match outcome
    case Rejected => false
    case Pending => Live(cfg, script, run) && run.state == Preparing
    case Broke => Live(cfg, script, run) && run.state == WaitingApproval
    case Closed(ending) => Over(cfg, script, run, ending)
  }

  lemma {:induction false} RunFromRan(cfg: Config, r: Run, script: seq<StepInput>, steps: nat)
    requires steps <= |script| && Live(cfg, script, r) && r.state == Preparing
    ensures var result := RunFrom(cfg, r, script, steps);
            Ran(cfg, script, result.run, result.outcome) && steps <= result.steps <= |script|
    decreases |script| - steps
  {
    hide Live, Over, StepTurn, RunMachine.Finished, Completion.Justified;
    if r.maxSteps.Some? && steps >= r.maxSteps.value {
      LiveOver(cfg, script, r, OutOfSteps, r.maxSteps.value);
    } else if steps < |script| {
      var summaryRound := InSummaryRound(cfg, r.maxSteps, steps + 1);
      StepGood(cfg, script, r, steps + 1, summaryRound);
      var turn := StepTurn(cfg, r, script[steps], steps + 1, summaryRound);
      if turn.flow == Continue {
        RunFromRan(cfg, turn.run, script, steps + 1);
      }
    }
  }

  /** What holds between runs. */
  ghost predicate Ready(cfg: Config, r: Run) {
    && r.delegated <= MAX_SUBTASKS && r.known <= |r.dealt|
    && r.trace == TraceOf(r.dealt) && r.failures == FailuresOf(cfg, r.dealt)
    && (r.opening.Some? ==> r.opening.value.role.User?)
    && (r.state !in TERMINAL_STATES ==> Within(r))
  }

  lemma {:induction false} BegunLive(cfg: Config, r: Run, task: string, initialize: bool, script: seq<StepInput>)
    requires Ready(cfg, r) && CanMove(r.state, Preparing)
    ensures var begun := Begun(cfg, r, task, initialize);
            Live(cfg, script, begun) && begun.state == Preparing && begun.opening.None?
  {
    hide RunLength, BelowStall, FailuresOf;
    var begun := Begun(cfg, r, task, initialize);
    var e := Event(RunStarted, r.sequence, 0);
    assert begun.events == [e];
    AnnouncedOne(e);
    assert begun.path == [r.state, Preparing];
  }
}
