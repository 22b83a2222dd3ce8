/** When a run breaks: the exact condition under which the state machine refuses a
    second approval request, and concrete scripts that break or leave calls open. */
module RunBreaks {
  import opened Text
  import opened Messages
  import opened ToolProtocol
  import opened RunStates
  import opened RunJournal
  import opened Recovery
  import opened RunEvents
  import opened RunMachine
  import opened RunSafety
  import opened RunRecords
  import opened RunOutcomes
  import opened RunEndings

  // ---- what becomes of a call, whatever the state ----

  /** The runtime lets the call through: it is not cancelled, within the four of its
      response, no repeat, and its tool is neither disabled nor the outcome report. */
  predicate LetThrough(cfg: Config, r: Run, call: ToolCall, index: nat, input: CallInput) {
    && !input.cancelled && index < MAX_TOOL_CALLS_PER_STEP
    && RunLength(r.recorded + [KeyOf(cfg, call)]) <= 2
    && call.name !in r.disabled && call.name != OUTCOME_TOOL
  }

  /** It comes to ask the user. */
  predicate AsksApproval(cfg: Config, r: Run, call: ToolCall, index: nat, input: CallInput) {
    LetThrough(cfg, r, call, index, input) && NeedsDecision(input) && cfg.approvals && input.preview.None?
  }

  /** The user turns it down, or the request expires. */
  predicate TurnedDown(cfg: Config, r: Run, call: ToolCall, index: nat, input: CallInput) {
    AsksApproval(cfg, r, call, index, input) && (input.wait.Refuse? || input.wait.Expire?)
  }

  /** Its tool starts. */
  predicate ToolStarts(cfg: Config, r: Run, call: ToolCall, index: nat, input: CallInput) {
    LetThrough(cfg, r, call, index, input) && (NeedsDecision(input) ==> WasApproved(cfg, input))
  }

  /** The run before call `k` of a response is handled. */
  function Before(cfg: Config, r: Run, calls: seq<ToolCall>, step: nat, inputs: nat -> CallInput, k: nat): Run
    requires k <= |calls|
  {
    CallsTurn(cfg, r, calls, step, inputs, k).run
  }

  predicate TurnedDownAt(cfg: Config, r: Run, calls: seq<ToolCall>, step: nat, inputs: nat -> CallInput, k: nat)
    requires k < |calls|
  {
    TurnedDown(cfg, Before(cfg, r, calls, step, inputs, k), calls[k], k, inputs(k))
  }

  predicate StartsAt(cfg: Config, r: Run, calls: seq<ToolCall>, step: nat, inputs: nat -> CallInput, k: nat)
    requires k < |calls|
  {
    ToolStarts(cfg, Before(cfg, r, calls, step, inputs, k), calls[k], k, inputs(k))
  }

  /** Among the first `n` calls one was turned down and no tool started behind it. */
  ghost predicate StillWaiting(cfg: Config, r: Run, calls: seq<ToolCall>, step: nat, inputs: nat -> CallInput, n: nat)
    requires n <= |calls|
  {
    exists i :: 0 <= i < n && TurnedDownAt(cfg, r, calls, step, inputs, i)
                && forall k | i < k < n :: !StartsAt(cfg, r, calls, step, inputs, k)
  }

  /** Call `n` is reached, asks the user, and an approval is still waited for. */
  ghost predicate BreaksAt(cfg: Config, r: Run, calls: seq<ToolCall>, step: nat, inputs: nat -> CallInput, n: nat)
    requires n < |calls|
  {
    && CallsTurn(cfg, r, calls, step, inputs, n).flow == Continue
    && AsksApproval(cfg, Before(cfg, r, calls, step, inputs, n), calls[n], n, inputs(n))
    && StillWaiting(cfg, r, calls, step, inputs, n)
  }

  // ---- one call ----

  /** The state a dispatched call leaves. */
  function StateAfter(cfg: Config, r: Run, call: ToolCall, index: nat, input: CallInput): RunState {
    if ToolStarts(cfg, r, call, index, input) then ExecutingTool
    else if AsksApproval(cfg, r, call, index, input) then WaitingApproval
    else r.state
  }

  lemma StartedState(r: Run, call: ToolCall, index: nat, step: nat)
    ensures StartedTool(r, call, index, step).state == ExecutingTool
  {
  }

  lemma {:induction false} EachState(r: Run, kind: EventKind, n: nat, step: nat)
    ensures EmittedEach(r, kind, n, step).state == r.state
  {
    if n > 0 {
      EachState(r, kind, n - 1, step);
    }
  }

  lemma BatchState(r: Run, n: nat, step: nat, execution: Execution)
    ensures BatchRun(r, n, step, execution).state == r.state
  {
    hide EmittedEach;
    var counted := r.(delegated := r.delegated + n);
    var asked := EmittedEach(counted, SubtaskRequested, n, step);
    EachState(counted, SubtaskRequested, n, step);
    EachState(asked, SubtaskStarted, n, step);
    EachState(EmittedEach(asked, SubtaskStarted, n, step),
              if execution.Executed? then SubtaskCompleted else SubtaskCancelled, n, step);
  }

  lemma DispatchedState(cfg: Config, r: Run, call: ToolCall, index: nat, step: nat, input: CallInput)
    requires CallState(r.state)
    ensures var p := DispatchedAs(cfg, r, call, index, step, input);
            && (p.d.Refused?
                <==> call.name != OUTCOME_TOOL && NeedsDecision(input) && cfg.approvals && input.preview.None?
                                  && r.state == WaitingApproval)
            && !p.d.Stalls?
            && (!p.d.Refused? ==>
                  p.run.state == if call.name == OUTCOME_TOOL then r.state
                                 else if NeedsDecision(input) ==> WasApproved(cfg, input) then ExecutingTool
                                 else if cfg.approvals && input.preview.None? then WaitingApproval
                                 else r.state)
  {
    hide StartedTool, BatchRun, ErrorResult;
    StartedState(r, call, index, step);
    if input.delegation.Some? && input.delegation.value.Batch? {
      BatchState(StartedTool(r, call, index, step), input.delegation.value.subtasks, step, input.execution);
    }
    var asked := Emitted(Moved(r, WaitingApproval), ApprovalRequired(call.id), step);
    StartedState(Emitted(asked, ApprovalResolved(call.id, true), step), call, index, step);
  }

  /** A call is refused exactly when it asks the user while an approval stands. */
  lemma CalledState(cfg: Config, r: Run, call: ToolCall, index: nat, step: nat, input: CallInput)
    requires CallState(r.state)
    ensures var p := CalledAs(cfg, r, call, index, step, input);
            && (p.d.Refused? <==> AsksApproval(cfg, r, call, index, input) && r.state == WaitingApproval)
            && (p.d.Outcome? ==> p.run.state == StateAfter(cfg, r, call, index, input))
  {
    hide DispatchedAs, ErrorResult, RunLength, KeyOf, WasApproved;
    var counted := r.(toolCalls := r.toolCalls + 1);
    EmittedKeeps(counted, ToolRequested(call.id), step);
    var asked := Emitted(counted, ToolRequested(call.id), step);
    DispatchedState(cfg, asked.(recorded := asked.recorded + [KeyOf(cfg, call)]), call, index, step, input);
  }

  lemma TurnState(
    cfg: Config, r: Run, calls: seq<ToolCall>, index: nat, step: nat, input: CallInput, bytes: nat)
    requires index < |calls| && CallState(r.state)
    ensures var h := CallTurn(cfg, r, calls, index, step, input, bytes);
            && (h.flow == Crashed <==> AsksApproval(cfg, r, calls[index], index, input) && r.state == WaitingApproval)
            && (h.flow == Continue ==> h.run.state == StateAfter(cfg, r, calls[index], index, input))
  {
    hide CalledAs, StoppedAt, RunMachine.Finished, FinishedCall, AsksApproval, StateAfter;
    CalledState(cfg, r, calls[index], index, step, input);
    var p := CalledAs(cfg, r, calls[index], index, step, input);
    if p.d.Outcome? {
      FinishedState(cfg, p.run, calls[index], index, step, p.d.result, bytes);
    }
  }

  lemma FinishedState(
    cfg: Config, r: Run, call: ToolCall, index: nat, step: nat, produced: ToolResult, bytes: nat)
    ensures var h := FinishedCall(cfg, r, call, index, step, produced, bytes);
            (h.flow == Continue && h.run.state == r.state) || h.flow == Ended(StalledFailure)
  {
    hide Bounded, Judged, WithFailure, FailureFrom, Disables;
  }

  // ---- the calls of one response ----

  lemma CallStateAfter(cfg: Config, r: Run, call: ToolCall, index: nat, input: CallInput)
    requires CallState(r.state)
    ensures CallState(StateAfter(cfg, r, call, index, input))
  {
    hide ToolStarts, AsksApproval;
  }

  lemma {:induction false} AlwaysCallState(
    cfg: Config, r: Run, calls: seq<ToolCall>, step: nat, inputs: nat -> CallInput, n: nat)
    requires n <= |calls| && CallState(r.state)
    ensures var h := CallsTurn(cfg, r, calls, step, inputs, n);
            h.flow == Continue ==> CallState(h.run.state)
  {
    hide CallTurn, CallState, StateAfter, AsksApproval;
    if n > 0 {
      AlwaysCallState(cfg, r, calls, step, inputs, n - 1);
      var before := CallsTurn(cfg, r, calls, step, inputs, n - 1);
      if before.flow == Continue {
        TurnState(cfg, before.run, calls, n - 1, step, inputs(n - 1), before.bytes);
        CallStateAfter(cfg, before.run, calls[n - 1], n - 1, inputs(n - 1));
      }
    }
  }

  lemma WaitingNext(cfg: Config, r: Run, calls: seq<ToolCall>, step: nat, inputs: nat -> CallInput, n: nat)
    requires n < |calls|
    ensures StillWaiting(cfg, r, calls, step, inputs, n + 1)
            <==> TurnedDownAt(cfg, r, calls, step, inputs, n)
                 || (StillWaiting(cfg, r, calls, step, inputs, n) && !StartsAt(cfg, r, calls, step, inputs, n))
  {
    hide TurnedDownAt, StartsAt;
    if StillWaiting(cfg, r, calls, step, inputs, n + 1) && !TurnedDownAt(cfg, r, calls, step, inputs, n) {
      var i :| 0 <= i < n + 1 && TurnedDownAt(cfg, r, calls, step, inputs, i)
               && forall k | i < k < n + 1 :: !StartsAt(cfg, r, calls, step, inputs, k);
      assert i < n;
    }
    if StillWaiting(cfg, r, calls, step, inputs, n) && !StartsAt(cfg, r, calls, step, inputs, n) {
      var i :| 0 <= i < n && TurnedDownAt(cfg, r, calls, step, inputs, i)
               && forall k | i < k < n :: !StartsAt(cfg, r, calls, step, inputs, k);
      assert forall k | i < k < n + 1 :: !StartsAt(cfg, r, calls, step, inputs, k);
    }
  }

  lemma CancelledWait(
    cfg: Config, r: Run, calls: seq<ToolCall>, index: nat, step: nat, input: CallInput, bytes: nat)
    requires index < |calls| && CallState(r.state) && AsksApproval(cfg, r, calls[index], index, input)
    requires input.wait.WaitCancelled?
    ensures CallTurn(cfg, r, calls, index, step, input, bytes).flow != Continue
  {
    hide CalledAs, StoppedAt, RunMachine.Finished, FinishedCall, ErrorResult, RunLength, KeyOf;
    CalledTo(cfg, r, calls[index], index, step, input);
  }

  /** While the handling goes on, the run waits for an approval exactly when one call
      was turned down and no tool started behind it. */
  lemma {:induction false} WaitsIff(
    cfg: Config, r: Run, calls: seq<ToolCall>, step: nat, inputs: nat -> CallInput, n: nat)
    requires n <= |calls| && r.state == Interpreting && CallsTurn(cfg, r, calls, step, inputs, n).flow == Continue
    ensures Before(cfg, r, calls, step, inputs, n).state == WaitingApproval
            <==> StillWaiting(cfg, r, calls, step, inputs, n)
  {
    hide CallTurn, LetThrough, StillWaiting, TurnedDown, ToolStarts, AsksApproval;
    if n == 0 {
      NoneWaits(cfg, r, calls, step, inputs);
    } else {
      var before, input := CallsTurn(cfg, r, calls, step, inputs, n - 1), inputs(n - 1);
      WaitsIff(cfg, r, calls, step, inputs, n - 1);
      AlwaysCallState(cfg, r, calls, step, inputs, n - 1);
      TurnState(cfg, before.run, calls, n - 1, step, input, before.bytes);
      WaitingNext(cfg, r, calls, step, inputs, n - 1);
      if AsksApproval(cfg, before.run, calls[n - 1], n - 1, input) && input.wait.WaitCancelled? {
        CancelledWait(cfg, before.run, calls, n - 1, step, input, before.bytes);
      }
      Decides(cfg, before.run, calls[n - 1], n - 1, input);
    }
  }

  lemma Decides(cfg: Config, r: Run, call: ToolCall, index: nat, input: CallInput)
    ensures AsksApproval(cfg, r, call, index, input) && !input.wait.WaitCancelled?
            ==> (TurnedDown(cfg, r, call, index, input) <==> !ToolStarts(cfg, r, call, index, input))
    ensures TurnedDown(cfg, r, call, index, input) ==> AsksApproval(cfg, r, call, index, input)
    ensures ToolStarts(cfg, r, call, index, input) ==> !TurnedDown(cfg, r, call, index, input)
  {
    hide LetThrough;
  }

  lemma NoneWaits(cfg: Config, r: Run, calls: seq<ToolCall>, step: nat, inputs: nat -> CallInput)
    ensures !StillWaiting(cfg, r, calls, step, inputs, 0)
  {
  }

  /** The handling of a response breaks exactly at a call that asks the user while
      an approval is still waited for. */
  lemma {:induction false} CallsBreakIff(
    cfg: Config, r: Run, calls: seq<ToolCall>, step: nat, inputs: nat -> CallInput, n: nat)
    requires n <= |calls| && r.state == Interpreting
    ensures CallsTurn(cfg, r, calls, step, inputs, n).flow == Crashed
            <==> exists k :: 0 <= k < n && BreaksAt(cfg, r, calls, step, inputs, k)
  {
    hide CallTurn, AsksApproval, StillWaiting, StateAfter;
    if n > 0 {
      CallsBreakIff(cfg, r, calls, step, inputs, n - 1);
      var before := CallsTurn(cfg, r, calls, step, inputs, n - 1);
      if before.flow == Continue {
        WaitsIff(cfg, r, calls, step, inputs, n - 1);
        AlwaysCallState(cfg, r, calls, step, inputs, n - 1);
        TurnState(cfg, before.run, calls, n - 1, step, inputs(n - 1), before.bytes);
        assert CallsTurn(cfg, r, calls, step, inputs, n).flow == Crashed
               <==> BreaksAt(cfg, r, calls, step, inputs, n - 1);
      } else {
        StoppedStays(cfg, r, calls, step, inputs, n - 1, n);
      }
    }
  }

  /** Once the handling has ended it stays so. */
  lemma {:induction false} StoppedStays(
    cfg: Config, r: Run, calls: seq<ToolCall>, step: nat, inputs: nat -> CallInput, k: nat, n: nat)
    requires k <= n <= |calls| && CallsTurn(cfg, r, calls, step, inputs, k).flow != Continue
    ensures CallsTurn(cfg, r, calls, step, inputs, n) == CallsTurn(cfg, r, calls, step, inputs, k)
    decreases n
  {
    hide CallTurn;
    if k < n {
      StoppedStays(cfg, r, calls, step, inputs, k, n - 1);
    }
  }

  // ---- one step ----

  function Reported(r: Run, content: string, calls: seq<ToolCall>, usage: bool, step: nat): Run {
    var said := Said(r, Message(Assistant, content, calls, None));
    if usage then Emitted(said, UsageReported, step) else said
  }

  /** The run at the moment the calls of its response are handled. */
  function AtCalls(cfg: Config, r: Run, input: StepInput, step: nat): Run {
    var reached := ModelTurn(cfg, Emitted(r, StepStarted, step), input, step);
    match reached.answer
    case Accepted(content, calls, usage) => Emitted(Reported(reached.run, content, calls, usage, step), Progress, step)
    case _ => r
  }

  lemma ModelKeeps(cfg: Config, r: Run, input: StepInput, step: nat)
    ensures var reached := ModelTurn(cfg, r, input, step);
            && reached.run.recorded == r.recorded && reached.run.failures == r.failures
            && reached.run.disabled == r.disabled && reached.run.delegated == r.delegated
            && (reached.answer.Accepted? ==> reached.run.state == Interpreting)
  {
    hide ReplyTurn;
    match input.projection
    case Unprojected(_) =>
    case Projected(compacted, digest) =>
      ReplyKeeps(cfg, AskedModel(Moved(Shown(r, compacted, step), RequestingModel)), input, digest, step);
  }

  lemma ReplyKeeps(cfg: Config, r: Run, input: StepInput, digest: string, step: nat)
    ensures var reached := ReplyTurn(cfg, r, input, digest, step);
            && reached.run.recorded == r.recorded && reached.run.failures == r.failures
            && reached.run.disabled == r.disabled && reached.run.delegated == r.delegated
            && (reached.answer.Accepted? ==> reached.run.state == Interpreting)
  {
  }

  /** Nothing a call depends on changes before the calls are handled. */
  lemma AtCallsKeeps(cfg: Config, r: Run, input: StepInput, step: nat)
    ensures var at := AtCalls(cfg, r, input, step);
            && at.recorded == r.recorded && at.failures == r.failures && at.disabled == r.disabled
            && at.delegated == r.delegated
            && (!input.cancelled && AcceptedCalls(input) != [] ==> at.state == Interpreting)
  {
    hide ModelTurn, AcceptedCalls;
    var begun := Emitted(r, StepStarted, step);
    ModelKeeps(cfg, begun, input, step);
    if !input.cancelled {
      AcceptedAsScripted(cfg, begun, input, step);
    }
  }

  /** The response of this step is handled call by call, and its handling breaks. */
  ghost predicate StepBreaks(cfg: Config, r: Run, input: StepInput, step: nat, summaryRound: bool) {
    var calls := AcceptedCalls(input);
    && WorkCalls(calls) != [] && !SummaryEnds(cfg, summaryRound, calls)
    && exists k :: 0 <= k < |calls| && BreaksAt(cfg, AtCalls(cfg, r, input, step), calls, step, input.calls, k)
  }

  lemma StepBreaksIff(cfg: Config, r: Run, input: StepInput, step: nat, summaryRound: bool)
    ensures StepTurn(cfg, r, input, step, summaryRound).flow == Crashed
            <==> StepBreaks(cfg, r, input, step, summaryRound)
  {
    hide ModelTurn, GoneTurn, AcceptedCalls, BreaksAt, InputTurn, OutcomeTurn, TextTurn, CallsTurn, RunMachine.Finished,
         SummaryEnds, Emitted, Said, Resumed;
    var calls := AcceptedCalls(input);
    if input.cancelled {
      CancelledAsks(input);
    } else {
      var begun := Emitted(r, StepStarted, step);
      var reached := ModelTurn(cfg, begun, input, step);
      AcceptedAsScripted(cfg, begun, input, step);
      AtCallsKeeps(cfg, r, input, step);
      match reached.answer
      case Repaired =>
      case Gone(failure) => GoneFlow(reached.run, failure, step);
      case Accepted(content, asked, usage) =>
        var said := Reported(reached.run, content, calls, usage, step);
        InputFlow(cfg, said, if calls == [] then ToolCall("", "", "") else calls[0], input.answer, step);
        OutcomeFlow(cfg, said, if calls == [] then ToolCall("", "", "") else calls[0], input.outcome, step);
        TextFlow(cfg, said, content, step);
        if calls != [] {
          CallsBreakIff(cfg, AtCalls(cfg, r, input, step), calls, step, input.calls, |calls|);
        }
    }
  }

  lemma GoneFlow(r: Run, failure: ModelFailure, step: nat)
    ensures GoneTurn(r, failure, step).flow != Crashed
  {
  }

  // ---- whole runs ----

  /** Step number `k + 1` is made, and its handling breaks. */
  ghost predicate RunBreaksAt(cfg: Config, r: Run, script: seq<StepInput>, k: nat)
    requires k < |script|
  {
    && Made(cfg, r, script, k)
    && StepBreaks(cfg, Head(cfg, r, script, k).run, script[k], k + 1, InSummaryRound(cfg, r.maxSteps, k + 1))
  }

  /** A run breaks exactly when one of the steps it makes handles a call that asks
      the user while an approval turned down in the same response still stands. */
  lemma {:induction false} RunBreaksIff(cfg: Config, r: Run, script: seq<StepInput>)
    ensures RunFrom(cfg, r, script, 0).outcome == Broke
            <==> exists k :: 0 <= k < |script| && RunBreaksAt(cfg, r, script, k)
  {
    hide StepTurn, StepBreaks, Made;
    RunEndsIff(cfg, r, script, Crashed);
    forall k | 0 <= k < |script| ensures EndsAt(cfg, r, script, k, Crashed) <==> RunBreaksAt(cfg, r, script, k) {
      StepBreaksIff(cfg, Head(cfg, r, script, k).run, script[k], k + 1, InSummaryRound(cfg, r.maxSteps, k + 1));
    }
  }

  // ---- concrete scripts ----

  /** A refusal leaves the run waiting for the decision on the call it refused. */
  lemma RefusedGoesOn(
    cfg: Config, r: Run, calls: seq<ToolCall>, index: nat, step: nat, input: CallInput, bytes: nat)
    requires index < |calls| && CallState(r.state) && r.state != WaitingApproval
    requires TurnedDown(cfg, r, calls[index], index, input) && calls[index].name != GIT_TOOL
    ensures var h := CallTurn(cfg, r, calls, index, step, input, bytes);
            && h.flow == Continue && h.run.disabled == r.disabled
            && h.run.recorded == r.recorded + [KeyOf(cfg, calls[index])]
  {
    hide CalledAs, RunLength, KeyOf, Adds, Closes, WithFailure;
    CalledTo(cfg, r, calls[index], index, step, input);
    CalledAdds(cfg, r, calls[index], index, step, input);
    var p := CalledAs(cfg, r, calls[index], index, step, input);
    var result := Bounded(cfg, calls[index], p.d.result, bytes);
    assert !StallsOn(result.error.value);
    FinishedCallAdds(cfg, p.run, calls[index], index, step, p.d.result, bytes);
  }

  /** Two writes whose arguments are valid, so that each asks the user in approve mode. */
  const FIRST_WRITE :=
    ToolCall("1", "workspace_write", "{\"path\":\"a.txt\",\"content\":\"\",\"mode\":\"create\"}")
  const SECOND_WRITE :=
    ToolCall("2", "workspace_write", "{\"path\":\"b.txt\",\"content\":\"\",\"mode\":\"create\"}")

  /** The user turns down whatever asks. */
  const TURNED_DOWN := CallInput(false, None, true, None, Wait.Refuse, ExecutionCancelled)

  function Asking(calls: seq<ToolCall>): StepInput {
    StepInput(false, Projected(false, ""), Responded("", calls, false), Unprojected(OtherFailure), Malformed,
              AnswerExpired, BadOutcome(""), _ => TURNED_DOWN)
  }

  /** A new agent: no evidence, and nothing recorded, failed or disabled. */
  predicate New(r: Run) {
    r.state.Created? && r.trace == [] && r.recorded == [] && r.failures == [] && r.disabled == {} && r.journal == []
  }

  lemma TwoKeys(a: CallKey, b: CallKey)
    ensures RunLength([a]) == 1 && RunLength([a, b]) <= 2
  {
    assert [a, b][..1] == [a];
  }

  /** One response with two writes, both turned down, breaks a new agent's first run. */
  lemma {:induction false} TwoRefusalsBreak(cfg: Config, r: Run, task: string)
    requires cfg.approvals && New(r) && r.maxSteps.None? && ValidTask(task)
    ensures FirstRun(cfg, r, task, [Asking([FIRST_WRITE, SECOND_WRITE])]).outcome == Broke
  {
    hide ValidTask, AtCalls, CallTurn, Opening, StepTurn, BreaksAt;
    var calls := [FIRST_WRITE, SECOND_WRITE];
    var script := [Asking(calls)];
    var begun := Begun(cfg, r.(repaired := false), task, true);
    RunBreaksIff(cfg, begun, script);
    var at := AtCalls(cfg, begun, script[0], 1);
    AtCallsKeeps(cfg, begun, script[0], 1);
    TwoKeys(KeyOf(cfg, FIRST_WRITE), KeyOf(cfg, SECOND_WRITE));
    FirstIsTurnedDown(cfg, at, calls, script[0].calls);
    assert BreaksAt(cfg, at, calls, 1, script[0].calls, 1);
    assert RunBreaksAt(cfg, begun, script, 0);
  }

  lemma {:induction false} FirstIsTurnedDown(cfg: Config, at: Run, calls: seq<ToolCall>, inputs: nat -> CallInput)
    requires cfg.approvals && at.state == Interpreting && at.recorded == [] && at.disabled == {}
    requires calls == [FIRST_WRITE, SECOND_WRITE] && inputs(0) == TURNED_DOWN && inputs(1) == TURNED_DOWN
    ensures BreaksAt(cfg, at, calls, 1, inputs, 1)
  {
    hide CallTurn, KeyOf;
    TwoKeys(KeyOf(cfg, FIRST_WRITE), KeyOf(cfg, SECOND_WRITE));
    assert at.recorded + [KeyOf(cfg, FIRST_WRITE)] == [KeyOf(cfg, FIRST_WRITE)];
    assert [KeyOf(cfg, FIRST_WRITE)] + [KeyOf(cfg, SECOND_WRITE)]
           == [KeyOf(cfg, FIRST_WRITE), KeyOf(cfg, SECOND_WRITE)];
    RefusedGoesOn(cfg, at, calls, 0, 1, inputs(0), 0);
    assert CallsTurn(cfg, at, calls, 1, inputs, 0) == Handled(at, Continue, 0, 0, false);
    assert TurnedDownAt(cfg, at, calls, 1, inputs, 0);
  }

  /** A malformed answer, then a call in the reserved round of two steps. */
  function EndsOpen(): seq<StepInput> {
    [Asking([]).(reply := Malformed), Asking([FIRST_WRITE])]
  }

  lemma MalformedIsRepaired(cfg: Config, r: Run, input: StepInput, step: nat, summaryRound: bool)
    requires !input.cancelled && input.projection.Projected? && input.reply.Malformed? && !r.repaired
    ensures var t := StepTurn(cfg, r, input, step, summaryRound);
            && t.flow == Continue && t.run.journal == r.journal + [Plain(User, cfg.repairPrompt)]
            && t.run.maxSteps == r.maxSteps
  {
  }

  lemma CallEndsSummary(cfg: Config, r: Run, step: nat)
    ensures var t := StepTurn(cfg, r, Asking([FIRST_WRITE]), step, true);
            t.flow == Ended(SummaryRound) && t.run.journal == r.journal + [Message(Assistant, "", [FIRST_WRITE], None)]
  {
  }

  lemma OpenIsIllegal(older: seq<Message>)
    requires NoTools(older)
    ensures !Legal(older + [Message(Assistant, "", [FIRST_WRITE], None)])
  {
    hide AllCallIds, AllResultIds;
    var m := Message(Assistant, "", [FIRST_WRITE], None);
    NoToolIds(older);
    IdsSnoc(older, m);
    assert CallIds(m)[0] == "1" && ResultIds(m) == [];
    assert AllCallIds(older + [m]) == CallIds(m);
    assert "1" in AllCallIds(older + [m]) && "1" !in AllResultIds(older + [m]);
  }

  /** The run of a new agent that ends in its reserved round on a call: the journal
      it leaves asks for a call that has no result. */
  lemma {:induction false} SummaryLeavesOpen(cfg: Config, r: Run, task: string)
    requires cfg.reserveSummaryRound && New(r) && r.opening.None? && r.maxSteps == Some(2) && ValidTask(task)
    ensures var result := FirstRun(cfg, r, task, EndsOpen());
            && result.outcome == Closed(SummaryRound)
            && result.run.journal
               == [Plain(System, cfg.systemMessage), Plain(User, task), Plain(User, cfg.repairPrompt),
                   Message(Assistant, "", [FIRST_WRITE], None)]
            && !Legal(result.run.journal)
  {
    hide StepTurn, ValidTask, Legal;
    var begun := Begun(cfg, r.(repaired := false), task, true);
    var script := EndsOpen();
    MalformedIsRepaired(cfg, begun, script[0], 1, false);
    var first := StepTurn(cfg, begun, script[0], 1, false);
    CallEndsSummary(cfg, first.run, 2);
    var before := [Plain(System, cfg.systemMessage), Plain(User, task), Plain(User, cfg.repairPrompt)];
    assert first.run.journal == before;
    OpenIsIllegal(before);
    var second := StepTurn(cfg, first.run, script[1], 2, true);
    assert RunFrom(cfg, first.run, script, 1) == Result(second.run, Closed(SummaryRound), 2, second.answered);
  }
}
