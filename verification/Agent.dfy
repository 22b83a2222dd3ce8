/** The agent of src/leanharness/runtime/loop.py: an object whose methods drive one
    run, each tied to the phase of RunMachine it carries out. Model replies, tool
    results, decisions and cancellations are inputs. */
module Agent {
  import opened Text
  import opened Messages
  import opened RunStates
  import opened RunJournal
  import Projection
  import Completion
  import opened Recovery
  import opened RunEvents
  import opened RunMachine
  import opened RunSafety
  import opened RunOutcomes
  import opened RunBreaks

  class CodingAgent {
    const config: Config
    const tracker: ToolFailureTracker
    const recovery: ModelProtocolRecovery
    var evidence: Completion.CompletionLedger
    var maxSteps: Option<nat>
    var state: RunState
    var sequence: nat
    var context: seq<Message>
    var historySources: seq<Projection.ContextSource>
    var initialUserMessage: Option<Message>
    var disabledTools: set<string>
    var delegated: nat
    var modelCalls: nat
    var toolCalls: nat
    /** The events of the current run. */
    var events: seq<Event>
    ghost var path: seq<RunState>
    ghost var firstSequence: nat
    ghost var starts: seq<Start>
    ghost var dealt: seq<Deal>
    ghost var known: nat

    ghost function Repr(): set<object>
      reads this
    {
      {this, evidence, tracker, recovery}
    }

    /** The ledger and the tracker agree with what they recorded. */
    ghost predicate Rep()
      reads Repr()
    {
      && evidence.Valid() && tracker.Valid()
      && tracker.stableArguments == config.stableArguments && tracker.textArguments == config.textArguments
    }

    /** The run so far. */
    ghost function Snap(): Run
      reads Repr()
    {
      RunMachine.Run.Run(
        state, path, maxSteps, initialUserMessage, historySources, context, evidence.trace, tracker.recorded,
        tracker.failures, disabledTools, delegated, recovery.used, modelCalls, toolCalls, firstSequence, sequence,
        events, starts, dealt, known)
    }

    /** What holds between runs. */
    ghost predicate Valid()
      reads Repr()
    {
      Rep() && Ready(config, Snap())
    }

    /** A new agent within the step limits an application may choose. */
    constructor (
      config: Config, maxSteps: Option<nat>, initialSequence: nat, history: seq<Projection.ContextSource>,
      initialUserMessage: Option<Message>)
      requires AllowedLimit(maxSteps) && (initialUserMessage.Some? ==> initialUserMessage.value.role.User?)
      ensures Valid() && fresh(Repr()) && this.config == config
      ensures Kept(context) && New(Snap()) && events == [] && sequence == initialSequence && modelCalls == 0
      ensures this.maxSteps == maxSteps && this.initialUserMessage == initialUserMessage && historySources == history
    {
      this.config := config;
      tracker := new ToolFailureTracker(config.stableArguments, config.textArguments);
      recovery := new ModelProtocolRecovery();
      evidence := new Completion.CompletionLedger();
      this.maxSteps, state, sequence := maxSteps, Created, initialSequence;
      context, historySources, this.initialUserMessage := [], history, initialUserMessage;
      disabledTools, delegated, modelCalls, toolCalls := {}, 0, 0, 0;
      events, path, firstSequence, starts, dealt, known := [], [], initialSequence, [], [], 0;
      new;
      hide Ready, Kept, Completion.Replay, RunLength;
      FreshReady(config, Snap());
    }

    /** The construction fails on a step limit out of range or an initial message
        that is not the user's. */
    static method Create(
      config: Config, maxSteps: Option<nat>, initialSequence: nat, history: seq<Projection.ContextSource>,
      initialUserMessage: Option<Message>)
      returns (agent: Option<CodingAgent>)
      ensures agent.Some?
              <==> AllowedLimit(maxSteps)
                   && (initialUserMessage.Some? ==> initialUserMessage.value.role.User?)
      ensures agent.Some? ==> agent.value.Valid() && fresh(agent.value.Repr()) && agent.value.maxSteps == maxSteps
    {
      if maxSteps.Some? && !(MIN_MAX_STEPS <= maxSteps.value <= MAX_MAX_STEPS) {
        return None;
      }
      if initialUserMessage.Some? && initialUserMessage.value.role != User {
        return None;
      }
      var created := new CodingAgent(config, maxSteps, initialSequence, history, initialUserMessage);
      agent := Some(created);
    }

    // ---- the single steps every phase is made of ----

    /** Only allowed transitions are taken, and each one is remembered. */
    method MoveTo(target: RunState)
      requires Rep() && CanMove(state, target)
      modifies Repr()
      ensures Rep() && evidence == old(evidence) && Snap() == Moved(old(Snap()), target)
    {
      hide Completion.CompletionLedger.Valid, ToolFailureTracker.Valid;
      state := target;
      path := path + [target];
    }

    method AppendMessage(m: Message)
      requires Rep()
      modifies Repr()
      ensures Rep() && evidence == old(evidence) && Snap() == Said(old(Snap()), m)
    {
      hide Completion.CompletionLedger.Valid, ToolFailureTracker.Valid;
      context := context + [m];
    }

    /** Every event takes the next number. */
    method Emit(kind: EventKind, step: nat)
      requires Rep()
      modifies Repr()
      ensures Rep() && evidence == old(evidence) && Snap() == Emitted(old(Snap()), kind, step)
    {
      hide Completion.CompletionLedger.Valid, ToolFailureTracker.Valid;
      events := events + [Event(kind, sequence, step)];
      sequence := sequence + 1;
    }

    /** A tool starts. */
    method EmitStart(call: ToolCall, index: nat, step: nat)
      requires Rep() && CanMove(state, ExecutingTool)
      modifies Repr()
      ensures Rep() && evidence == old(evidence) && Snap() == StartedTool(old(Snap()), call, index, step)
    {
      hide Completion.CompletionLedger.Valid, ToolFailureTracker.Valid;
      ghost var start := Start(call, step, index, |events|, |tracker.recorded|);
      MoveTo(ExecutingTool);
      Emit(ToolStarted(call.id), step);
      starts := starts + [start];
    }

    method EmitEnd(ending: Ending, step: nat)
      requires Rep()
      modifies Repr()
      ensures Rep() && evidence == old(evidence) && Snap() == Emitted(old(Snap()), TerminalKind(ending), step)
    {
      hide Emitted, Rep, Snap;
      Emit(TerminalKind(ending), step);
    }

    /** The terminal state, then the terminal event. */
    method Finish(ending: Ending, step: nat)
      requires Rep() && CanMove(state, TerminalState(ending))
      modifies Repr()
      ensures Rep() && evidence == old(evidence) && Snap() == RunMachine.Finished(old(Snap()), ending, step)
    {
      hide Emitted, Moved, Rep, Snap;
      MoveTo(TerminalState(ending));
      EmitEnd(ending, step);
    }

    /** A step is over and the run goes on. */
    method BackToPreparing(step: nat)
      requires Rep() && CanMove(state, Preparing)
      modifies Repr()
      ensures Rep() && evidence == old(evidence) && Snap() == Resumed(old(Snap()), step)
    {
      hide Emitted, Moved, Rep, Snap;
      MoveTo(Preparing);
      Emit(StepCompleted, step);
    }

    method CloseStep(step: nat)
      requires Rep()
      modifies Repr()
      ensures Rep() && evidence == old(evidence) && Snap() == StepClosed(old(Snap()), step)
    {
      hide Emitted, Rep, Snap;
      Emit(Progress, step);
      Emit(StepCompleted, step);
    }

    /** The result of a call enters the journal and is announced. */
    method Deliver(call: ToolCall, result: ToolResult, step: nat)
      requires Rep()
      modifies Repr()
      ensures Rep() && evidence == old(evidence) && Snap() == Delivered(old(Snap()), call, result, step)
    {
      hide Emitted, Said, Rep, Snap;
      AppendMessage(ToolMessage(result.content, call.id));
      Emit(ToolCompleted(call.id), step);
    }

    method RecordEvidence(call: ToolCall, index: nat, step: nat, result: ToolResult, cancelled: bool)
      requires Rep()
      modifies Repr()
      ensures Rep() && evidence == old(evidence)
      ensures Snap() == old(Snap()).(trace := old(Snap()).trace + [Completion.Entry(call.name, result)],
                                     dealt := old(Snap()).dealt + [Deal(call, step, index, result, cancelled)])
    {
      hide Completion.Replay, Completion.Recorded, RunLength;
      evidence.Record(call.name, result);
      dealt := dealt + [Deal(call, step, index, result, cancelled)];
    }

    method RecordFailure(call: ToolCall, result: ToolResult) returns (decision: FailureDecision)
      requires Rep()
      modifies Repr()
      ensures Rep() && evidence == old(evidence)
      ensures Snap() == old(Snap()).(failures := WithFailure(old(Snap()).failures, FailureFrom(config, call, result)))
      ensures decision == Judged(Snap().failures, FailureFrom(config, call, result))
    {
      hide Completion.CompletionLedger.Valid, ToolFailureTracker.Valid, Judged, WithFailure, FailureIn;
      decision := tracker.RecordResult(call, result);
    }

    /** Every operation the runtime considers is counted. */
    method RecordCall(call: ToolCall) returns (decision: Repetition)
      requires Rep()
      modifies Repr()
      ensures Rep() && evidence == old(evidence)
      ensures Snap() == old(Snap()).(recorded := old(Snap()).recorded + [KeyOf(config, call)])
      ensures decision == Repeats(Snap().recorded)
    {
      hide Completion.CompletionLedger.Valid, ToolFailureTracker.Valid, Repeats;
      decision := tracker.RecordCall(call);
    }

    method DisableTool(name: string)
      requires Rep()
      modifies Repr()
      ensures Rep() && evidence == old(evidence)
      ensures Snap() == old(Snap()).(disabled := old(Snap()).disabled + {name})
    {
      hide Completion.CompletionLedger.Valid, ToolFailureTracker.Valid;
      disabledTools := disabledTools + {name};
    }

    method AddDelegated(n: nat)
      requires Rep()
      modifies Repr()
      ensures Rep() && evidence == old(evidence)
      ensures Snap() == old(Snap()).(delegated := old(Snap()).delegated + n)
    {
      hide Completion.CompletionLedger.Valid, ToolFailureTracker.Valid;
      delegated := delegated + n;
    }

    method CountToolCall()
      requires Rep()
      modifies Repr()
      ensures Rep() && evidence == old(evidence)
      ensures Snap() == old(Snap()).(toolCalls := old(Snap()).toolCalls + 1)
    {
      hide Completion.CompletionLedger.Valid, ToolFailureTracker.Valid;
      toolCalls := toolCalls + 1;
    }

    method CountModelCall()
      requires Rep()
      modifies Repr()
      ensures Rep() && evidence == old(evidence) && Snap() == AskedModel(old(Snap()))
    {
      hide Completion.CompletionLedger.Valid, ToolFailureTracker.Valid;
      modelCalls := modelCalls + 1;
    }

    method RequestRepair() returns (granted: bool)
      requires Rep()
      modifies Repr()
      ensures Rep() && evidence == old(evidence)
      ensures Snap() == old(Snap()).(repaired := true) && granted == !old(Snap()).repaired
    {
      hide Completion.CompletionLedger.Valid, ToolFailureTracker.Valid;
      granted := recovery.Request();
    }

    method Judge() returns (accepted: bool)
      requires Rep()
      ensures Rep() && accepted == Completion.Accepts(Snap().trace)
    {
      hide Completion.Justified, Completion.Replay, RunLength;
      var decision := evidence.ValidateCompleted();
      accepted := decision.Accepted?;
    }

    // ---- one call ----

    /** The same announcement for each of `n` subtasks. */
    method EmitEach(kind: EventKind, n: nat, step: nat)
      requires Rep()
      modifies Repr()
      ensures Rep() && evidence == old(evidence) && Snap() == EmittedEach(old(Snap()), kind, n, step)
    {
      hide Emitted, Rep, Snap;
      for k := 0 to n
        invariant Rep() && evidence == old(evidence) && Snap() == EmittedEach(old(Snap()), kind, k, step)
      {
        Emit(kind, step);
      }
    }

    /** One started tool: its result, or the cancellation of the wait for it. */
    method Execute(call: ToolCall, index: nat, step: nat, execution: Execution) returns (d: Dispatched)
      requires Rep() && CanMove(state, ExecutingTool)
      modifies Repr()
      ensures Rep() && evidence == old(evidence)
      ensures Produced(Snap(), d) == RanAs(old(Snap()), call, index, step, execution)
    {
      hide StartedTool, Rep, Snap;
      EmitStart(call, index, step);
      d := if execution.Executed? then Outcome(execution.result) else CancelledHere;
    }

    /** A batch of delegated analyses counts as one tool; a run delegates at most five. */
    method Delegate(call: ToolCall, index: nat, step: nat, request: Delegation, execution: Execution)
        returns (d: Dispatched)
      requires Rep() && CanMove(state, ExecutingTool)
      modifies Repr()
      ensures Rep() && evidence == old(evidence)
      ensures Produced(Snap(), d) == DelegatedAs(config, old(Snap()), call, index, step, request, execution)
    {
      hide StartedTool, BatchRun, ErrorResult, Rep;
      DelegatedKept(Snap(), call, index, step);
      EmitStart(call, index, step);
      if request.Unprepared? {
        return Outcome(ErrorResult(config, call, request.code));
      }
      if request.subtasks > MAX_SUBTASKS - delegated {
        return Outcome(ErrorResult(config, call, "SUBTASK_LIMIT"));
      }
      RunBatch(request.subtasks, step, execution);
      d := if execution.Executed? then Outcome(execution.result) else CancelledHere;
    }

    /** The subtasks of one batch, announced together before and after they run. */
    method RunBatch(n: nat, step: nat, execution: Execution)
      requires Rep()
      modifies Repr()
      ensures Rep() && evidence == old(evidence) && Snap() == BatchRun(old(Snap()), n, step, execution)
    {
      hide EmittedEach, Rep, Snap;
      AddDelegated(n);
      EmitEach(SubtaskRequested, n, step);
      EmitEach(SubtaskStarted, n, step);
      if execution.ExecutionCancelled? {
        EmitEach(SubtaskCancelled, n, step);
      } else {
        EmitEach(SubtaskCompleted, n, step);
      }
    }

    /** A privileged call waits for its own decision; only an approval starts it.
        Asking while a decision still stands is refused by the state machine. */
    method AskApproval(call: ToolCall, index: nat, step: nat, input: CallInput) returns (d: Dispatched)
      requires Rep()
      modifies Repr()
      ensures Rep() && evidence == old(evidence)
      ensures Produced(Snap(), d) == ApprovedAs(config, old(Snap()), call, index, step, input)
    {
      hide DecidedAs, ErrorResult, Emitted, Rep;
      if !config.approvals {
        return Outcome(ErrorResult(config, call, "APPROVAL_UNAVAILABLE"));
      }
      if input.preview.Some? {
        return Outcome(input.preview.value);
      }
      if !CanMove(state, WaitingApproval) {
        return Refused;
      }
      MoveTo(WaitingApproval);
      EmittedKeeps(Snap(), ApprovalRequired(call.id), step);
      Emit(ApprovalRequired(call.id), step);
      d := Decide(call, index, step, input);
    }

    /** The wait for the decision on one call. */
    method Decide(call: ToolCall, index: nat, step: nat, input: CallInput) returns (d: Dispatched)
      requires Rep() && state == WaitingApproval
      modifies Repr()
      ensures Rep() && evidence == old(evidence)
      ensures Produced(Snap(), d) == DecidedAs(config, old(Snap()), call, index, step, input)
    {
      hide RanAs, ErrorResult, Emitted, Rep;
      EmittedKeeps(Snap(), ApprovalResolved(call.id, input.wait.Approve?), step);
      match input.wait
      case WaitCancelled =>
        return CancelledHere;
      case Expire =>
        Emit(ApprovalResolved(call.id, false), step);
        return Outcome(ErrorResult(config, call, "APPROVAL_TIMEOUT"));
      case Refuse =>
        Emit(ApprovalResolved(call.id, false), step);
        return Outcome(ErrorResult(config, call, "APPROVAL_REJECTED"));
      case Approve =>
        Emit(ApprovalResolved(call.id, true), step);
        d := Execute(call, index, step, input.execution);
    }

    method Dispatch(call: ToolCall, index: nat, step: nat, input: CallInput) returns (d: Dispatched)
      requires Rep() && CallState(state)
      modifies Repr()
      ensures Rep() && evidence == old(evidence)
      ensures Produced(Snap(), d) == DispatchedAs(config, old(Snap()), call, index, step, input)
    {
      hide RanAs, DelegatedAs, ApprovedAs, ErrorResult, Rep, Snap;
      if call.name == OUTCOME_TOOL {
        d := Outcome(ErrorResult(config, call, "OUTCOME_MUST_BE_ALONE"));
      } else if input.delegation.Some? {
        d := Delegate(call, index, step, input.delegation.value, input.execution);
      } else if input.needsApproval {
        d := AskApproval(call, index, step, input);
      } else {
        d := Execute(call, index, step, input.execution);
      }
    }

    /** What the runtime makes of a call before any tool sees it. */
    method Produce(call: ToolCall, index: nat, step: nat, input: CallInput) returns (d: Dispatched)
      requires Rep() && CallState(state)
      modifies Repr()
      ensures Rep() && evidence == old(evidence)
      ensures Produced(Snap(), d) == ProducedAs(config, old(Snap()), call, index, step, input)
    {
      hide DispatchedAs, ErrorResult, Repeats, KeyOf, Rep;
      if index >= MAX_TOOL_CALLS_PER_STEP {
        d := Outcome(ErrorResult(config, call, "TOOL_CALL_LIMIT"));
        return;
      }
      var repetition := RecordCall(call);
      if repetition == Stall {
        d := Stalls;
      } else if repetition == Reject {
        d := Outcome(ErrorResult(config, call, "TOOL_REPEATED"));
      } else if call.name in disabledTools {
        d := Outcome(ErrorResult(config, call, "TOOL_UNAVAILABLE"));
      } else {
        d := Dispatch(call, index, step, input);
      }
    }

    /** Announces a call and, unless the run was cancelled meanwhile, dispatches it. */
    method StartCall(call: ToolCall, index: nat, step: nat, input: CallInput) returns (d: Dispatched)
      requires Rep() && CallState(state)
      modifies Repr()
      ensures Rep() && evidence == old(evidence)
      ensures Produced(Snap(), d) == CalledAs(config, old(Snap()), call, index, step, input)
    {
      hide ProducedAs, Emitted, Rep;
      CountToolCall();
      EmittedKeeps(Snap(), ToolRequested(call.id), step);
      Emit(ToolRequested(call.id), step);
      d := CancelledHere;
      if !input.cancelled {
        d := Produce(call, index, step, input);
      }
    }

    /** The result goes to the ledger, the tracker and the journal; the third failure
        of a stalling kind ends the run. */
    method FinishCall(call: ToolCall, index: nat, step: nat, produced: ToolResult, bytes: nat)
      returns (flow: Flow, bytes': nat, guided: bool)
      requires Rep() && CallState(state)
      modifies Repr()
      ensures Rep() && evidence == old(evidence)
      ensures Handled(Snap(), flow, 1, bytes', guided)
              == FinishedCall(config, old(Snap()), call, index, step, produced, bytes)
    {
      hide Settled, ErrorResult, RunMachine.Finished, Judged, FailureFrom, Rep;
      var result := produced;
      if bytes + config.utf8Size(produced.content) > MAX_STEP_RESULT_BYTES {
        result := ErrorResult(config, call, "TOOL_RESULT_BUDGET");
      }
      bytes' := bytes + config.utf8Size(result.content);
      SettledKeeps(config, Snap(), call, index, step, result);
      var failure := Settle(call, index, step, result);
      guided := failure.guidance;
      flow := Continue;
      if failure.stall {
        Finish(StalledFailure, step);
        flow := Ended(StalledFailure);
      }
    }

    method Settle(call: ToolCall, index: nat, step: nat, result: ToolResult) returns (failure: FailureDecision)
      requires Rep()
      modifies Repr()
      ensures Rep() && evidence == old(evidence)
      ensures Snap() == Settled(config, old(Snap()), call, index, step, result)
      ensures failure == Judged(Snap().failures, FailureFrom(config, call, result))
    {
      hide Delivered, Judged, FailureFrom, WithFailure, Rep, Snap;
      NothingDisabled(Snap().disabled);
      RecordEvidence(call, index, step, result, false);
      failure := RecordFailure(call, result);
      if call.name == GIT_TOOL && result.error == Some("GIT_NOT_REPOSITORY") {
        DisableTool(call.name);
      }
      DeliveredKeeps(Snap(), call, result, step);
      Deliver(call, result, step);
    }

    method CancelOne(calls: seq<ToolCall>, index: nat, announced: bool, step: nat)
      requires Rep() && index < |calls|
      modifies Repr()
      ensures Rep() && evidence == old(evidence)
      ensures Snap() == CancelledOne(config, old(Snap()), calls, index, announced, step)
    {
      hide Delivered, Emitted, ErrorResult, Rep, Snap;
      var call := calls[index];
      EmittedKeeps(Snap(), ToolRequested(call.id), step);
      if !announced {
        Emit(ToolRequested(call.id), step);
      }
      var result := ErrorResult(config, call, "TOOL_CANCELLED");
      RecordEvidence(call, index, step, result, true);
      Deliver(call, result, step);
    }

    /** Closes every outstanding call from `start` on with a cancellation result. */
    method CancelPendingToolCalls(calls: seq<ToolCall>, start: nat, step: nat)
      requires Rep() && start < |calls|
      modifies Repr()
      ensures Rep() && evidence == old(evidence)
      ensures Snap() == CancelledTo(config, old(Snap()), calls, start, |calls|, step)
    {
      hide CancelledOne, Rep, Snap;
      for k := start to |calls|
        invariant Rep() && evidence == old(evidence)
        invariant Snap() == CancelledTo(config, old(Snap()), calls, start, k, step)
      {
        CancelOne(calls, k, k == start, step);
      }
    }

    /** Ends a run that was cancelled while calls were open. */
    method StopAtCall(calls: seq<ToolCall>, start: nat, step: nat)
      requires Rep() && CanMove(state, Cancelled) && start < |calls|
      modifies Repr()
      ensures Rep() && evidence == old(evidence) && Snap() == StoppedAt(config, old(Snap()), calls, start, step)
    {
      hide CancelledTo, Moved, Emitted, Rep, Snap;
      MoveTo(Cancelled);
      CancelPendingToolCalls(calls, start, step);
      EmitEnd(Stopped, step);
    }

    /** From the dispatch of a call to its result in the journal. */
    method Conclude(calls: seq<ToolCall>, index: nat, step: nat, d: Dispatched, bytes: nat)
      returns (flow: Flow, bytes': nat, guided: bool)
      requires Rep() && CallState(state) && index < |calls|
      modifies Repr()
      ensures Rep() && evidence == old(evidence)
      ensures var h := Concluded(config, Produced(old(Snap()), d), calls, index, step, bytes);
              Snap() == h.run && flow == h.flow && bytes' == h.bytes && guided == h.guided
    {
      hide FinishedCall, StoppedAt, RunMachine.Finished, Rep, Snap;
      guided, bytes' := false, bytes;
      match d
      case Stalls =>
        Finish(StalledCall, step);
        flow := Ended(StalledCall);
      case Refused =>
        flow := Crashed;
      case CancelledHere =>
        StopAtCall(calls, index, step);
        flow := Ended(Stopped);
      case Outcome(result) =>
        flow, bytes', guided := FinishCall(calls[index], index, step, result, bytes);
    }

    /** One call of a response, from its announcement to its result; a
        cancellation also answers every call behind it. */
    method HandleCall(calls: seq<ToolCall>, index: nat, step: nat, input: CallInput, bytes: nat)
      returns (flow: Flow, bytes': nat, guided: bool)
      requires Rep() && CallState(state) && index < |calls|
      modifies Repr()
      ensures Rep() && evidence == old(evidence)
      ensures var h := CallTurn(config, old(Snap()), calls, index, step, input, bytes);
              Snap() == h.run && flow == h.flow && bytes' == h.bytes && guided == h.guided
    {
      hide CalledAs, Concluded, Rep;
      CalledCallState(config, Snap(), calls[index], index, step, input);
      var d := StartCall(calls[index], index, step, input);
      flow, bytes', guided := Conclude(calls, index, step, d, bytes);
    }

    /** The calls of one response, in order, until the run ends. */
    method EachCall(calls: seq<ToolCall>, step: nat, inputs: nat -> CallInput) returns (flow: Flow, guided: bool)
      requires Rep() && CallState(state)
      modifies Repr()
      ensures Rep() && evidence == old(evidence)
      ensures var h := CallsTurn(config, old(Snap()), calls, step, inputs, |calls|);
              Snap() == h.run && flow == h.flow && guided == h.guided
    {
      hide CallTurn, CallState, Rep;
      var bytes := 0;
      flow, guided := Continue, false;
      for index := 0 to |calls|
        invariant Rep() && evidence == old(evidence) && CallState(state) && flow == Continue
        invariant var h := CallsTurn(config, old(Snap()), calls, step, inputs, index);
                  Snap() == h.run && h.flow == Continue && bytes == h.bytes && guided == h.guided
      {
        var earned: bool;
        flow, bytes, earned := HandleCall(calls, index, step, inputs(index), bytes);
        guided := guided || earned;
        AlwaysCallState(config, old(Snap()), calls, step, inputs, index + 1);
        if flow != Continue {
          StoppedStays(config, old(Snap()), calls, step, inputs, index + 1, |calls|);
          return;
        }
      }
    }

    /** All calls of one response, then the guidance they earned. */
    method HandleCalls(calls: seq<ToolCall>, step: nat, inputs: nat -> CallInput) returns (flow: Flow)
      requires Rep() && state == Interpreting
      modifies Repr()
      ensures Rep() && evidence == old(evidence)
      ensures var t := AllCallsTurn(config, old(Snap()), calls, step, inputs);
              Snap() == t.run && flow == t.flow
    {
      hide CallsTurn, Emitted, Resumed, Rep;
      var guided: bool;
      EmittedKeeps(Snap(), Progress, step);
      ghost var begun := Emitted(Snap(), Progress, step);
      Emit(Progress, step);
      AlwaysCallState(config, begun, calls, step, inputs, |calls|);
      flow, guided := EachCall(calls, step, inputs);
      if flow == Continue {
        if guided {
          AppendMessage(Plain(User, config.guidance));
        }
        BackToPreparing(step);
      }
    }

    // ---- the control calls and plain answers ----

    /** The single call that asks the user; its answer is not evidence. */
    method HandleUserInput(call: ToolCall, step: nat, answer: UserAnswer) returns (flow: Flow)
      requires Rep() && state == Interpreting
      modifies Repr()
      ensures Rep() && evidence == old(evidence)
      ensures var t := InputTurn(config, old(Snap()), call, answer, step);
              Snap() == t.run && flow == t.flow
    {
      hide Emitted, Delivered, Resumed, StoppedAt, ErrorResult, Rep;
      EmittedKeeps(Snap(), ToolRequested(call.id), step);
      Emit(ToolRequested(call.id), step);
      var result;
      if answer.BadRequest? {
        result := ErrorResult(config, call, answer.code);
      } else if !config.userInputs {
        result := ErrorResult(config, call, "INPUT_UNAVAILABLE");
      } else {
        MoveTo(WaitingInput);
        EmittedKeeps(Snap(), InputRequired(call.id), step);
        Emit(InputRequired(call.id), step);
        EmittedKeeps(Snap(), InputResolved(call.id), step);
        match answer
        case AnswerExpired =>
          result := ErrorResult(config, call, "INPUT_TIMEOUT");
        case AnswerCancelled =>
          StopAtCall([call], 0, step);
          return Ended(Stopped);
        case Answer(given) =>
          Emit(InputResolved(call.id), step);
          result := given;
      }
      DeliveredKeeps(Snap(), call, result, step);
      Deliver(call, result, step);
      BackToPreparing(step);
      flow := Continue;
    }

    /** The single call that reports the outcome; completion needs evidence. */
    method HandleOutcome(call: ToolCall, step: nat, report: OutcomeReport) returns (flow: Flow)
      requires Rep() && state == Interpreting
      modifies Repr()
      ensures Rep() && evidence == old(evidence)
      ensures var t := OutcomeTurn(config, old(Snap()), call, report, step);
              Snap() == t.run && flow == t.flow
    {
      hide Emitted, Delivered, TriedAgain, RunMachine.Finished, ErrorResult, ReportResult, Completion.Accepts, Rep;
      EmittedKeeps(Snap(), ToolRequested(call.id), step);
      Emit(ToolRequested(call.id), step);
      var result;
      match report {
      case BadOutcome(code) =>
        result := ErrorResult(config, call, code);
      case ReportsIncomplete(text) =>
        DeliveredKeeps(Snap(), call, ReportResult(text), step);
        Deliver(call, ReportResult(text), step);
        Finish(Reported, step);
        return Ended(Reported);
      case ReportsCompleted(text) =>
        var accepted := Judge();
        if accepted {
          MoveTo(RunState.Completed);
          Deliver(call, ReportResult(text), step);
          EmitEnd(Done, step);
          return Ended(Done);
        }
        result := ErrorResult(config, call, "OUTCOME_CONTRADICTS_EVIDENCE");
      }
      TryAgain(call, result, step);
      flow := Continue;
    }

    /** A report that is not accepted is answered with an error. */
    method TryAgain(call: ToolCall, result: ToolResult, step: nat)
      requires Rep() && state == Interpreting
      modifies Repr()
      ensures Rep() && evidence == old(evidence) && Snap() == TriedAgain(old(Snap()), call, result, step)
    {
      hide Delivered, StepClosed, Moved, Rep;
      DeliveredKeeps(Snap(), call, result, step);
      Deliver(call, result, step);
      StepClosedKeeps(Snap(), step);
      CloseStep(step);
      MoveTo(Preparing);
    }

    /** A response without calls: an answer completes the run if the evidence
        carries it, otherwise the model is told to go on. */
    method HandleText(content: string, step: nat) returns (flow: Flow)
      requires Rep() && state == Interpreting
      modifies Repr()
      ensures Rep() && evidence == old(evidence)
      ensures var t := TextTurn(config, old(Snap()), content, step);
              Snap() == t.run && flow == t.flow
    {
      hide StepClosed, RunMachine.Finished, Completion.Accepts, NonBlank, Rep;
      if NonBlank(content) {
        var accepted := Judge();
        if accepted {
          Finish(Done, step);
          return Ended(Done);
        }
      }
      AppendMessage(Plain(User, config.nudge));
      MoveTo(Preparing);
      CloseStep(step);
      flow := Continue;
    }

    // ---- the model ----

    /** Projects the context and asks the model, at most twice. */
    method ModelStep(step: nat, input: StepInput) returns (answer: ModelAnswer)
      requires Rep() && state == Preparing
      modifies Repr()
      ensures Rep() && evidence == old(evidence)
      ensures Reached(Snap(), answer) == ModelTurn(config, old(Snap()), input, step)
    {
      hide Emitted, ReplyTurn, Rep;
      if input.projection.Unprojected? {
        return Gone(input.projection.failure);
      }
      AnnounceProjection(input.projection.compacted, step);
      MoveTo(RequestingModel);
      CountModelCall();
      answer := Interpret(step, input);
    }

    method AnnounceProjection(compacted: bool, step: nat)
      requires Rep()
      modifies Repr()
      ensures Rep() && evidence == old(evidence) && Snap() == Shown(old(Snap()), compacted, step)
      ensures state == old(state)
    {
      hide Emitted, Rep;
      EmittedKeeps(Snap(), ContextProjected, step);
      Emit(ContextProjected, step);
      if compacted {
        EmittedKeeps(Snap(), ContextCompacted, step);
        Emit(ContextCompacted, step);
      }
    }

    /** The first reply to a request. */
    method Interpret(step: nat, input: StepInput) returns (answer: ModelAnswer)
      requires Rep() && state == RequestingModel && input.projection.Projected?
      modifies Repr()
      ensures Rep() && evidence == old(evidence)
      ensures Reached(Snap(), answer) == ReplyTurn(config, old(Snap()), input, input.projection.digest, step)
    {
      hide Moved, RepairTurn, RetryTurn, Rep, Snap;
      match input.reply
      case Responded(content, calls, usage) =>
        MoveTo(Interpreting);
        answer := Accepted(content, calls, usage);
      case Broken(failure) =>
        answer := Gone(failure);
      case Malformed =>
        answer := Repair(step);
      case ContextTooLong =>
        answer := Retry(step, input);
    }

    /** The first malformed response of a run is answered with a repair prompt. */
    method Repair(step: nat) returns (answer: ModelAnswer)
      requires Rep() && state == RequestingModel
      modifies Repr()
      ensures Rep() && evidence == old(evidence)
      ensures Reached(Snap(), answer) == RepairTurn(config, old(Snap()), step)
    {
      hide StepClosed, Rep;
      var granted := RequestRepair();
      if !granted {
        assert Snap() == old(Snap());
        return Gone(ModelProtocol);
      }
      AppendMessage(Plain(User, config.repairPrompt));
      MoveTo(Preparing);
      CloseStep(step);
      answer := Repaired;
    }

    /** A request over the window is retried once with a different projection. */
    method Retry(step: nat, input: StepInput) returns (answer: ModelAnswer)
      requires Rep() && state == RequestingModel && input.projection.Projected?
      modifies Repr()
      ensures Rep() && evidence == old(evidence)
      ensures Reached(Snap(), answer) == RetryTurn(old(Snap()), input, input.projection.digest, step)
    {
      hide Emitted, Rep;
      if input.recovery.Unprojected? {
        return Gone(input.recovery.failure);
      }
      if input.recovery.digest == input.projection.digest {
        return Gone(ContextBudget);
      }
      EmittedKeeps(Snap(), ContextCompacted, step);
      Emit(ContextCompacted, step);
      CountModelCall();
      match input.secondReply
      case Responded(content, calls, usage) =>
        MoveTo(Interpreting);
        answer := Accepted(content, calls, usage);
      case ContextTooLong =>
        answer := Gone(ContextBudget);
      case Malformed =>
        answer := Gone(ModelProtocol);
      case Broken(failure) =>
        answer := Gone(failure);
    }

    /** A step whose model request failed or was cancelled ends the run. */
    method EndWithoutAnswer(step: nat, failure: ModelFailure) returns (flow: Flow)
      requires Rep() && (state == Preparing || state == RequestingModel)
      modifies Repr()
      ensures Rep() && evidence == old(evidence)
      ensures var t := GoneTurn(old(Snap()), failure, step);
              Snap() == t.run && flow == t.flow
    {
      hide Emitted, Moved, Rep, Snap;
      if failure.CancelRequest? {
        Finish(Stopped, step);
        return Ended(Stopped);
      }
      MoveTo(Failed);
      if failure.ContextBudget? || failure.ContextProtocol? {
        Emit(CompactionFailed, step);
      }
      EmitEnd(ModelFailed, step);
      flow := Ended(ModelFailed);
    }

    // ---- one step ----

    /** Acts on an accepted response. */
    method Act(step: nat, summaryRound: bool, content: string, calls: seq<ToolCall>, input: StepInput)
        returns (flow: Flow)
      requires Rep() && state == Interpreting
      modifies Repr()
      ensures Rep() && evidence == old(evidence)
      ensures var t := ActTurn(config, old(Snap()), content, calls, input, step, summaryRound);
              Snap() == t.run && flow == t.flow
    {
      hide RunMachine.Finished, InputTurn, OutcomeTurn, AllCallsTurn, TextTurn, SummaryEnds, Rep, Snap;
      if SummaryEnds(config, summaryRound, calls) {
        Finish(SummaryRound, step);
        flow := Ended(SummaryRound);
      } else if AsksUser(calls) {
        flow := HandleUserInput(calls[0], step, input.answer);
      } else if ReportsOutcome(calls) {
        flow := HandleOutcome(calls[0], step, input.outcome);
      } else if calls != [] {
        flow := HandleCalls(calls, step, input.calls);
      } else {
        flow := HandleText(content, step);
      }
    }

    /** An accepted response enters the journal and is acted on. */
    method Respond(step: nat, summaryRound: bool, content: string, calls: seq<ToolCall>, usage: bool, input: StepInput)
      returns (flow: Flow)
      requires Rep() && state == Interpreting
      modifies Repr()
      ensures Rep() && evidence == old(evidence)
      ensures var t := ResponseTurn(config, old(Snap()), content, calls, usage, input, step, summaryRound);
              Snap() == t.run && flow == t.flow
    {
      hide Emitted, ActTurn, Rep;
      AppendMessage(Message(Assistant, content, calls, None));
      if usage {
        EmittedKeeps(Snap(), UsageReported, step);
        Emit(UsageReported, step);
      }
      flow := Act(step, summaryRound, content, calls, input);
    }

    /** Asks the model and acts on what it says. */
    method Converse(step: nat, summaryRound: bool, input: StepInput) returns (flow: Flow)
      requires Rep() && state == Preparing
      modifies Repr()
      ensures Rep() && evidence == old(evidence)
      ensures var t := AnsweredTurn(config, ModelTurn(config, old(Snap()), input, step), input, step, summaryRound);
              Snap() == t.run && flow == t.flow
    {
      hide ModelTurn, GoneTurn, ResponseTurn, Rep;
      ModelState(config, Snap(), input, step);
      var answer := ModelStep(step, input);
      match answer
      case Repaired =>
        flow := Continue;
      case Gone(failure) =>
        flow := EndWithoutAnswer(step, failure);
      case Accepted(content, asked, usage) =>
        flow := Respond(step, summaryRound, content, asked, usage, input);
    }

    /** One turn of the loop. */
    method RunStep(step: nat, summaryRound: bool, input: StepInput) returns (flow: Flow)
      requires Rep() && state == Preparing
      modifies Repr()
      ensures Rep() && evidence == old(evidence)
      ensures var t := StepTurn(config, old(Snap()), input, step, summaryRound);
              Snap() == t.run && flow == t.flow
    {
      hide RunMachine.Finished, ModelTurn, AnsweredTurn, Emitted, Rep;
      if input.cancelled {
        Finish(Stopped, step);
        return Ended(Stopped);
      }
      EmittedKeeps(Snap(), StepStarted, step);
      Emit(StepStarted, step);
      flow := Converse(step, summaryRound, input);
    }

    // ---- runs ----

    /** Starts a run: its first messages and its first event. */
    method Begin(task: string, initialize: bool)
      requires Rep() && CanMove(state, Preparing)
      modifies Repr()
      ensures Rep() && evidence == old(evidence) && Snap() == Begun(config, old(Snap()), task, initialize)
    {
      hide Emitted, Opening, Rep;
      Open(task, initialize);
      Enter();
      Emit(RunStarted, 0);
    }

    /** The first messages of a run. */
    method Open(task: string, initialize: bool)
      requires Rep()
      modifies Repr()
      ensures Rep() && evidence == old(evidence)
      ensures Snap() == old(Snap()).(
                          journal := old(Snap()).journal + Opening(config, old(Snap()).opening, task, initialize),
                          opening := None)
    {
      hide Completion.CompletionLedger.Valid, ToolFailureTracker.Valid;
      if initialize {
        context := context + [Plain(System, config.systemMessage)];
      }
      var shown := if initialize && initialUserMessage.Some? then initialUserMessage.value else Plain(User, task);
      context := context + [shown];
      assert context == old(context) + Opening(config, initialUserMessage, task, initialize);
      initialUserMessage := None;
    }

    /** The log of a run starts with its first state. */
    method Enter()
      requires Rep() && CanMove(state, Preparing)
      modifies Repr()
      ensures Rep() && evidence == old(evidence)
      ensures Snap() == old(Snap()).(state := Preparing, path := [old(Snap()).state, Preparing],
                                     first := old(Snap()).sequence, events := [], starts := [],
                                     known := |old(Snap()).dealt|)
    {
      hide Rep;
      EnterPreparing();
      OpenLog();
    }

    method EnterPreparing()
      requires Rep() && CanMove(state, Preparing)
      modifies Repr()
      ensures Rep() && evidence == old(evidence)
      ensures Snap() == old(Snap()).(state := Preparing, path := [old(Snap()).state, Preparing])
    {
      hide Completion.CompletionLedger.Valid, ToolFailureTracker.Valid;
      path := [state, Preparing];
      state := Preparing;
    }

    method OpenLog()
      requires Rep()
      modifies Repr()
      ensures Rep() && evidence == old(evidence)
      ensures Snap() == old(Snap()).(first := old(Snap()).sequence, events := [], starts := [],
                                     known := |old(Snap()).dealt|)
    {
      hide Completion.CompletionLedger.Valid, ToolFailureTracker.Valid;
      ghost var before := Snap();
      firstSequence, known := sequence, |dealt|;
      assert Snap() == before.(first := before.sequence, known := |before.dealt|);
      events, starts := [], [];
    }

    /** The loop of a run over what the world answers to each of its steps. */
    method RunTask(task: string, initialize: bool, script: seq<StepInput>) returns (outcome: RunOutcome, steps: nat)
      requires Valid()
      modifies Repr()
      ensures Valid() && evidence == old(evidence)
      ensures var result := TaskRun(config, old(Snap()), task, initialize, script);
              Snap() == result.run && outcome == result.outcome && steps == result.steps
      ensures outcome.Rejected? || Ran(config, script, Snap(), outcome)
    {
      hide ValidTask, Ready, Rep, Live, Begun, StepTurn, RunMachine.Finished, Ran, RunLeft, Opening;
      TaskRuns(config, Snap(), task, initialize, script);
      steps := 0;
      if !ValidTask(task) || !CanMove(state, Preparing) {
        return Rejected, steps;
      }
      BegunLive(config, Snap(), task, initialize, script);
      Begin(task, initialize);
      while maxSteps.None? || steps < maxSteps.value
        invariant Rep() && evidence == old(evidence) && steps <= |script|
        invariant Live(config, script, Snap()) && state == Preparing
        invariant RunFrom(config, Snap(), script, steps) == TaskRun(config, old(Snap()), task, initialize, script)
        decreases |script| - steps
      {
        if steps == |script| {
          outcome := Pending;
          return;
        }
        var summaryRound := config.reserveSummaryRound && maxSteps == Some(steps + 1);
        StepGood(config, script, Snap(), steps + 1, summaryRound);
        var flow := RunStep(steps + 1, summaryRound, script[steps]);
        steps := steps + 1;
        if flow != Continue {
          outcome := Stop(flow);
          return;
        }
      }
      Finish(OutOfSteps, maxSteps.value);
      outcome := Closed(OutOfSteps);
    }

    /** A first task: the journal opens with the system message. */
    method Run(task: string, script: seq<StepInput>) returns (outcome: RunOutcome, steps: nat)
      requires Valid()
      modifies Repr()
      ensures Valid() && evidence == old(evidence)
      ensures var result := FirstRun(config, old(Snap()), task, script);
              Snap() == result.run && outcome == result.outcome && steps == result.steps
      ensures outcome.Rejected? || Ran(config, script, Snap(), outcome)
    {
      hide TaskRun;
      ResetReady(config, Snap());
      ResetRecovery();
      outcome, steps := RunTask(task, true, script);
    }

    method ResetRecovery()
      requires Valid()
      modifies Repr()
      ensures Valid() && evidence == old(evidence) && Snap() == old(Snap()).(repaired := false)
    {
      hide Completion.CompletionLedger.Valid, ToolFailureTracker.Valid, Ready;
      ResetReady(config, Snap());
      recovery.Reset();
    }

    /** A further task on the same journal: only after the last one ended, with a
        new ledger and nothing remembered of earlier failures. */
    method ContinueTask(task: string, script: seq<StepInput>) returns (outcome: RunOutcome, steps: nat)
      requires Valid()
      modifies Repr()
      ensures Valid() && fresh(Repr() - old(Repr()))
      ensures var result := FurtherRun(config, old(Snap()), task, script);
              Snap() == result.run && outcome == result.outcome && steps == result.steps
      ensures outcome.Rejected? || Ran(config, script, Snap(), outcome)
    {
      hide TaskRun, Ready, Rep;
      if state !in TERMINAL_STATES {
        return Rejected, 0;
      }
      Renew();
      outcome, steps := RunTask(task, false, script);
    }

    /** Forgets what belongs to one task only. */
    method Renew()
      requires Valid()
      modifies Repr()
      ensures Valid() && fresh(evidence) && Snap() == Renewed(old(Snap()))
    {
      hide Ready, Rep;
      RenewedReady(config, Snap());
      ResetTracker();
      ResetEvidence();
    }

    method ResetTracker()
      requires Rep()
      modifies Repr()
      ensures Rep() && evidence == old(evidence)
      ensures Snap() == old(Snap()).(recorded := [], failures := [], repaired := false, state := Created,
                                     disabled := {}, delegated := 0)
    {
      hide Completion.CompletionLedger.Valid, ToolFailureTracker.Valid;
      ghost var before := Snap();
      state := Created;
      disabledTools, delegated := {}, 0;
      assert Snap() == before.(state := Created, disabled := {}, delegated := 0);
      tracker.Reset();
      recovery.Reset();
    }

    method ResetEvidence()
      requires Rep()
      modifies Repr()
      ensures Rep() && fresh(evidence) && Snap() == old(Snap()).(trace := [], dealt := [], known := 0)
    {
      hide Completion.CompletionLedger.Valid, ToolFailureTracker.Valid;
      ghost var before := Snap();
      dealt, known := [], 0;
      assert Snap() == before.(dealt := [], known := 0);
      evidence := new Completion.CompletionLedger();
    }

    /** Event numbers never move backwards. */
    method SetEventSequence(next: nat) returns (ok: bool)
      requires Valid()
      modifies this`sequence
      ensures Valid() && ok == (next >= old(sequence))
      ensures sequence == if ok then next else old(sequence)
    {
      hide RunLength;
      ok := next >= sequence;
      if ok {
        sequence := next;
      }
    }

    method SetMaxSteps(steps: Option<nat>)
      requires Valid()
      modifies this`maxSteps
      ensures Valid() && maxSteps == steps
    {
      hide RunLength;
      maxSteps := steps;
    }

    /** Between plan steps only the system messages and a summary remain, which is
        a legal journal whatever was dropped; the public history is dropped too. */
    method CheckpointContext(summary: string)
      requires Valid()
      modifies this`context, this`historySources
      ensures Valid() && Snap() == Checkpointed(old(Snap()), summary)
      ensures Sound(context)
    {
      hide Sound, RunLength;
      var kept := [];
      for k := 0 to |context|
        invariant context == old(context)
        invariant kept == Systems(context[..k])
      {
        assert context[..k + 1][..k] == context[..k];
        if context[k].role.System? {
          kept := kept + [context[k]];
        }
      }
      assert context[..|context|] == context;
      context := kept + [Plain(User, summary)];
      historySources := [];
      SystemsSound(old(context), summary);
    }
  }

  // ---- what the phases leave unchanged ----

  lemma FreshReady(cfg: Config, r: Run)
    requires New(r) && r.trace == [] && r.dealt == [] && r.known == 0 && r.delegated == 0
    requires r.opening.Some? ==> r.opening.value.role.User?
    ensures Ready(cfg, r) && Kept(r.journal)
  {
  }

  lemma NothingDisabled(disabled: set<string>)
    ensures disabled + {} == disabled
  {
  }

  lemma DelegatedKept(r: Run, call: ToolCall, index: nat, step: nat)
    ensures StartedTool(r, call, index, step).delegated == r.delegated
  {
  }

  lemma SettledKeeps(cfg: Config, r: Run, call: ToolCall, index: nat, step: nat, result: ToolResult)
    ensures Settled(cfg, r, call, index, step, result).state == r.state
  {
    hide WithFailure, FailureFrom, Disables;
  }

  lemma DeliveredKeeps(r: Run, call: ToolCall, result: ToolResult, step: nat)
    ensures var next := Delivered(r, call, result, step);
            next.state == r.state && next.failures == r.failures && next.trace == r.trace
  {
  }

  lemma StepClosedKeeps(r: Run, step: nat)
    ensures StepClosed(r, step).state == r.state
  {
  }

  lemma CalledCallState(cfg: Config, r: Run, call: ToolCall, index: nat, step: nat, input: CallInput)
    requires CallState(r.state)
    ensures CallState(CalledAs(cfg, r, call, index, step, input).run.state)
  {
    hide DispatchedAs, ErrorResult, RunLength, KeyOf, CallState;
    var counted := r.(toolCalls := r.toolCalls + 1);
    EmittedKeeps(counted, ToolRequested(call.id), step);
    var asked := Emitted(counted, ToolRequested(call.id), step);
    DispatchedCallState(cfg, asked.(recorded := asked.recorded + [KeyOf(cfg, call)]), call, index, step, input);
  }

  lemma DispatchedCallState(cfg: Config, r: Run, call: ToolCall, index: nat, step: nat, input: CallInput)
    requires CallState(r.state)
    ensures CallState(DispatchedAs(cfg, r, call, index, step, input).run.state)
  {
    hide StartedTool, BatchRun, ErrorResult;
    DispatchedState(cfg, r, call, index, step, input);
  }

  lemma ModelState(cfg: Config, r: Run, input: StepInput, step: nat)
    requires r.state == Preparing
    ensures var reached := ModelTurn(cfg, r, input, step);
            && (reached.answer.Accepted? ==> reached.run.state == Interpreting)
            && (reached.answer.Gone? ==> reached.run.state == Preparing || reached.run.state == RequestingModel)
  {
  }

  lemma ResetReady(cfg: Config, r: Run)
    requires Ready(cfg, r)
    ensures Ready(cfg, r.(repaired := false))
  {
    hide RunLength, BelowStall, FailuresOf;
  }
}
