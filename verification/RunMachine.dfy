/** One agent run as a function of what the world answers: the specification of
    the loop of src/leanharness/runtime/loop.py. Every function takes the run so
    far and gives the run after one phase of the loop. */
module RunMachine {
  import opened Text
  import opened Messages
  import Projection
  import opened RunStates
  import opened RunJournal
  import Completion
  import opened Recovery
  import opened RunEvents

  const OUTCOME_TOOL := "report_run_outcome"
  const INPUT_TOOL := "request_user_input"
  const GIT_TOOL := "git_inspect"
  const MIN_MAX_STEPS := 2
  const MAX_MAX_STEPS := 64
  const MAX_TASK_CHARS := 32_000
  const MAX_TOOL_CALLS_PER_STEP := 4
  const MAX_STEP_RESULT_BYTES := 96 * 1024
  const MAX_SUBTASKS := 5

  type ToolResult = Completion.ToolResult

  // ---- what an application sets up once for an agent ----

  datatype Config = Config(
    approvals: bool,
    userInputs: bool,
    reserveSummaryRound: bool,
    summaryOutcomeOnly: bool,
    systemMessage: string,
    repairPrompt: string,
    guidance: string,
    nudge: string,
    /** The text the model sees for a runtime error on a call. */
    errorText: (ToolCall, string) -> string,
    utf8Size: string -> nat,
    stableArguments: ToolCall -> string,
    textArguments: ToolCall -> map<string, string>)

  // ---- what a step of the world brings ----

  datatype ModelFailure = CancelRequest | ContextBudget | ContextProtocol | ModelProtocol | OtherFailure

  datatype ProjectionInput = Projected(compacted: bool, digest: string) | Unprojected(failure: ModelFailure)

  datatype Reply =
    | Responded(content: string, calls: seq<ToolCall>, usage: bool)
    | ContextTooLong
    | Malformed
    | Broken(failure: ModelFailure)

  datatype Execution = Executed(result: ToolResult) | ExecutionCancelled

  /** What the wait for a decision on a call ends with. */
  datatype Wait = Approve | Refuse | Expire | WaitCancelled

  type SubtaskCount = n: nat | 1 <= n <= MAX_SUBTASKS witness 1

  datatype Delegation = Unprepared(code: string) | Batch(subtasks: SubtaskCount)

  /** What the registry, the user and the tools do with one call. */
  datatype CallInput = CallInput(
    cancelled: bool,
    delegation: Option<Delegation>,
    needsApproval: bool,
    preview: Option<ToolResult>,
    wait: Wait,
    execution: Execution)

  datatype UserAnswer = BadRequest(code: string) | Answer(result: ToolResult) | AnswerExpired | AnswerCancelled

  datatype OutcomeReport = BadOutcome(code: string) | ReportsCompleted(text: string) | ReportsIncomplete(text: string)

  datatype StepInput = StepInput(
    cancelled: bool,
    projection: ProjectionInput,
    reply: Reply,
    recovery: ProjectionInput,
    secondReply: Reply,
    answer: UserAnswer,
    outcome: OutcomeReport,
    calls: nat -> CallInput)

  // ---- how a step or a run ends ----

  datatype Ending =
    | Done                // run.completed
    | Reported            // run.incomplete reported by the model
    | OutOfSteps          // run.incomplete after the last step
    | SummaryRound        // run.incomplete in the reserved text-only round
    | Stopped             // run.cancelled
    | ModelFailed         // run.failed before a response was accepted
    | StalledCall         // run.failed on a repeated call
    | StalledFailure      // run.failed on a repeated tool failure

  datatype Flow = Continue | Crashed | Ended(ending: Ending)

  datatype RunOutcome =
    | Rejected            // the task or the state is refused before anything happens
    | Pending             // the world has not answered the next step yet
    | Broke               // the state machine refused a transition
    | Closed(ending: Ending)

  function Stop(flow: Flow): RunOutcome {
    match flow
    case Continue => Pending
    case Crashed => Broke
    case Ended(ending) => Closed(ending)
  }

  function TerminalKind(ending: Ending): EventKind {
    match ending
    case Done => RunCompleted
    case Reported => RunIncomplete
    case OutOfSteps => RunIncomplete
    case SummaryRound => RunIncomplete
    case Stopped => RunCancelled
    case _ => RunFailed
  }

  function TerminalState(ending: Ending): RunState {
    match ending
    case Done => RunState.Completed
    case Reported => Exhausted
    case OutOfSteps => Exhausted
    case SummaryRound => Exhausted
    case Stopped => Cancelled
    case _ => Failed
  }

  // ---- a run so far ----

  /** The start of a tool: which call of which response, at which event, with how
      many operations recorded by then. */
  datatype Start = Start(call: ToolCall, step: nat, index: nat, position: nat, at: nat)

  /** The result a call was closed with; a cancellation closes it too. */
  datatype Deal = Deal(call: ToolCall, step: nat, index: nat, result: ToolResult, cancelled: bool)

  /** `path` are the states since before the run and `starts` the tools started in
      it; the events are those of this run, and so are the results behind the first
      `known` ones of `dealt`. */
  datatype Run = Run(
    state: RunState,
    path: seq<RunState>,
    maxSteps: Option<nat>,
    opening: Option<Message>,
    history: seq<Projection.ContextSource>,
    journal: seq<Message>,
    trace: seq<Completion.Entry>,
    recorded: seq<CallKey>,
    failures: seq<FailureKey>,
    disabled: set<string>,
    delegated: nat,
    repaired: bool,
    modelCalls: nat,
    toolCalls: nat,
    first: nat,
    sequence: nat,
    events: seq<Event>,
    starts: seq<Start>,
    dealt: seq<Deal>,
    known: nat)

  // ---- the single steps every phase is made of ----

  function Moved(r: Run, target: RunState): Run {
    r.(state := target, path := r.path + [target])
  }

  function Emitted(r: Run, kind: EventKind, step: nat): Run {
    r.(events := r.events + [Event(kind, r.sequence, step)], sequence := r.sequence + 1)
  }

  function Said(r: Run, m: Message): Run {
    r.(journal := r.journal + [m])
  }

  function Delivered(r: Run, call: ToolCall, result: ToolResult, step: nat): Run {
    Emitted(Said(r, ToolMessage(result.content, call.id)), ToolCompleted(call.id), step)
  }

  /** A run that ends from wherever it stands. */
  function Finished(r: Run, ending: Ending, step: nat): Run {
    Emitted(Moved(r, TerminalState(ending)), TerminalKind(ending), step)
  }

  function Resumed(r: Run, step: nat): Run {
    Emitted(Moved(r, Preparing), StepCompleted, step)
  }

  function StepClosed(r: Run, step: nat): Run {
    Emitted(Emitted(r, Progress, step), StepCompleted, step)
  }

  function ErrorResult(cfg: Config, call: ToolCall, code: string): ToolResult {
    Completion.ToolResult(false, Some(code), false, [], [], None, None, cfg.errorText(call, code))
  }

  function KeyOf(cfg: Config, call: ToolCall): CallKey {
    (call.name, cfg.stableArguments(call))
  }

  // ---- what one call comes to ----

  /** How the dispatch of one call went. */
  datatype Dispatched = Outcome(result: ToolResult) | CancelledHere | Refused | Stalls

  datatype Produced = Produced(run: Run, d: Dispatched)

  /** One started tool: its result, or the cancellation of the wait for it. */
  function RanAs(r: Run, call: ToolCall, index: nat, step: nat, execution: Execution): Produced {
    Produced(StartedTool(r, call, index, step), RanTo(execution))
  }

  function StartedTool(r: Run, call: ToolCall, index: nat, step: nat): Run {
    var start := Start(call, step, index, |r.events|, |r.recorded|);
    Emitted(Moved(r, ExecutingTool), ToolStarted(call.id), step).(starts := r.starts + [start])
  }

  function RanTo(execution: Execution): Dispatched {
    if execution.Executed? then Outcome(execution.result) else CancelledHere
  }

  function EmittedEach(r: Run, kind: EventKind, n: nat, step: nat): Run {
    if n == 0 then r else Emitted(EmittedEach(r, kind, n - 1, step), kind, step)
  }

  /** A batch of delegated analyses counts as one tool; a run delegates at most five. */
  function DelegatedAs(
    cfg: Config, r: Run, call: ToolCall, index: nat, step: nat, request: Delegation, execution: Execution): Produced
  {
    var started := StartedTool(r, call, index, step);
    match request
    case Unprepared(code) => Produced(started, Outcome(ErrorResult(cfg, call, code)))
    case Batch(n) =>
      if r.delegated + n > MAX_SUBTASKS then Produced(started, Outcome(ErrorResult(cfg, call, "SUBTASK_LIMIT")))
      else Produced(BatchRun(started, n, step, execution), RanTo(execution))
  }

  function BatchRun(r: Run, n: nat, step: nat, execution: Execution): Run {
    var counted := r.(delegated := r.delegated + n);
    var begun := EmittedEach(EmittedEach(counted, SubtaskRequested, n, step), SubtaskStarted, n, step);
    EmittedEach(begun, if execution.Executed? then SubtaskCompleted else SubtaskCancelled, n, step)
  }

  /** A privileged call waits for its own decision; only an approval starts it.
      Asking while a decision still stands is refused by the state machine, which
      has no edge from waiting to waiting. */
  function ApprovedAs(cfg: Config, r: Run, call: ToolCall, index: nat, step: nat, input: CallInput): Produced {
    if !cfg.approvals then Produced(r, Outcome(ErrorResult(cfg, call, "APPROVAL_UNAVAILABLE")))
    else if input.preview.Some? then Produced(r, Outcome(input.preview.value))
    else if !CanMove(r.state, WaitingApproval) then Produced(r, Refused)
    else DecidedAs(cfg, Emitted(Moved(r, WaitingApproval), ApprovalRequired(call.id), step), call, index, step, input)
  }

  function DecidedAs(cfg: Config, r: Run, call: ToolCall, index: nat, step: nat, input: CallInput): Produced {
    match input.wait
    case WaitCancelled => Produced(r, CancelledHere)
    case Expire =>
      Produced(Emitted(r, ApprovalResolved(call.id, false), step), Outcome(ErrorResult(cfg, call, "APPROVAL_TIMEOUT")))
    case Refuse =>
      Produced(Emitted(r, ApprovalResolved(call.id, false), step), Outcome(ErrorResult(cfg, call, "APPROVAL_REJECTED")))
    case Approve => RanAs(Emitted(r, ApprovalResolved(call.id, true), step), call, index, step, input.execution)
  }

  function DispatchedAs(cfg: Config, r: Run, call: ToolCall, index: nat, step: nat, input: CallInput): Produced {
    if call.name == OUTCOME_TOOL then Produced(r, Outcome(ErrorResult(cfg, call, "OUTCOME_MUST_BE_ALONE")))
    else if input.delegation.Some? then DelegatedAs(cfg, r, call, index, step, input.delegation.value, input.execution)
    else if input.needsApproval then ApprovedAs(cfg, r, call, index, step, input)
    else RanAs(r, call, index, step, input.execution)
  }

  /** What the runtime makes of a call before any tool sees it. */
  function ProducedAs(cfg: Config, r: Run, call: ToolCall, index: nat, step: nat, input: CallInput): Produced {
    if index >= MAX_TOOL_CALLS_PER_STEP then Produced(r, Outcome(ErrorResult(cfg, call, "TOOL_CALL_LIMIT")))
    else ConsideredAs(cfg, r.(recorded := r.recorded + [KeyOf(cfg, call)]), call, index, step, input)
  }

  function ConsideredAs(cfg: Config, r: Run, call: ToolCall, index: nat, step: nat, input: CallInput): Produced {
    match Repeats(r.recorded)
    case Stall => Produced(r, Stalls)
    case Reject => Produced(r, Outcome(ErrorResult(cfg, call, "TOOL_REPEATED")))
    case Proceed =>
      if call.name in r.disabled then Produced(r, Outcome(ErrorResult(cfg, call, "TOOL_UNAVAILABLE")))
      else DispatchedAs(cfg, r, call, index, step, input)
  }

  /** Announces a call and, unless the run was cancelled meanwhile, dispatches it. */
  function CalledAs(cfg: Config, r: Run, call: ToolCall, index: nat, step: nat, input: CallInput): Produced {
    var asked := Emitted(r.(toolCalls := r.toolCalls + 1), ToolRequested(call.id), step);
    if input.cancelled then Produced(asked, CancelledHere) else ProducedAs(cfg, asked, call, index, step, input)
  }

  // ---- results ----

  /** The result as it enters the journal: an error once the step's budget is spent. */
  function Bounded(cfg: Config, call: ToolCall, produced: ToolResult, bytes: nat): ToolResult {
    if bytes + cfg.utf8Size(produced.content) > MAX_STEP_RESULT_BYTES then ErrorResult(cfg, call, "TOOL_RESULT_BUDGET")
    else produced
  }

  /** What is left of the calls of one response: the run, how it goes on, how many
      calls were closed, the bytes of their results and whether they earned guidance. */
  datatype Handled = Handled(run: Run, flow: Flow, answered: nat, bytes: nat, guided: bool)

  function FailureFrom(cfg: Config, call: ToolCall, result: ToolResult): Option<FailureKey> {
    FailureIn(call, cfg.textArguments(call), result)
  }

  function Disables(call: ToolCall, result: ToolResult): set<string> {
    if call.name == GIT_TOOL && result.error == Some("GIT_NOT_REPOSITORY") then {call.name} else {}
  }

  /** The result goes to the ledger, the tracker and the journal. */
  function Settled(cfg: Config, r: Run, call: ToolCall, index: nat, step: nat, result: ToolResult): Run {
    Delivered(
      r.(trace := r.trace + [Completion.Entry(call.name, result)],
         failures := WithFailure(r.failures, FailureFrom(cfg, call, result)),
         disabled := r.disabled + Disables(call, result),
         dealt := r.dealt + [Deal(call, step, index, result, false)]),
      call, result, step)
  }

  function FinishedCall(
    cfg: Config, r: Run, call: ToolCall, index: nat, step: nat, produced: ToolResult, bytes: nat): Handled
  {
    var result := Bounded(cfg, call, produced, bytes);
    var kept := Settled(cfg, r, call, index, step, result);
    var failure := Judged(kept.failures, FailureFrom(cfg, call, result));
    var spent := bytes + cfg.utf8Size(result.content);
    if failure.stall then
      Handled(Finished(kept, StalledFailure, step), Ended(StalledFailure), 1, spent, failure.guidance)
    else Handled(kept, Continue, 1, spent, failure.guidance)
  }

  /** A cancelled run closes its open calls one by one; the first is announced already. */
  function CancelledOne(cfg: Config, r: Run, calls: seq<ToolCall>, index: nat, announced: bool, step: nat): Run
    requires index < |calls|
  {
    var call := calls[index];
    var asked := if announced then r else Emitted(r, ToolRequested(call.id), step);
    var result := ErrorResult(cfg, call, "TOOL_CANCELLED");
    Delivered(
      asked.(trace := r.trace + [Completion.Entry(call.name, result)],
             dealt := r.dealt + [Deal(call, step, index, result, true)]),
      call, result, step)
  }

  function CancelledTo(cfg: Config, r: Run, calls: seq<ToolCall>, start: nat, end: nat, step: nat): Run
    requires start <= end <= |calls|
    decreases end
  {
    if end == start then r
    else CancelledOne(cfg, CancelledTo(cfg, r, calls, start, end - 1, step), calls, end - 1, end - 1 == start, step)
  }

  /** The end of a run that was cancelled while calls were open. */
  function StoppedAt(cfg: Config, r: Run, calls: seq<ToolCall>, start: nat, step: nat): Run
    requires start < |calls|
  {
    Emitted(CancelledTo(cfg, Moved(r, Cancelled), calls, start, |calls|, step), RunCancelled, step)
  }

  /** From the dispatch of a call to its result in the journal. */
  function Concluded(cfg: Config, p: Produced, calls: seq<ToolCall>, index: nat, step: nat, bytes: nat): Handled
    requires index < |calls|
  {
    match p.d
    case Stalls => Handled(Finished(p.run, StalledCall, step), Ended(StalledCall), 0, bytes, false)
    case Refused => Handled(p.run, Crashed, 0, bytes, false)
    case CancelledHere =>
      Handled(StoppedAt(cfg, p.run, calls, index, step), Ended(Stopped), |calls| - index, bytes, false)
    case Outcome(result) => FinishedCall(cfg, p.run, calls[index], index, step, result, bytes)
  }

  /** One call of a response, from its announcement to its result. */
  function CallTurn(
    cfg: Config, r: Run, calls: seq<ToolCall>, index: nat, step: nat, input: CallInput, bytes: nat): Handled
    requires index < |calls|
  {
    Concluded(cfg, CalledAs(cfg, r, calls[index], index, step, input), calls, index, step, bytes)
  }

  /** The first `n` calls of one response, in order, until the run ends. */
  function CallsTurn(
    cfg: Config, r: Run, calls: seq<ToolCall>, step: nat, inputs: nat -> CallInput, n: nat): (h: Handled)
    requires n <= |calls|
    decreases n
  {
    if n == 0 then Handled(r, Continue, 0, 0, false)
    else
      var before := CallsTurn(cfg, r, calls, step, inputs, n - 1);
      if before.flow != Continue then before
      else
        var now := CallTurn(cfg, before.run, calls, n - 1, step, inputs(n - 1), before.bytes);
        now.(answered := before.answered + now.answered, guided := before.guided || now.guided)
  }

  /** What a phase leaves: the run, how it goes on, how many calls it closed. */
  datatype Turn = Turn(run: Run, flow: Flow, answered: nat)

  /** All calls of one response, then the guidance they earned. */
  function AllCallsTurn(cfg: Config, r: Run, calls: seq<ToolCall>, step: nat, inputs: nat -> CallInput): Turn {
    var h := CallsTurn(cfg, Emitted(r, Progress, step), calls, step, inputs, |calls|);
    if h.flow != Continue then Turn(h.run, h.flow, h.answered)
    else
      var told := if h.guided then Said(h.run, Plain(User, cfg.guidance)) else h.run;
      Turn(Resumed(told, step), Continue, h.answered)
  }

  // ---- the control calls and plain answers ----

  /** What the call that asks the user is answered with. */
  function InputResult(cfg: Config, call: ToolCall, answer: UserAnswer): ToolResult {
    if answer.BadRequest? then ErrorResult(cfg, call, answer.code)
    else if !cfg.userInputs then ErrorResult(cfg, call, "INPUT_UNAVAILABLE")
    else if answer.Answer? then answer.result
    else ErrorResult(cfg, call, "INPUT_TIMEOUT")
  }

  /** The single call that asks the user; its answer is not evidence. */
  function InputTurn(cfg: Config, r: Run, call: ToolCall, answer: UserAnswer, step: nat): Turn {
    var asked := Emitted(r, ToolRequested(call.id), step);
    if answer.BadRequest? || !cfg.userInputs then
      Turn(Resumed(Delivered(asked, call, InputResult(cfg, call, answer), step), step), Continue, 1)
    else
      var waiting := Emitted(Moved(asked, WaitingInput), InputRequired(call.id), step);
      if answer.AnswerCancelled? then Turn(StoppedAt(cfg, waiting, [call], 0, step), Ended(Stopped), 1)
      else
        var told := if answer.Answer? then Emitted(waiting, InputResolved(call.id), step) else waiting;
        Turn(Resumed(Delivered(told, call, InputResult(cfg, call, answer), step), step), Continue, 1)
  }

  function ReportResult(text: string): ToolResult {
    Completion.ToolResult(true, None, false, [], [], None, None, text)
  }

  /** The single call that reports the outcome; completion needs evidence. */
  function OutcomeTurn(cfg: Config, r: Run, call: ToolCall, report: OutcomeReport, step: nat): Turn {
    var asked := Emitted(r, ToolRequested(call.id), step);
    match report
    case BadOutcome(code) => Turn(TriedAgain(asked, call, ErrorResult(cfg, call, code), step), Continue, 1)
    case ReportsIncomplete(text) =>
      Turn(Finished(Delivered(asked, call, ReportResult(text), step), Reported, step), Ended(Reported), 1)
    case ReportsCompleted(text) =>
      if Completion.Accepts(r.trace) then
        var closed := Delivered(Moved(asked, RunState.Completed), call, ReportResult(text), step);
        Turn(Emitted(closed, RunCompleted, step), Ended(Done), 1)
      else Turn(TriedAgain(asked, call, ErrorResult(cfg, call, "OUTCOME_CONTRADICTS_EVIDENCE"), step), Continue, 1)
  }

  /** A report that is not accepted is answered with an error. */
  function TriedAgain(r: Run, call: ToolCall, result: ToolResult, step: nat): Run {
    Moved(StepClosed(Delivered(r, call, result, step), step), Preparing)
  }

  /** A response without calls: an answer completes the run if the evidence
      carries it, otherwise the model is told to go on. */
  function TextTurn(cfg: Config, r: Run, content: string, step: nat): Turn {
    if NonBlank(content) && Completion.Accepts(r.trace) then Turn(Finished(r, Done, step), Ended(Done), 0)
    else Turn(StepClosed(Moved(Said(r, Plain(User, cfg.nudge)), Preparing), step), Continue, 0)
  }

  // ---- the model ----

  datatype ModelAnswer =
    | Accepted(content: string, calls: seq<ToolCall>, usage: bool)
    | Repaired
    | Gone(failure: ModelFailure)

  datatype Reached = Reached(run: Run, answer: ModelAnswer)

  function Shown(r: Run, compacted: bool, step: nat): Run {
    var shown := Emitted(r, ContextProjected, step);
    if compacted then Emitted(shown, ContextCompacted, step) else shown
  }

  function AskedModel(r: Run): Run {
    r.(modelCalls := r.modelCalls + 1)
  }

  /** Projects the context and asks the model, at most twice. */
  function ModelTurn(cfg: Config, r: Run, input: StepInput, step: nat): Reached {
    match input.projection
    case Unprojected(failure) => Reached(r, Gone(failure))
    case Projected(compacted, digest) =>
      ReplyTurn(cfg, AskedModel(Moved(Shown(r, compacted, step), RequestingModel)), input, digest, step)
  }

  /** The first reply to a request. */
  function ReplyTurn(cfg: Config, r: Run, input: StepInput, digest: string, step: nat): Reached {
    match input.reply
    case Responded(content, calls, usage) => Reached(Moved(r, Interpreting), Accepted(content, calls, usage))
    case Broken(failure) => Reached(r, Gone(failure))
    case Malformed => RepairTurn(cfg, r, step)
    case ContextTooLong => RetryTurn(r, input, digest, step)
  }

  /** The first malformed response of a run is answered with a repair prompt. */
  function RepairTurn(cfg: Config, r: Run, step: nat): Reached {
    if r.repaired then Reached(r, Gone(ModelProtocol))
    else
      var told := Said(r.(repaired := true), Plain(User, cfg.repairPrompt));
      Reached(StepClosed(Moved(told, Preparing), step), Repaired)
  }

  /** A request over the window is retried once with a different projection. */
  function RetryTurn(r: Run, input: StepInput, digest: string, step: nat): Reached {
    match input.recovery
    case Unprojected(failure) => Reached(r, Gone(failure))
    case Projected(_, recovered) =>
      if recovered == digest then Reached(r, Gone(ContextBudget))
      else
        var asked := AskedModel(Emitted(r, ContextCompacted, step));
        match input.secondReply
        case Responded(content, calls, usage) => Reached(Moved(asked, Interpreting), Accepted(content, calls, usage))
        case ContextTooLong => Reached(asked, Gone(ContextBudget))
        case Malformed => Reached(asked, Gone(ModelProtocol))
        case Broken(failure) => Reached(asked, Gone(failure))
  }

  /** A step whose model request failed or was cancelled ends the run. */
  function GoneTurn(r: Run, failure: ModelFailure, step: nat): Turn {
    if failure.CancelRequest? then Turn(Finished(r, Stopped, step), Ended(Stopped), 0)
    else
      var failed := Moved(r, Failed);
      var told := if failure.ContextBudget? || failure.ContextProtocol? then Emitted(failed, CompactionFailed, step)
        else failed;
      Turn(Emitted(told, RunFailed, step), Ended(ModelFailed), 0)
  }

  // ---- one step ----

  /** The reserved text-only round ends with whatever the model said. */
  predicate SummaryEnds(cfg: Config, summaryRound: bool, calls: seq<ToolCall>) {
    summaryRound && !(cfg.summaryOutcomeOnly && |calls| == 1 && calls[0].name == OUTCOME_TOOL)
  }

  predicate AsksUser(calls: seq<ToolCall>) {
    |calls| == 1 && calls[0].name == INPUT_TOOL
  }

  predicate ReportsOutcome(calls: seq<ToolCall>) {
    |calls| == 1 && calls[0].name == OUTCOME_TOOL
  }

  /** Acts on an accepted response. */
  function ActTurn(
    cfg: Config, r: Run, content: string, calls: seq<ToolCall>, input: StepInput, step: nat, summaryRound: bool): Turn
  {
    if SummaryEnds(cfg, summaryRound, calls) then Turn(Finished(r, SummaryRound, step), Ended(SummaryRound), 0)
    else if AsksUser(calls) then InputTurn(cfg, r, calls[0], input.answer, step)
    else if ReportsOutcome(calls) then OutcomeTurn(cfg, r, calls[0], input.outcome, step)
    else if calls != [] then AllCallsTurn(cfg, r, calls, step, input.calls)
    else TextTurn(cfg, r, content, step)
  }

  /** An accepted response enters the journal and is acted on. */
  function ResponseTurn(
    cfg: Config, r: Run, content: string, calls: seq<ToolCall>, usage: bool, input: StepInput, step: nat,
    summaryRound: bool): Turn
  {
    var said := Said(r, Message(Assistant, content, calls, None));
    var reported := if usage then Emitted(said, UsageReported, step) else said;
    ActTurn(cfg, reported, content, calls, input, step, summaryRound)
  }

  function AnsweredTurn(cfg: Config, reached: Reached, input: StepInput, step: nat, summaryRound: bool): Turn {
    match reached.answer
    case Repaired => Turn(reached.run, Continue, 0)
    case Gone(failure) => GoneTurn(reached.run, failure, step)
    case Accepted(content, calls, usage) =>
      ResponseTurn(cfg, reached.run, content, calls, usage, input, step, summaryRound)
  }

  /** One turn of the loop. */
  function StepTurn(cfg: Config, r: Run, input: StepInput, step: nat, summaryRound: bool): Turn {
    if input.cancelled then Turn(Finished(r, Stopped, step), Ended(Stopped), 0)
    else AnsweredTurn(cfg, ModelTurn(cfg, Emitted(r, StepStarted, step), input, step), input, step, summaryRound)
  }

  // ---- whole runs ----

  /** The step limits an agent is created with. */
  predicate AllowedLimit(maxSteps: Option<nat>) {
    maxSteps.Some? ==> MIN_MAX_STEPS <= maxSteps.value <= MAX_MAX_STEPS
  }

  predicate ValidTask(task: string) {
    NonBlank(task) && |task| <= MAX_TASK_CHARS
  }

  predicate InSummaryRound(cfg: Config, maxSteps: Option<nat>, step: nat) {
    cfg.reserveSummaryRound && maxSteps == Some(step)
  }

  /** The messages a run starts with. */
  function Opening(cfg: Config, opening: Option<Message>, task: string, initialize: bool): seq<Message> {
    if !initialize then [Plain(User, task)]
    else [Plain(System, cfg.systemMessage)] + [if opening.Some? then opening.value else Plain(User, task)]
  }

  /** A run that has just started: its messages and its first event. */
  function Begun(cfg: Config, r: Run, task: string, initialize: bool): Run {
    Emitted(
      r.(state := Preparing, path := [r.state, Preparing],
         journal := r.journal + Opening(cfg, r.opening, task, initialize), opening := None,
         first := r.sequence, events := [], starts := [], known := |r.dealt|),
      RunStarted, 0)
  }

  /** A further task forgets what belongs to one task only. */
  function Renewed(r: Run): Run {
    r.(state := Created, trace := [], recorded := [], failures := [], dealt := [], known := 0, disabled := {},
       delegated := 0, repaired := false)
  }

  /** Between plan steps the system messages and a summary remain; the public
      history is dropped. */
  function Checkpointed(r: Run, summary: string): Run {
    r.(journal := Systems(r.journal) + [Plain(User, summary)], history := [])
  }

  /** `steps` turns were made; `answered` calls of the last response were closed
      when the run ended in the middle of it. */
  datatype Result = Result(run: Run, outcome: RunOutcome, steps: nat, answered: nat)

  /** The loop over what the world answers to each of its steps, from the moment
      `steps` turns are made. */
  function RunFrom(cfg: Config, r: Run, script: seq<StepInput>, steps: nat): Result
    requires steps <= |script|
    decreases |script| - steps
  {
    if r.maxSteps.Some? && steps >= r.maxSteps.value then
      Result(Finished(r, OutOfSteps, r.maxSteps.value), Closed(OutOfSteps), steps, 0)
    else if steps == |script| then Result(r, Pending, steps, 0)
    else
      var turn := StepTurn(cfg, r, script[steps], steps + 1, InSummaryRound(cfg, r.maxSteps, steps + 1));
      if turn.flow == Continue then RunFrom(cfg, turn.run, script, steps + 1)
      else Result(turn.run, Stop(turn.flow), steps + 1, turn.answered)
  }

  /** One task on an agent that stands at `r`. */
  function TaskRun(cfg: Config, r: Run, task: string, initialize: bool, script: seq<StepInput>): Result {
    if !ValidTask(task) || !CanMove(r.state, Preparing) then Result(r, Rejected, 0, 0)
    else RunFrom(cfg, Begun(cfg, r, task, initialize), script, 0)
  }

  function FirstRun(cfg: Config, r: Run, task: string, script: seq<StepInput>): Result {
    TaskRun(cfg, r.(repaired := false), task, true, script)
  }

  function FurtherRun(cfg: Config, r: Run, task: string, script: seq<StepInput>): Result {
    if r.state !in TERMINAL_STATES then Result(r, Rejected, 0, 0) else TaskRun(cfg, Renewed(r), task, false, script)
  }
}
