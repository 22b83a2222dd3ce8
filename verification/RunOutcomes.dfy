/** What a step and a whole run leave behind: how far the journal is legal, which
    calls were announced and closed, how many operations and requests were counted. */
module RunOutcomes {
  import opened Text
  import opened Messages
  import opened ToolProtocol
  import opened Alignment
  import opened RunStates
  import opened RunJournal
  import Completion
  import opened Recovery
  import opened RunEvents
  import opened RunMachine
  import opened RunSafety
  import opened RunRecords

  // ---- the journal of one step ----

  /** Results for the first `n` calls, then user messages. */
  ghost predicate After(before: seq<Message>, after: seq<Message>, calls: seq<ToolCall>, n: nat) {
    && n <= |calls| && |before| + n <= |after|
    && Grown(before, after[..|before| + n], calls[..n])
    && Users(after[|before| + n..])
  }

  lemma ClosedAfter(before: Run, after: Run, calls: seq<ToolCall>, n: nat, said: seq<Message>)
    requires n <= |calls| && Closes(before, after, calls[0..n]) && Users(said)
    ensures After(before.journal, after.journal + said, calls, n)
  {
    var added := after.dealt[|before.dealt|..];
    var all := after.journal + said;
    assert calls[..n] == calls[0..n];
    assert all[..|before.journal| + n] == after.journal;
    assert all[|before.journal| + n..] == said;
    forall k | 0 <= k < n ensures ResultFor(after.journal[|before.journal| + k], calls[k]) {
      assert after.journal[|before.journal| + k] == ResultMessages(added)[k];
      assert DealtCalls(added)[k] == calls[..n][k];
    }
  }

  lemma SaidAfter(before: seq<Message>, said: seq<Message>, calls: seq<ToolCall>)
    requires Users(said)
    ensures After(before, before + said, calls, 0)
  {
    assert (before + said)[..|before|] == before && (before + said)[|before|..] == said;
    assert calls[..0] == [];
  }

  lemma ToldAfter(before: seq<Message>, content: string, call: ToolCall)
    ensures After(before, before + [ToolMessage(content, call.id)], [call], 1)
  {
    var after := before + [ToolMessage(content, call.id)];
    assert after[..|before| + 1] == after && [call][..1] == [call];
  }

  lemma AnswerLeft(before: seq<Message>, m: Message, after: seq<Message>, calls: seq<ToolCall>, n: nat)
    requires m.role.Assistant? && m.toolCalls == calls && After(before + [m], after, calls, n)
    ensures Left(before, after, calls, n)
  {
    var middle, tail := after[..|before| + 1 + n], after[|before| + 1 + n..];
    GrownAnswered(before, m, middle, tail, calls, n);
    assert after == middle + tail;
  }

  lemma SaidLeft(before: seq<Message>, said: seq<Message>)
    requires Users(said)
    ensures Left(before, before + said, [], 0)
  {
    assert (before + said)[|before|..] == said;
  }

  // ---- acting on a response ----

  /** The calls of a response that are handled one by one: a single question or
      report is not. */
  function WorkCalls(calls: seq<ToolCall>): seq<ToolCall> {
    if AsksUser(calls) || ReportsOutcome(calls) then [] else calls
  }

  /** What a phase that acts on a response leaves. */
  ghost predicate Acts(cfg: Config, r: Run, t: Turn, calls: seq<ToolCall>) {
    && Follows(t.flow, t.answered, |calls|) && t.flow != Ended(ModelFailed)
    && Asked(t.flow, t.answered) <= |calls|
    && Adds(r, t.run, IdsOfCalls(calls[0..Asked(t.flow, t.answered)]), IdsOfCalls(calls[0..t.answered]))
    && After(r.journal, t.run.journal, calls, t.answered)
    && CountsAs(cfg, r, t, calls)
  }

  /** The operations it counts: all of them when the run goes on. */
  ghost predicate CountsAs(cfg: Config, r: Run, t: Turn, calls: seq<ToolCall>) {
    && Counted(cfg, r.recorded, t.run.recorded, calls)
    && (t.flow == Continue ==> t.run.recorded == r.recorded + Keys(cfg, WorkCalls(calls), |WorkCalls(calls)|))
  }

  lemma NothingCounts(cfg: Config, r: Run, t: Turn, calls: seq<ToolCall>)
    requires t.run.recorded == r.recorded && (t.flow == Continue ==> WorkCalls(calls) == [])
    ensures CountsAs(cfg, r, t, calls)
  {
    NothingCounted(cfg, r.recorded, calls);
    assert Keys(cfg, [], 0) == [];
  }

  lemma AllCallsActs(cfg: Config, r: Run, calls: seq<ToolCall>, step: nat, inputs: nat -> CallInput)
    requires calls == WorkCalls(calls)
    ensures Acts(cfg, r, AllCallsTurn(cfg, r, calls, step, inputs), calls)
  {
    hide Adds, Closes, After, CallsTurn, IdsOfCalls, Keys, Counted, Emitted, Resumed, WorkCalls;
    var begun := Emitted(r, Progress, step);
    var h := CallsTurn(cfg, begun, calls, step, inputs, |calls|);
    EmittedSilent(r, Progress, step);
    CallsTurnHandles(cfg, begun, calls, step, inputs, |calls|);
    var t := AllCallsTurn(cfg, r, calls, step, inputs);
    var asked, done := IdsOfCalls(calls[0..Asked(h.flow, h.answered)]), IdsOfCalls(calls[0..h.answered]);
    AddsThen(r, begun, h.run, [], [], asked, done);
    AddsNothing(asked);
    AddsNothing(done);
    var said := if h.flow == Continue && h.guided then [Plain(User, cfg.guidance)] else [];
    ClosedAfter(begun, h.run, calls, h.answered, said);
    AddsNothing(h.run.journal);
    if h.flow == Continue {
      var told := if h.guided then Said(h.run, Plain(User, cfg.guidance)) else h.run;
      ResumedSilent(told, step);
      AddsSaid(r, h.run, told, t.run, asked, done);
    }
  }

  lemma AddsSaid(a: Run, b: Run, c: Run, d: Run, asked: seq<string>, completed: seq<string>)
    requires Adds(a, b, asked, completed) && c == b.(journal := c.journal) && Adds(c, d, [], [])
    ensures Adds(a, d, asked, completed)
  {
    hide Requested, RunEvents.Completed;
  }

  lemma DeliveredOnce(r: Run, call: ToolCall, result: ToolResult, step: nat)
    ensures var next := Delivered(r, call, result, step);
            && Adds(r, next, [], [call.id]) && next.journal == r.journal + [ToolMessage(result.content, call.id)]
            && next.recorded == r.recorded
  {
    hide Requested, RunEvents.Completed;
    AnnouncedSnoc(r.events, Event(ToolCompleted(call.id), r.sequence, step));
  }

  /** A single call that is announced and answered. */
  lemma {:induction false} OneActs(cfg: Config, r: Run, t: Turn, call: ToolCall, content: string)
    requires Adds(r, t.run, [call.id], [call.id]) && t.run.recorded == r.recorded && t.answered == 1
    requires t.run.journal == r.journal + [ToolMessage(content, call.id)]
    requires Follows(t.flow, 1, 1) && !t.flow.Crashed? && t.flow != Ended(StalledCall) && t.flow != Ended(ModelFailed)
    requires t.flow == Continue ==> WorkCalls([call]) == []
    ensures Acts(cfg, r, t, [call])
  {
    hide Adds, After, WorkCalls, CountsAs;
    ToldAfter(r.journal, content, call);
    NothingCounts(cfg, r, t, [call]);
    assert [call][0..1] == [call] && IdsOfCalls([call]) == [call.id];
  }

  lemma StoppedOne(cfg: Config, r: Run, call: ToolCall, step: nat)
    ensures var next := StoppedAt(cfg, r, [call], 0, step);
            && Adds(r, next, [], [call.id])
            && next.recorded == r.recorded
            && next.journal == r.journal + [ToolMessage(ErrorResult(cfg, call, "TOOL_CANCELLED").content, call.id)]
  {
    hide Requested, RunEvents.Completed, ErrorResult;
    StoppedAdds(cfg, r, [call], 0, step);
    assert [call][0..] == [call] && [call][1..] == [];
    assert IdsOfCalls([call]) == [call.id] && IdsOfCalls([]) == [];
  }

  lemma InputActs(cfg: Config, r: Run, call: ToolCall, answer: UserAnswer, step: nat)
    requires AsksUser([call])
    ensures Acts(cfg, r, InputTurn(cfg, r, call, answer, step), [call])
  {
    hide Adds, After, Acts, Emitted, Moved, Resumed, Delivered, StoppedAt, InputResult, ErrorResult;
    var asked := Emitted(r, ToolRequested(call.id), step);
    var t, result := InputTurn(cfg, r, call, answer, step), InputResult(cfg, call, answer);
    EmittedAdds(r, ToolRequested(call.id), step);
    EmittedKeeps(r, ToolRequested(call.id), step);
    if answer.BadRequest? || !cfg.userInputs {
      AnsweredOne(r, asked, call, result, step);
      OneActs(cfg, r, t, call, result.content);
    } else {
      var waiting := Emitted(Moved(asked, WaitingInput), InputRequired(call.id), step);
      MovedSilent(asked, WaitingInput);
      EmittedSilent(Moved(asked, WaitingInput), InputRequired(call.id), step);
      SilentThen(asked, Moved(asked, WaitingInput), waiting);
      SilentAfter(r, asked, waiting, [call.id], []);
      if answer.AnswerCancelled? {
        StoppedOne(cfg, waiting, call, step);
        AddsThen(r, waiting, t.run, [call.id], [], [], [call.id]);
        AddsNothing([call.id]);
        OneActs(cfg, r, t, call, ErrorResult(cfg, call, "TOOL_CANCELLED").content);
      } else {
        var told := if answer.Answer? then Emitted(waiting, InputResolved(call.id), step) else waiting;
        EmittedSilent(waiting, InputResolved(call.id), step);
        NothingSilent(waiting);
        SilentAfter(r, waiting, told, [call.id], []);
        AnsweredOne(r, told, call, result, step);
        OneActs(cfg, r, t, call, result.content);
      }
    }
  }

  lemma SilentAfter(a: Run, b: Run, c: Run, asked: seq<string>, completed: seq<string>)
    requires Adds(a, b, asked, completed) && Silent(b, c)
    ensures Adds(a, c, asked, completed)
    ensures c.journal == b.journal && c.recorded == b.recorded && c.trace == b.trace
  {
    hide Requested, RunEvents.Completed;
  }

  /** An announced call is answered and the loop goes on. */
  lemma AnsweredOne(r: Run, asked: Run, call: ToolCall, result: ToolResult, step: nat)
    requires Adds(r, asked, [call.id], []) && asked.journal == r.journal && asked.recorded == r.recorded
    ensures var next := Resumed(Delivered(asked, call, result, step), step);
            && Adds(r, next, [call.id], [call.id]) && next.recorded == r.recorded
            && next.journal == r.journal + [ToolMessage(result.content, call.id)]
  {
    hide Adds, Delivered, Resumed;
    DeliveredOnce(asked, call, result, step);
    var delivered := Delivered(asked, call, result, step);
    AddsThen(r, asked, delivered, [call.id], [], [], [call.id]);
    AddsNothing([call.id]);
    ResumedSilent(delivered, step);
    SilentAfter(r, delivered, Resumed(delivered, step), [call.id], [call.id]);
  }

  lemma OutcomeActs(cfg: Config, r: Run, call: ToolCall, report: OutcomeReport, step: nat)
    requires ReportsOutcome([call])
    ensures Acts(cfg, r, OutcomeTurn(cfg, r, call, report, step), [call])
  {
    hide Adds, After, Acts, Emitted, Moved, Delivered, TriedAgain, RunMachine.Finished, ErrorResult, ReportResult,
         Completion.Accepts;
    var asked := Emitted(r, ToolRequested(call.id), step);
    var t := OutcomeTurn(cfg, r, call, report, step);
    EmittedAdds(r, ToolRequested(call.id), step);
    EmittedKeeps(r, ToolRequested(call.id), step);
    match report
    case BadOutcome(code) =>
      TriedOne(r, asked, call, ErrorResult(cfg, call, code), step);
      OneActs(cfg, r, t, call, ErrorResult(cfg, call, code).content);
    case ReportsIncomplete(text) =>
      ReportedOne(r, asked, asked, call, ReportResult(text), step);
      var delivered := Delivered(asked, call, ReportResult(text), step);
      FinishedSilent(delivered, Reported, step);
      SilentAfter(r, delivered, t.run, [call.id], [call.id]);
      OneActs(cfg, r, t, call, ReportResult(text).content);
    case ReportsCompleted(text) =>
      if Completion.Accepts(r.trace) {
        var moved := Moved(asked, RunState.Completed);
        MovedSilent(asked, RunState.Completed);
        SilentAfter(r, asked, moved, [call.id], []);
        ReportedOne(r, asked, moved, call, ReportResult(text), step);
        var delivered := Delivered(moved, call, ReportResult(text), step);
        EmittedSilent(delivered, RunCompleted, step);
        SilentAfter(r, delivered, t.run, [call.id], [call.id]);
        OneActs(cfg, r, t, call, ReportResult(text).content);
      } else {
        TriedOne(r, asked, call, ErrorResult(cfg, call, "OUTCOME_CONTRADICTS_EVIDENCE"), step);
        OneActs(cfg, r, t, call, ErrorResult(cfg, call, "OUTCOME_CONTRADICTS_EVIDENCE").content);
      }
  }

  lemma ReportedOne(r: Run, asked: Run, moved: Run, call: ToolCall, result: ToolResult, step: nat)
    requires Adds(r, moved, [call.id], []) && moved.journal == r.journal && moved.recorded == r.recorded
    ensures var next := Delivered(moved, call, result, step);
            && Adds(r, next, [call.id], [call.id]) && next.recorded == r.recorded
            && next.journal == r.journal + [ToolMessage(result.content, call.id)]
  {
    hide Adds, Delivered;
    DeliveredOnce(moved, call, result, step);
    AddsThen(r, moved, Delivered(moved, call, result, step), [call.id], [], [], [call.id]);
    AddsNothing([call.id]);
  }

  lemma TriedOne(r: Run, asked: Run, call: ToolCall, result: ToolResult, step: nat)
    requires Adds(r, asked, [call.id], []) && asked.journal == r.journal && asked.recorded == r.recorded
    ensures var next := TriedAgain(asked, call, result, step);
            && Adds(r, next, [call.id], [call.id]) && next.recorded == r.recorded
            && next.journal == r.journal + [ToolMessage(result.content, call.id)]
  {
    hide Adds, Delivered, StepClosed, Moved;
    ReportedOne(r, asked, asked, call, result, step);
    var delivered := Delivered(asked, call, result, step);
    StepClosedSilent(delivered, step);
    MovedSilent(StepClosed(delivered, step), Preparing);
    SilentThen(delivered, StepClosed(delivered, step), TriedAgain(asked, call, result, step));
    SilentAfter(r, delivered, TriedAgain(asked, call, result, step), [call.id], [call.id]);
  }

  /** A phase that closes no call. */
  lemma NoneActs(cfg: Config, r: Run, t: Turn, calls: seq<ToolCall>, said: seq<Message>)
    requires Adds(r, t.run, [], []) && t.run.journal == r.journal + said && Users(said) && t.run.recorded == r.recorded
    requires t.answered == 0 && Follows(t.flow, 0, |calls|) && t.flow != Ended(ModelFailed) && Asked(t.flow, 0) == 0
    requires t.flow == Continue ==> WorkCalls(calls) == []
    ensures Acts(cfg, r, t, calls)
  {
    hide Adds, After, WorkCalls, CountsAs;
    SaidAfter(r.journal, said, calls);
    NothingCounts(cfg, r, t, calls);
    assert calls[0..0] == [] && IdsOfCalls([]) == [];
  }

  lemma TextActs(cfg: Config, r: Run, content: string, step: nat)
    ensures Acts(cfg, r, TextTurn(cfg, r, content, step), [])
  {
    hide Adds, Acts, Moved, StepClosed, RunMachine.Finished, NonBlank, Completion.Accepts;
    var t := TextTurn(cfg, r, content, step);
    if NonBlank(content) && Completion.Accepts(r.trace) {
      FinishedSilent(r, Done, step);
      AddsNothing(r.journal);
      NoneActs(cfg, r, t, [], []);
    } else {
      var said := Said(r, Plain(User, cfg.nudge));
      var moved := Moved(said, Preparing);
      MovedSilent(said, Preparing);
      StepClosedSilent(moved, step);
      SilentThen(said, moved, t.run);
      NothingAdds(r);
      AddsSaid(r, r, said, t.run, [], []);
      NoneActs(cfg, r, t, [], [Plain(User, cfg.nudge)]);
    }
  }

  lemma ActActs(
    cfg: Config, r: Run, content: string, calls: seq<ToolCall>, input: StepInput, step: nat, summaryRound: bool)
    ensures Acts(cfg, r, ActTurn(cfg, r, content, calls, input, step, summaryRound), calls)
    ensures ActTurn(cfg, r, content, calls, input, step, summaryRound).flow == Ended(SummaryRound)
            <==> SummaryEnds(cfg, summaryRound, calls)
  {
    hide Adds, Acts, RunMachine.Finished, InputTurn, OutcomeTurn, AllCallsTurn, TextTurn, SummaryEnds;
    if SummaryEnds(cfg, summaryRound, calls) {
      FinishedSilent(r, SummaryRound, step);
      AddsNothing(r.journal);
      NoneActs(cfg, r, Turn(RunMachine.Finished(r, SummaryRound, step), Ended(SummaryRound), 0), calls, []);
    } else if AsksUser(calls) {
      assert calls == [calls[0]];
      InputActs(cfg, r, calls[0], input.answer, step);
      InputFlow(cfg, r, calls[0], input.answer, step);
    } else if ReportsOutcome(calls) {
      assert calls == [calls[0]];
      OutcomeActs(cfg, r, calls[0], input.outcome, step);
      OutcomeFlow(cfg, r, calls[0], input.outcome, step);
    } else if calls != [] {
      AllCallsActs(cfg, r, calls, step, input.calls);
      AllCallsFlow(cfg, r, calls, step, input.calls);
    } else {
      TextActs(cfg, r, content, step);
      TextFlow(cfg, r, content, step);
    }
  }

  lemma InputFlow(cfg: Config, r: Run, call: ToolCall, answer: UserAnswer, step: nat)
    ensures InputTurn(cfg, r, call, answer, step).flow
            == if cfg.userInputs && answer.AnswerCancelled? then Ended(Stopped) else Continue
  {
  }

  lemma OutcomeFlow(cfg: Config, r: Run, call: ToolCall, report: OutcomeReport, step: nat)
    ensures OutcomeTurn(cfg, r, call, report, step).flow
            == if report.ReportsIncomplete? then Ended(Reported)
               else if report.ReportsCompleted? && Completion.Justified(r.trace) then Ended(Done)
               else Continue
  {
    hide Completion.Justified, Completion.Accepts;
    Completion.AcceptedIff(r.trace);
  }

  lemma TextFlow(cfg: Config, r: Run, content: string, step: nat)
    ensures TextTurn(cfg, r, content, step).flow
            == if NonBlank(content) && Completion.Justified(r.trace) then Ended(Done) else Continue
  {
    hide Completion.Justified, Completion.Accepts, NonBlank;
    Completion.AcceptedIff(r.trace);
  }

  lemma AllCallsFlow(cfg: Config, r: Run, calls: seq<ToolCall>, step: nat, inputs: nat -> CallInput)
    ensures AllCallsTurn(cfg, r, calls, step, inputs).flow
            in {Continue, Crashed, Ended(Stopped), Ended(StalledCall), Ended(StalledFailure)}
  {
    hide Adds, Closes, CallsTurn, Keys, Counted;
    CallsTurnHandles(cfg, Emitted(r, Progress, step), calls, step, inputs, |calls|);
  }

  // ---- one step ----

  /** The model found the context too long, and it got another one. */
  predicate SentAgain(input: StepInput)
    requires input.projection.Projected?
  {
    input.reply.ContextTooLong? && input.recovery.Projected? && input.recovery.digest != input.projection.digest
  }

  /** The requests a step sends to the model. */
  function RequestsMade(input: StepInput): nat {
    if input.cancelled || input.projection.Unprojected? then 0
    else if SentAgain(input) then 2 else 1
  }

  /** What one turn of the loop leaves: a response with the results of its first
      `answered` calls, or user messages only. */
  ghost predicate Leaves(cfg: Config, r: Run, t: Turn, calls: seq<ToolCall>, requests: nat) {
    && Follows(t.flow, t.answered, |calls|) && Asked(t.flow, t.answered) <= |calls|
    && Adds(r, t.run.(modelCalls := r.modelCalls), IdsOfCalls(calls[0..Asked(t.flow, t.answered)]),
            IdsOfCalls(calls[0..t.answered]))
    && t.run.modelCalls == r.modelCalls + requests
    && Left(r.journal, t.run.journal, calls, t.answered)
    && CountsAs(cfg, r, t, calls)
  }

  lemma ResponseLeaves(
    cfg: Config, r: Run, content: string, calls: seq<ToolCall>, usage: bool, input: StepInput, step: nat,
    summaryRound: bool)
    ensures var t := ResponseTurn(cfg, r, content, calls, usage, input, step, summaryRound);
            Leaves(cfg, r, t, calls, 0) && t.flow != Ended(ModelFailed)
  {
    hide Requested, RunEvents.Completed, After, Left, ActTurn, CountsAs, IdsOfCalls;
    var m := Message(Assistant, content, calls, None);
    var reported := if usage then Emitted(Said(r, m), UsageReported, step) else Said(r, m);
    EmittedSilent(Said(r, m), UsageReported, step);
    ActActs(cfg, reported, content, calls, input, step, summaryRound);
    var t := ActTurn(cfg, reported, content, calls, input, step, summaryRound);
    AnswerLeft(r.journal, m, t.run.journal, calls, t.answered);
    CountsFrom(cfg, r, reported, t, calls);
  }

  lemma CountsFrom(cfg: Config, a: Run, b: Run, t: Turn, calls: seq<ToolCall>)
    requires a.recorded == b.recorded && CountsAs(cfg, b, t, calls)
    ensures CountsAs(cfg, a, t, calls)
  {
    hide Counted, Keys, WorkCalls;
  }

  /** A step without a response leaves user messages only. */
  lemma NothingLeaves(cfg: Config, r: Run, t: Turn, said: seq<Message>, requests: nat)
    requires Adds(r, t.run.(modelCalls := r.modelCalls), [], []) && t.run.modelCalls == r.modelCalls + requests
    requires t.run.journal == r.journal + said && Users(said) && t.run.recorded == r.recorded
    requires t.answered == 0 && Follows(t.flow, 0, 0) && Asked(t.flow, 0) == 0
    ensures Leaves(cfg, r, t, [], requests)
  {
    hide Adds, Left, CountsAs;
    SaidLeft(r.journal, said);
    NothingCounts(cfg, r, t, []);
    var none: seq<ToolCall> := [];
    assert none[0..0] == [] && IdsOfCalls([]) == [];
  }

  /** What the conversation with the model leaves before its answer is acted on. */
  ghost predicate AnswerReached(r: Run, reached: Reached, cfg: Config, requests: nat) {
    && Adds(r, reached.run.(modelCalls := r.modelCalls), [], []) && reached.run.modelCalls == r.modelCalls + requests
    && reached.run.recorded == r.recorded && reached.run.dealt == r.dealt && reached.run.trace == r.trace
    && reached.run.journal == r.journal + if reached.answer.Repaired? then [Plain(User, cfg.repairPrompt)] else []
  }

  lemma ModelReaches(cfg: Config, r: Run, input: StepInput, step: nat)
    requires !input.cancelled
    ensures AnswerReached(r, ModelTurn(cfg, r, input, step), cfg, RequestsMade(input))
  {
    hide Requested, RunEvents.Completed, ReplyTurn;
    AddsNothing(r.journal);
    match input.projection
    case Unprojected(_) =>
    case Projected(compacted, digest) =>
      ShownSilent(r, compacted, step);
      var asked := AskedModel(Moved(Shown(r, compacted, step), RequestingModel));
      ReplyReaches(cfg, asked, input, digest, step);
  }

  lemma ShownSilent(r: Run, compacted: bool, step: nat)
    ensures Silent(r, Shown(r, compacted, step))
  {
    hide Silent, Emitted;
    EmittedSilent(r, ContextProjected, step);
    EmittedSilent(Emitted(r, ContextProjected, step), ContextCompacted, step);
    SilentThen(r, Emitted(r, ContextProjected, step),
      Emitted(Emitted(r, ContextProjected, step), ContextCompacted, step));
  }

  lemma RepairReaches(cfg: Config, r: Run, step: nat)
    ensures AnswerReached(r, RepairTurn(cfg, r, step), cfg, 0)
  {
    hide Requested, RunEvents.Completed, StepClosed;
    AddsNothing(r.journal);
    var told := Said(r.(repaired := true), Plain(User, cfg.repairPrompt));
    StepClosedSilent(Moved(told, Preparing), step);
  }

  lemma RetryReaches(cfg: Config, r: Run, input: StepInput, digest: string, step: nat)
    ensures AnswerReached(r, RetryTurn(r, input, digest, step), cfg,
                    if input.recovery.Projected? && input.recovery.digest != digest then 1 else 0)
  {
    hide Requested, RunEvents.Completed, Emitted;
    AddsNothing(r.journal);
    EmittedSilent(r, ContextCompacted, step);
  }

  lemma ReplyReaches(cfg: Config, r: Run, input: StepInput, digest: string, step: nat)
    requires !input.cancelled && input.projection.Projected? && input.projection.digest == digest
    ensures AnswerReached(r, ReplyTurn(cfg, r, input, digest, step), cfg, RequestsMade(input) - 1)
  {
    hide Requested, RunEvents.Completed, RepairTurn, RetryTurn;
    AddsNothing(r.journal);
    RepairReaches(cfg, r, step);
    RetryReaches(cfg, r, input, digest, step);
  }

  lemma GoneLeaves(r: Run, failure: ModelFailure, step: nat)
    ensures var t := GoneTurn(r, failure, step);
            && Silent(r, t.run) && t.answered == 0
            && t.flow == Ended(if failure.CancelRequest? then Stopped else ModelFailed)
  {
    hide Silent, Moved, Emitted, RunMachine.Finished;
    FinishedSilent(r, Stopped, step);
    var failed := Moved(r, Failed);
    MovedSilent(r, Failed);
    EmittedSilent(failed, CompactionFailed, step);
    SilentThen(r, failed, Emitted(failed, CompactionFailed, step));
    var told := if failure.ContextBudget? || failure.ContextProtocol? then Emitted(failed, CompactionFailed, step)
      else failed;
    EmittedSilent(told, RunFailed, step);
    SilentThen(r, told, Emitted(told, RunFailed, step));
  }

  /** One turn of the loop. */
  lemma StepLeaves(cfg: Config, r: Run, input: StepInput, step: nat, summaryRound: bool)
    ensures var t := StepTurn(cfg, r, input, step, summaryRound);
            && Leaves(cfg, r, t, AcceptedCalls(input), RequestsMade(input))
            && (t.flow != Ended(Stopped) && t.flow != Ended(ModelFailed) ==> RequestsMade(input) > 0)
  {
    hide Requested, RunEvents.Completed, ModelTurn, GoneTurn, ResponseTurn, AcceptedCalls, RunMachine.Finished, Leaves,
         RequestsMade, Emitted;
    if input.cancelled {
      FinishedSilent(r, Stopped, step);
      AddsNothing(r.journal);
      CancelledAsks(input);
      NothingLeaves(cfg, r, Turn(RunMachine.Finished(r, Stopped, step), Ended(Stopped), 0), [], 0);
    } else {
      var begun := Emitted(r, StepStarted, step);
      EmittedSilent(r, StepStarted, step);
      ModelReaches(cfg, begun, input, step);
      AcceptedAsScripted(cfg, begun, input, step);
      AnswerMade(cfg, begun, input, step);
      AnsweredLeaves(cfg, r, begun, ModelTurn(cfg, begun, input, step), input, step, summaryRound, RequestsMade(input));
    }
  }

  lemma CancelledAsks(input: StepInput)
    requires input.cancelled
    ensures AcceptedCalls(input) == [] && RequestsMade(input) == 0
  {
  }

  lemma AnswerMade(cfg: Config, r: Run, input: StepInput, step: nat)
    requires !input.cancelled
    ensures !ModelTurn(cfg, r, input, step).answer.Gone? ==> RequestsMade(input) > 0
  {
    hide ReplyTurn;
  }

  lemma AnsweredLeaves(
    cfg: Config, r: Run, begun: Run, reached: Reached, input: StepInput, step: nat, summaryRound: bool, requests: nat)
    requires Silent(r, begun) && AnswerReached(begun, reached, cfg, requests)
    ensures var t := AnsweredTurn(cfg, reached, input, step, summaryRound);
            && Leaves(cfg, r, t, if reached.answer.Accepted? then reached.answer.calls else [], requests)
            && (t.flow != Ended(Stopped) && t.flow != Ended(ModelFailed) ==> !reached.answer.Gone?)
  {
    hide Requested, RunEvents.Completed, GoneTurn, ResponseTurn, IdsOfCalls, Left, CountsAs;
    AddsNothing(r.journal);
    match reached.answer
    case Repaired => NothingLeaves(cfg, r, Turn(reached.run, Continue, 0), [Plain(User, cfg.repairPrompt)], requests);
    case Gone(failure) =>
      GoneLeaves(reached.run, failure, step);
      NothingLeaves(cfg, r, GoneTurn(reached.run, failure, step), [], requests);
    case Accepted(content, calls, usage) =>
      ResponseLeaves(cfg, reached.run, content, calls, usage, input, step, summaryRound);
      CountsFrom(cfg, r, reached.run,
        ResponseTurn(cfg, reached.run, content, calls, usage, input, step, summaryRound), calls);
  }

  // ---- whole runs ----

  lemma KeptMeans(ms: seq<Message>)
    requires Kept(ms)
    ensures Adjacent(ms) && (Unique(ms) ==> Legal(ms))
  {
  }

  ghost predicate NoSystems(ms: seq<Message>) {
    forall k | 0 <= k < |ms| :: !ms[k].role.System?
  }

  /** A journal grown from `start` without system messages: if that one was legal as
      soon as its ids are unique, this one is exactly when all `calls` have their `n`
      results. */
  ghost predicate Consistent(start: seq<Message>, ms: seq<Message>, calls: seq<ToolCall>, n: nat) {
    && start <= ms && n <= |calls| && NoSystems(ms[|start|..])
    && (Kept(start) ==> Adjacent(ms) && (Unique(ms) ==> (Legal(ms) <==> n == |calls|)))
  }

  lemma LeftAddsNoSystems(before: seq<Message>, after: seq<Message>, calls: seq<ToolCall>, n: nat)
    requires Left(before, after, calls, n)
    ensures NoSystems(after[|before|..])
  {
    var added := after[|before|..];
    if Answered(added, calls, n) {
      forall k | 0 <= k < |added| ensures !added[k].role.System? {
        if 1 <= k < 1 + n {
          assert ResultFor(added[1..1 + n][k - 1], calls[k - 1]);
        } else if k > 0 {
          assert added[1 + n..][k - 1 - n].role.User?;
        }
      }
    }
  }

  lemma NoSystemsJoin(start: seq<Message>, before: seq<Message>, after: seq<Message>)
    requires start <= before <= after && NoSystems(before[|start|..]) && NoSystems(after[|before|..])
    ensures NoSystems(after[|start|..])
  {
    forall k | |start| <= k < |after| ensures !after[k].role.System? {
      if k < |before| {
        assert after[k] == before[|start|..][k - |start|];
      } else {
        assert after[k] == after[|before|..][k - |before|];
      }
    }
  }

  lemma ConsistentNext(start: seq<Message>, before: seq<Message>, after: seq<Message>, calls: seq<ToolCall>, n: nat)
    requires Consistent(start, before, [], 0) && Left(before, after, calls, n) && n <= |calls|
    ensures Consistent(start, after, calls, n)
    ensures n == |calls| ==> Consistent(start, after, [], 0)
  {
    hide Unique, Legal, Adjacent, Answered, Users, NoSystems;
    LeftAddsNoSystems(before, after, calls, n);
    NoSystemsJoin(start, before, after);
    if Kept(start) {
      assert Kept(before);
      LeftKept(before, after, calls, n);
    }
  }

  lemma ConsistentStart(start: seq<Message>)
    ensures Consistent(start, start, [], 0)
  {
    hide Unique, Legal, Adjacent;
    if Kept(start) {
      KeptMeans(start);
    }
  }

  /** The calls of the response a run ended in the middle of. */
  function LastCalls(script: seq<StepInput>, outcome: RunOutcome, steps: nat): seq<ToolCall> {
    if outcome == Pending || outcome == Closed(OutOfSteps) || !(0 < steps <= |script|) then []
    else AcceptedCalls(script[steps - 1])
  }

  /** How many of its `n` last calls a run leaves closed. */
  predicate LeavesOpen(outcome: RunOutcome, answered: nat, n: nat) {
    match outcome
    case Broke => answered < n
    case Closed(SummaryRound) => answered == 0
    case Closed(StalledCall) => answered < n
    case Closed(StalledFailure) => 0 < answered <= n
    case _ => answered == n
  }

  /** The id of the announced call a run ends at without its result. */
  function OpenIds(outcome: RunOutcome, calls: seq<ToolCall>, answered: nat): seq<string> {
    if (outcome == Broke || outcome == Closed(StalledCall)) && answered < |calls| then [calls[answered].id] else []
  }

  /** The operations counted by the steps from `from` on, as long as the run goes on. */
  function ScriptKeys(cfg: Config, script: seq<StepInput>, from: nat, to: nat): seq<CallKey>
    requires from <= to <= |script|
    decreases |script| - from
  {
    if from == to then []
    else
      var calls := WorkCalls(AcceptedCalls(script[from]));
      Keys(cfg, calls, |calls|) + ScriptKeys(cfg, script, from + 1, to)
  }

  /** A run has counted the operations of all its steps, those of the last one in part. */
  ghost predicate CountsRun(
    cfg: Config, before: seq<CallKey>, after: seq<CallKey>, script: seq<StepInput>, from: nat, outcome: RunOutcome,
    steps: nat)
    requires from <= steps <= |script|
  {
    if outcome == Pending || outcome == Closed(OutOfSteps) then after == before + ScriptKeys(cfg, script, from, steps)
    else
      && from < steps
      && Counted(cfg, before + ScriptKeys(cfg, script, from, steps - 1), after, AcceptedCalls(script[steps - 1]))
  }

  /** What is left of a run from the moment it stood at `r` with a journal grown
      from `start`. */
  ghost predicate RunLeft(
    cfg: Config, start: seq<Message>, r: Run, script: seq<StepInput>, from: nat, result: Result)
  {
    var run, calls := result.run, LastCalls(script, result.outcome, result.steps);
    && from <= result.steps <= |script| && !result.outcome.Rejected?
    && (r.maxSteps.Some? ==> result.steps <= r.maxSteps.value || result.steps == from)
    && run.first == r.first && run.maxSteps == r.maxSteps && run.opening == r.opening && run.known == r.known
    && run.history == r.history
    && Consistent(start, run.journal, calls, result.answered)
    && LeavesOpen(result.outcome, result.answered, |calls|)
    && Requested(run.events) == RunEvents.Completed(run.events) + OpenIds(result.outcome, calls, result.answered)
    && CountsRun(cfg, r.recorded, run.recorded, script, from, result.outcome, result.steps)
    && r.modelCalls <= run.modelCalls
    && result.steps - from <= run.modelCalls - r.modelCalls + Unasked(result.outcome)
  }

  /** A step that ends the run before a response may have asked the model nothing. */
  function Unasked(outcome: RunOutcome): nat {
    if outcome == Closed(Stopped) || outcome == Closed(ModelFailed) then 1 else 0
  }

  lemma KeysSplit(cfg: Config, before: seq<CallKey>, script: seq<StepInput>, from: nat, to: nat)
    requires from < to <= |script|
    ensures var calls := WorkCalls(AcceptedCalls(script[from]));
            before + ScriptKeys(cfg, script, from, to)
            == before + Keys(cfg, calls, |calls|) + ScriptKeys(cfg, script, from + 1, to)
  {
    hide WorkCalls, AcceptedCalls, Keys;
  }

  /** The rest of a run after one step that went on. */
  lemma RunLeftNext(
    cfg: Config, start: seq<Message>, r: Run, t: Turn, script: seq<StepInput>, from: nat, result: Result)
    requires from < |script| && t.flow == Continue
             && Leaves(cfg, r, t, AcceptedCalls(script[from]), RequestsMade(script[from]))
    requires RequestsMade(script[from]) > 0 && (r.maxSteps.Some? ==> from < r.maxSteps.value)
    requires RunLeft(cfg, start, t.run, script, from + 1, result)
    ensures RunLeft(cfg, start, r, script, from, result)
  {
    hide Requested, RunEvents.Completed, Consistent, Left, Keys, Counted, WorkCalls, AcceptedCalls, RequestsMade,
         IdsOfCalls;
    if result.outcome == Pending || result.outcome == Closed(OutOfSteps) {
      KeysSplit(cfg, r.recorded, script, from, result.steps);
    } else if from + 1 < result.steps {
      KeysSplit(cfg, r.recorded, script, from, result.steps - 1);
    }
  }

  /** A step that ended the run, or broke it. */
  lemma RunLeftLast(cfg: Config, start: seq<Message>, r: Run, t: Turn, script: seq<StepInput>, from: nat)
    requires from < |script| && t.flow != Continue && t.flow != Ended(OutOfSteps)
    requires Leaves(cfg, r, t, AcceptedCalls(script[from]), RequestsMade(script[from]))
    requires t.flow != Ended(Stopped) && t.flow != Ended(ModelFailed) ==> RequestsMade(script[from]) > 0
    requires r.maxSteps.Some? ==> from < r.maxSteps.value
    requires Consistent(start, r.journal, [], 0) && Requested(r.events) == RunEvents.Completed(r.events)
    ensures RunLeft(cfg, start, r, script, from, Result(t.run, Stop(t.flow), from + 1, t.answered))
  {
    hide Requested, RunEvents.Completed, Consistent, Left, Keys, Counted, AcceptedCalls, RequestsMade, IdsOfCalls;
    var calls := AcceptedCalls(script[from]);
    ConsistentNext(start, r.journal, t.run.journal, calls, t.answered);
    CallsAsked(calls, t.flow, t.answered);
    AddsNothing(r.recorded);
    Associates(RunEvents.Completed(r.events), IdsOfCalls(calls[0..t.answered]),
      OpenIds(Stop(t.flow), calls, t.answered));
  }

  lemma CallsAsked(calls: seq<ToolCall>, flow: Flow, n: nat)
    requires n <= |calls| && Asked(flow, n) <= |calls|
    ensures IdsOfCalls(calls[0..Asked(flow, n)]) == IdsOfCalls(calls[0..n]) + OpenIds(Stop(flow), calls, n)
  {
  }

  /** Whatever the script: the journal stays consistent, every announced call is
      completed except the one a run stalls or breaks at, and the counted operations
      are those of the script. */
  lemma {:induction false} RunFromLeaves(cfg: Config, start: seq<Message>, r: Run, script: seq<StepInput>, from: nat)
    requires from <= |script| && (r.maxSteps.Some? ==> from <= r.maxSteps.value)
    requires Consistent(start, r.journal, [], 0) && Requested(r.events) == RunEvents.Completed(r.events)
    ensures RunLeft(cfg, start, r, script, from, RunFrom(cfg, r, script, from))
    decreases |script| - from
  {
    hide Requested, RunEvents.Completed, Consistent, RunMachine.Finished, StepTurn, RunLeft, Leaves, AcceptedCalls,
         RequestsMade;
    if r.maxSteps.Some? && from >= r.maxSteps.value {
      FinishedSilent(r, OutOfSteps, r.maxSteps.value);
      NothingRuns(cfg, start, r, RunMachine.Finished(r, OutOfSteps, r.maxSteps.value), script, from,
        Closed(OutOfSteps));
    } else if from == |script| {
      NothingSilent(r);
      NothingRuns(cfg, start, r, r, script, from, Pending);
    } else {
      var summaryRound := InSummaryRound(cfg, r.maxSteps, from + 1);
      var t := StepTurn(cfg, r, script[from], from + 1, summaryRound);
      StepLeaves(cfg, r, script[from], from + 1, summaryRound);
      if t.flow == Continue {
        StepClean(cfg, start, r, t, script[from]);
        RunFromLeaves(cfg, start, t.run, script, from + 1);
        RunLeftNext(cfg, start, r, t, script, from, RunFrom(cfg, t.run, script, from + 1));
      } else {
        NotOutOfSteps(cfg, r, t, script[from]);
        RunLeftLast(cfg, start, r, t, script, from);
      }
    }
  }

  lemma NotOutOfSteps(cfg: Config, r: Run, t: Turn, input: StepInput)
    requires Leaves(cfg, r, t, AcceptedCalls(input), RequestsMade(input))
    ensures t.flow != Ended(OutOfSteps)
  {
    hide Adds, Left, CountsAs;
  }

  /** A step that goes on leaves no call open. */
  lemma StepClean(cfg: Config, start: seq<Message>, r: Run, t: Turn, input: StepInput)
    requires Leaves(cfg, r, t, AcceptedCalls(input), RequestsMade(input)) && t.flow == Continue
    requires Consistent(start, r.journal, [], 0) && Requested(r.events) == RunEvents.Completed(r.events)
    ensures Consistent(start, t.run.journal, [], 0) && Requested(t.run.events) == RunEvents.Completed(t.run.events)
    ensures t.run.maxSteps == r.maxSteps
  {
    hide Requested, RunEvents.Completed, Consistent, Left, CountsAs, AcceptedCalls, RequestsMade;
    ConsistentNext(start, r.journal, t.run.journal, AcceptedCalls(input), t.answered);
  }

  lemma NothingRuns(
    cfg: Config, start: seq<Message>, r: Run, run: Run, script: seq<StepInput>, from: nat, outcome: RunOutcome)
    requires from <= |script| && Silent(r, run) && (outcome == Pending || outcome == Closed(OutOfSteps))
    requires Consistent(start, r.journal, [], 0) && Requested(r.events) == RunEvents.Completed(r.events)
    ensures RunLeft(cfg, start, r, script, from, Result(run, outcome, from, 0))
  {
    hide Requested, RunEvents.Completed, Consistent;
    AddsNothing(r.recorded);
    AddsNothing(RunEvents.Completed(r.events));
  }

  // ---- from one run to the next ----

  /** The first messages of a run keep a journal legal. */
  lemma OpeningKept(cfg: Config, opening: Option<Message>, ms: seq<Message>, task: string, initialize: bool)
    requires Kept(ms) && (opening.Some? ==> opening.value.role.User?)
    ensures Kept(ms + Opening(cfg, opening, task, initialize))
  {
    hide Kept;
    if initialize {
      var first, second := Plain(System, cfg.systemMessage), Opening(cfg, opening, task, initialize)[1];
      PlainKept(ms, first);
      PlainKept(ms + [first], second);
      assert ms + Opening(cfg, opening, task, initialize) == ms + [first] + [second];
    } else {
      PlainKept(ms, Plain(User, task));
    }
  }

  /** What a run leaves is ready for the next one. */
  lemma RanReady(cfg: Config, script: seq<StepInput>, run: Run, outcome: RunOutcome)
    requires Ran(cfg, script, run, outcome) && run.opening.None?
    ensures Ready(cfg, run)
  {
    hide Ongoing, RunEvents.Finished, StartsOk, FailuresOf, Walked, RunLength, BelowStall, StartPositions, EndsRight,
         Completion.Justified, DealOk;
  }

  lemma RenewedReady(cfg: Config, r: Run)
    requires Ready(cfg, r)
    ensures Ready(cfg, Renewed(r)) && Renewed(r).state == Created
  {
  }

  /** A task on an agent that is ready: what every moment keeps and what is left,
      over every script. */
  lemma TaskRuns(cfg: Config, r: Run, task: string, initialize: bool, script: seq<StepInput>)
    requires Ready(cfg, r)
    ensures var result := TaskRun(cfg, r, task, initialize, script);
            && Ready(cfg, result.run)
            && (result.outcome.Rejected? <==> !(ValidTask(task) && CanMove(r.state, Preparing)))
            && (!result.outcome.Rejected? ==>
                  && Ran(cfg, script, result.run, result.outcome)
                  && RunLeft(cfg, r.journal + Opening(cfg, r.opening, task, initialize),
                     Begun(cfg, r, task, initialize),
                             script, 0, result))
  {
    hide Ready, Live, RunFrom, RunLeft, Ran, Opening, ValidTask, Consistent, Requested, RunEvents.Completed;
    var result := TaskRun(cfg, r, task, initialize, script);
    if ValidTask(task) && CanMove(r.state, Preparing) {
      var begun := Begun(cfg, r, task, initialize);
      BegunLive(cfg, r, task, initialize, script);
      RunFromRan(cfg, begun, script, 0);
      ConsistentStart(begun.journal);
      assert begun.events == [Event(RunStarted, r.sequence, 0)];
      AnnouncedOne(begun.events[0]);
      RunFromLeaves(cfg, begun.journal, begun, script, 0);
      LeftMeans(cfg, begun.journal, begun, script, result);
      RanReady(cfg, script, result.run, result.outcome);
    }
  }

  lemma LeftMeans(cfg: Config, start: seq<Message>, r: Run, script: seq<StepInput>, result: Result)
    requires RunLeft(cfg, start, r, script, 0, result)
    ensures !result.outcome.Rejected? && result.run.opening == r.opening
  {
    hide Requested, RunEvents.Completed, Consistent, CountsRun, LastCalls;
  }

  /** What the caller of a run can rely on when it looks at the agent again. */
  ghost predicate Reports(r: Run, result: Result) {
    var run := result.run;
    && r.modelCalls <= run.modelCalls && (r.maxSteps.Some? ==> result.steps <= r.maxSteps.value)
    && match result.outcome
       case Rejected => run.sequence == r.sequence && result.steps == 0
       case Closed(ending) =>
         && run.first == r.sequence && run.sequence == r.sequence + |run.events|
         && RunEvents.Finished(run.events, r.sequence)
         && run.events[|run.events| - 1].kind == TerminalKind(ending)
         && (ending == Done ==>
               result.steps <= run.modelCalls - r.modelCalls && Completion.Justified(run.trace))
       case _ => run.first == r.sequence && run.sequence == r.sequence + |run.events| && Ongoing(run.events, r.sequence)
  }

  lemma TaskReports(cfg: Config, r: Run, task: string, initialize: bool, script: seq<StepInput>)
    requires Ready(cfg, r)
    ensures Reports(r, TaskRun(cfg, r, task, initialize, script))
  {
    hide Ready, RunFrom, Opening, ValidTask, Ongoing, RunEvents.Finished, Walked, Backed, Within, Consistent,
         Completion.Justified, Requested, RunEvents.Completed, LastCalls, CountsRun, RunLength, BelowStall;
    TaskRuns(cfg, r, task, initialize, script);
  }

  lemma FirstReports(cfg: Config, r: Run, task: string, script: seq<StepInput>)
    requires Ready(cfg, r)
    ensures Reports(r, FirstRun(cfg, r, task, script)) && Ready(cfg, FirstRun(cfg, r, task, script).run)
  {
    hide TaskRun, RunLength, BelowStall, FailuresOf, Ongoing, RunEvents.Finished, Completion.Justified, RunLeft, Ran;
    TaskReports(cfg, r.(repaired := false), task, true, script);
    TaskRuns(cfg, r.(repaired := false), task, true, script);
  }

  lemma FurtherReports(cfg: Config, r: Run, task: string, script: seq<StepInput>)
    requires Ready(cfg, r)
    ensures Reports(r, FurtherRun(cfg, r, task, script)) && Ready(cfg, FurtherRun(cfg, r, task, script).run)
  {
    hide TaskRun, RunLength, BelowStall, FailuresOf, Ongoing, RunEvents.Finished, Completion.Justified, RunLeft, Ran;
    RenewedReady(cfg, r);
    TaskReports(cfg, Renewed(r), task, false, script);
    TaskRuns(cfg, Renewed(r), task, false, script);
  }
}
