/** How a run ends: which step ends it, and what that step's input says. */
module RunEndings {
  import opened Text
  import opened Messages
  import Completion
  import opened RunEvents
  import opened RunJournal
  import opened RunMachine
  import opened RunSafety
  import opened RunRecords
  import opened RunOutcomes

  // ---- what the script says ----

  /** The text of the response a step accepts, if it accepts one. */
  function AcceptedText(input: StepInput): Option<string> {
    if input.cancelled || input.projection.Unprojected? then None
    else if input.reply.Responded? then Some(input.reply.content)
    else if SentAgain(input) && input.secondReply.Responded? then Some(input.secondReply.content)
    else None
  }

  /** The model cannot be asked because the run is cancelled meanwhile. */
  predicate RequestCancelled(input: StepInput) {
    || input.projection == Unprojected(CancelRequest)
    || (input.projection.Projected?
        && (|| input.reply == Broken(CancelRequest)
            || (input.reply.ContextTooLong? && input.recovery == Unprojected(CancelRequest))
            || (SentAgain(input) && input.secondReply == Broken(CancelRequest))))
  }

  /** The first malformed reply is answered by a repair. */
  predicate IsRepaired(r: Run, input: StepInput) {
    input.projection.Projected? && input.reply.Malformed? && !r.repaired
  }

  /** The response says that the task is done, and the evidence carries it. */
  ghost predicate Completes(cfg: Config, trace: seq<Completion.Entry>, input: StepInput, summaryRound: bool) {
    var text, calls := AcceptedText(input), AcceptedCalls(input);
    && text.Some? && !SummaryEnds(cfg, summaryRound, calls) && Completion.Justified(trace)
    && if calls == [] then NonBlank(text.value) else ReportsOutcome(calls) && input.outcome.ReportsCompleted?
  }

  /** The response reports that the task is not done. */
  predicate GivesUp(cfg: Config, input: StepInput, summaryRound: bool) {
    && AcceptedText(input).Some? && !SummaryEnds(cfg, summaryRound, AcceptedCalls(input))
    && ReportsOutcome(AcceptedCalls(input)) && input.outcome.ReportsIncomplete?
  }

  /** There is no response, no repair and no cancellation. */
  predicate StaysSilent(r: Run, input: StepInput) {
    !input.cancelled && AcceptedText(input).None? && !IsRepaired(r, input) && !RequestCancelled(input)
  }

  // ---- one step ----

  lemma AnswerAsScripted(cfg: Config, r: Run, input: StepInput, step: nat)
    requires !input.cancelled
    ensures var reached := ModelTurn(cfg, r, input, step);
            && AcceptedText(input) == (if reached.answer.Accepted? then Some(reached.answer.content) else None)
            && (reached.answer.Repaired? <==> IsRepaired(r, input))
            && (reached.answer.Gone? ==> (reached.answer.failure.CancelRequest? <==> RequestCancelled(input)))
            && (input.projection.Projected? ==> reached.run.repaired == (r.repaired || input.reply.Malformed?))
  {
  }

  lemma ActEnds(
    cfg: Config, r: Run, content: string, calls: seq<ToolCall>, input: StepInput, step: nat, summaryRound: bool)
    ensures var flow := ActTurn(cfg, r, content, calls, input, step, summaryRound).flow;
            && (flow == Ended(Done) <==>
                  && !SummaryEnds(cfg, summaryRound, calls) && Completion.Justified(r.trace)
                  && if calls == [] then NonBlank(content)
                     else ReportsOutcome(calls) && input.outcome.ReportsCompleted?)
            && (flow == Ended(Reported) <==>
                  !SummaryEnds(cfg, summaryRound, calls) && ReportsOutcome(calls) && input.outcome.ReportsIncomplete?)
            && (flow == Ended(SummaryRound) <==> SummaryEnds(cfg, summaryRound, calls))
            && flow != Ended(ModelFailed)
  {
    hide InputTurn, OutcomeTurn, AllCallsTurn, TextTurn, SummaryEnds, RunMachine.Finished, Completion.Justified,
         NonBlank;
    if !SummaryEnds(cfg, summaryRound, calls) {
      if calls == [] {
        TextFlow(cfg, r, content, step);
      } else {
        InputFlow(cfg, r, calls[0], input.answer, step);
        OutcomeFlow(cfg, r, calls[0], input.outcome, step);
        AllCallsFlow(cfg, r, calls, step, input.calls);
      }
    }
  }

  lemma ResponseEnds(cfg: Config, r: Run, reached: Reached, input: StepInput, step: nat, summaryRound: bool)
    requires reached.answer.Accepted? && reached.run.trace == r.trace
    requires AcceptedText(input) == Some(reached.answer.content) && AcceptedCalls(input) == reached.answer.calls
    ensures var flow := AnsweredTurn(cfg, reached, input, step, summaryRound).flow;
            && (flow == Ended(Done) <==> Completes(cfg, r.trace, input, summaryRound))
            && (flow == Ended(Reported) <==> GivesUp(cfg, input, summaryRound))
            && (flow == Ended(SummaryRound) <==> SummaryEnds(cfg, summaryRound, AcceptedCalls(input)))
            && flow != Ended(ModelFailed)
  {
    hide ActTurn, AcceptedText, AcceptedCalls, SummaryEnds, Completion.Justified, NonBlank;
    var content, calls := reached.answer.content, reached.answer.calls;
    var said := Said(reached.run, Message(Assistant, content, calls, None));
    var reported := if reached.answer.usage then Emitted(said, UsageReported, step) else said;
    ActEnds(cfg, reported, content, calls, input, step, summaryRound);
  }

  /** Exactly which inputs end a run as completed, as reported incomplete, in the
      reserved round and for want of a response. */
  lemma StepEnds(cfg: Config, r: Run, input: StepInput, step: nat, summaryRound: bool)
    ensures var flow := StepTurn(cfg, r, input, step, summaryRound).flow;
            && (flow == Ended(Done) <==> Completes(cfg, r.trace, input, summaryRound))
            && (flow == Ended(Reported) <==> GivesUp(cfg, input, summaryRound))
            && (flow == Ended(SummaryRound) <==>
                  AcceptedText(input).Some? && SummaryEnds(cfg, summaryRound, AcceptedCalls(input)))
            && (flow == Ended(ModelFailed) <==> StaysSilent(r, input))
  {
    hide ModelTurn, GoneTurn, ResponseTurn, AcceptedCalls, SummaryEnds, RunMachine.Finished, RequestCancelled,
         Completion.Justified, NonBlank, RequestsMade, Adds;
    if !input.cancelled {
      var begun := Emitted(r, StepStarted, step);
      var reached := ModelTurn(cfg, begun, input, step);
      AnswerAsScripted(cfg, begun, input, step);
      AcceptedAsScripted(cfg, begun, input, step);
      ModelReaches(cfg, begun, input, step);
      match reached.answer
      case Repaired =>
      case Gone(failure) => GoneLeaves(reached.run, failure, step);
      case Accepted(_, _, _) => ResponseEnds(cfg, r, reached, input, step, summaryRound);
    }
  }

  // ---- whole runs ----

  /** The run before its step number `k + 1`, or where it ended. */
  function Head(cfg: Config, r: Run, script: seq<StepInput>, k: nat): Turn
    requires k <= |script|
  {
    if k == 0 then Turn(r, Continue, 0)
    else
      var before := Head(cfg, r, script, k - 1);
      if before.flow != Continue then before
      else StepTurn(cfg, before.run, script[k - 1], k, InSummaryRound(cfg, r.maxSteps, k))
  }

  /** Step number `k + 1` is made. */
  predicate Made(cfg: Config, r: Run, script: seq<StepInput>, k: nat)
    requires k <= |script|
  {
    Head(cfg, r, script, k).flow == Continue && (r.maxSteps.Some? ==> k < r.maxSteps.value)
  }

  /** Step number `k + 1` is made and goes this way. */
  ghost predicate EndsAt(cfg: Config, r: Run, script: seq<StepInput>, k: nat, flow: Flow)
    requires k < |script|
  {
    && Made(cfg, r, script, k)
    && StepTurn(cfg, Head(cfg, r, script, k).run, script[k], k + 1, InSummaryRound(cfg, r.maxSteps, k + 1)).flow == flow
  }

  lemma {:induction false} HeadStays(cfg: Config, r: Run, script: seq<StepInput>, j: nat, k: nat)
    requires j <= k <= |script| && Head(cfg, r, script, j).flow != Continue
    ensures Head(cfg, r, script, k).flow != Continue
    decreases k
  {
    hide StepTurn;
    if j < k {
      HeadStays(cfg, r, script, j, k - 1);
    }
  }

  lemma {:induction false} HeadSteps(cfg: Config, r: Run, script: seq<StepInput>, k: nat)
    requires k <= |script|
    ensures Head(cfg, r, script, k).run.maxSteps == r.maxSteps
  {
    hide StepTurn, Left, IdsOfCalls, CountsAs, AcceptedCalls, RequestsMade;
    if k > 0 {
      HeadSteps(cfg, r, script, k - 1);
      var before := Head(cfg, r, script, k - 1);
      if before.flow == Continue {
        StepLeaves(cfg, before.run, script[k - 1], k, InSummaryRound(cfg, r.maxSteps, k));
      }
    }
  }

  lemma {:induction false} EndedFrom(cfg: Config, r: Run, script: seq<StepInput>, k: nat, flow: Flow)
    requires k <= |script| && (r.maxSteps.Some? ==> k <= r.maxSteps.value) && Head(cfg, r, script, k).flow == Continue
    requires flow != Continue && flow != Ended(OutOfSteps)
    ensures RunFrom(cfg, Head(cfg, r, script, k).run, script, k).outcome == Stop(flow)
            <==> exists j :: k <= j < |script| && EndsAt(cfg, r, script, j, flow)
    decreases |script| - k
  {
    hide StepTurn, RunMachine.Finished, EndsAt;
    HeadSteps(cfg, r, script, k);
    if r.maxSteps == Some(k) || k == |script| {
      forall j | k <= j < |script| ensures !EndsAt(cfg, r, script, j, flow) {
        NotMade(cfg, r, script, j, flow);
      }
    } else {
      var t := Head(cfg, r, script, k + 1);
      EndsHere(cfg, r, script, k, flow);
      if t.flow == Continue {
        EndedFrom(cfg, r, script, k + 1, flow);
        EndsLater(cfg, r, script, k, flow);
      } else {
        forall j | k < j < |script| ensures !EndsAt(cfg, r, script, j, flow) {
          HeadStays(cfg, r, script, k + 1, j);
          NotMade(cfg, r, script, j, flow);
        }
      }
    }
  }

  lemma NotMade(cfg: Config, r: Run, script: seq<StepInput>, j: nat, flow: Flow)
    requires j < |script| && !Made(cfg, r, script, j)
    ensures !EndsAt(cfg, r, script, j, flow)
  {
    hide Head, StepTurn;
  }

  lemma {:induction false} EndsHere(cfg: Config, r: Run, script: seq<StepInput>, k: nat, flow: Flow)
    requires k < |script| && Made(cfg, r, script, k)
    ensures EndsAt(cfg, r, script, k, flow) <==> Head(cfg, r, script, k + 1).flow == flow
  {
    hide StepTurn;
  }

  lemma EndsLater(cfg: Config, r: Run, script: seq<StepInput>, k: nat, flow: Flow)
    requires k < |script| && !EndsAt(cfg, r, script, k, flow)
    ensures (exists j :: k <= j < |script| && EndsAt(cfg, r, script, j, flow))
            <==> exists j :: k + 1 <= j < |script| && EndsAt(cfg, r, script, j, flow)
  {
    hide EndsAt;
  }

  /** A run ends in a way exactly when a step it makes does. */
  lemma {:induction false} RunEndsIff(cfg: Config, r: Run, script: seq<StepInput>, flow: Flow)
    requires flow != Continue && flow != Ended(OutOfSteps)
    ensures RunFrom(cfg, r, script, 0).outcome == Stop(flow)
            <==> exists k :: 0 <= k < |script| && EndsAt(cfg, r, script, k, flow)
  {
    hide EndsAt, StepTurn;
    EndedFrom(cfg, r, script, 0, flow);
  }

  /** Step number `k + 1` is made, its response says that the task is done, and the
      evidence recorded by then carries it. */
  ghost predicate CompletesAt(cfg: Config, r: Run, script: seq<StepInput>, k: nat)
    requires k < |script|
  {
    && Made(cfg, r, script, k)
    && Completes(cfg, Head(cfg, r, script, k).run.trace, script[k], InSummaryRound(cfg, r.maxSteps, k + 1))
  }

  /** A run completes exactly when one of its steps says so on justified evidence. */
  lemma {:induction false} RunCompletesIff(cfg: Config, r: Run, script: seq<StepInput>)
    ensures RunFrom(cfg, r, script, 0).outcome == Closed(Done)
            <==> exists k :: 0 <= k < |script| && CompletesAt(cfg, r, script, k)
  {
    hide StepTurn, Completes, Made;
    RunEndsIff(cfg, r, script, Ended(Done));
    forall k | 0 <= k < |script| ensures EndsAt(cfg, r, script, k, Ended(Done)) <==> CompletesAt(cfg, r, script, k) {
      StepEnds(cfg, Head(cfg, r, script, k).run, script[k], k + 1, InSummaryRound(cfg, r.maxSteps, k + 1));
    }
  }

  /** The step a run fails at for want of a response. */
  ghost predicate SilentAt(cfg: Config, r: Run, script: seq<StepInput>, k: nat)
    requires k < |script|
  {
    Made(cfg, r, script, k) && StaysSilent(Head(cfg, r, script, k).run, script[k])
  }

  /** A run fails before a response exactly when a step gets none, is not repaired and
      is not cancelled. */
  lemma {:induction false} RunFailsIff(cfg: Config, r: Run, script: seq<StepInput>)
    ensures RunFrom(cfg, r, script, 0).outcome == Closed(ModelFailed)
            <==> exists k :: 0 <= k < |script| && SilentAt(cfg, r, script, k)
  {
    hide StepTurn, StaysSilent, Made;
    RunEndsIff(cfg, r, script, Ended(ModelFailed));
    forall k | 0 <= k < |script|
      ensures EndsAt(cfg, r, script, k, Ended(ModelFailed)) <==> SilentAt(cfg, r, script, k) {
      StepEnds(cfg, Head(cfg, r, script, k).run, script[k], k + 1, InSummaryRound(cfg, r.maxSteps, k + 1));
    }
  }
}
