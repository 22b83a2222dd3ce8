/** Plans that complete: each step looks at the workspace once and then says that it
    is done. */
module PlanCompletes {
  import opened Text
  import opened Messages
  import opened RunStates
  import opened RunEvents
  import opened RunJournal
  import opened Recovery
  import opened RunMachine
  import opened RunSafety
  import opened PlanMachine
  import Completion

  const READ := ToolCall("1", "workspace_read", "{\"path\":\"README.md\"}")

  /** What the registry and the tool do with the call. */
  function Reads(result: ToolResult): CallInput {
    CallInput(false, None, false, None, Wait.Refuse, Executed(result))
  }

  function Looks(result: ToolResult): StepInput {
    StepInput(false, Projected(false, ""), Responded("", [READ], false), Unprojected(OtherFailure), Malformed,
              AnswerExpired, BadOutcome(""), _ => Reads(result))
  }

  function Answers(text: string): StepInput {
    StepInput(false, Projected(false, ""), Responded(text, [], false), Unprojected(OtherFailure), Malformed,
              AnswerExpired, BadOutcome(""),
                _ => Reads(Completion.ToolResult(true, None, false, [], [], None, None, "")))
  }

  /** A result that is evidence and fits into the budget of a response. */
  predicate Seen(cfg: Config, result: ToolResult) {
    result.ok && !result.plugin && cfg.utf8Size(result.content) <= MAX_STEP_RESULT_BYTES
  }

  /** A run in which no tool has been called. */
  predicate Untouched(r: Run) {
    r.trace == [] && r.recorded == [] && r.failures == [] && r.disabled == {}
  }

  lemma ReadIsHandled(cfg: Config, r: Run, step: nat, result: ToolResult)
    requires Untouched(r) && Seen(cfg, result)
    ensures var h := CallTurn(cfg, r, [READ], 0, step, Reads(result), 0);
            && h.flow == Continue && h.run.trace == [Completion.Entry("workspace_read", result)]
            && h.run.modelCalls == r.modelCalls && h.run.maxSteps == r.maxSteps
  {
    var key := KeyOf(cfg, READ);
    assert [] + [key] == [key] && [key][..0] == [];
    assert RunLength([key]) == 1;
  }

  lemma LookedStep(cfg: Config, r: Run, step: nat, result: ToolResult)
    requires Untouched(r) && Seen(cfg, result)
    ensures var t := StepTurn(cfg, r, Looks(result), step, false);
            && t.flow == Continue && t.run.trace == [Completion.Entry("workspace_read", result)]
            && t.run.modelCalls == r.modelCalls + 1 && t.run.maxSteps == r.maxSteps
  {
    hide CallTurn;
    var input := Looks(result);
    var reached := ModelTurn(cfg, Emitted(r, StepStarted, step), input, step);
    var said := Said(reached.run, Message(Assistant, "", [READ], None));
    var progressed := Emitted(said, Progress, step);
    ReadIsHandled(cfg, progressed, step, result);
    assert CallsTurn(cfg, progressed, [READ], step, input.calls, 0) == Handled(progressed, Continue, 0, 0, false);
  }

  lemma AnsweredStep(cfg: Config, r: Run, step: nat, text: string)
    requires Completion.Accepts(r.trace) && NonBlank(text)
    ensures var t := StepTurn(cfg, r, Answers(text), step, false);
            && t.flow == Ended(Done) && t.run.modelCalls == r.modelCalls + 1 && t.run.state.Completed?
  {
    hide NonBlank, Completion.Accepts;
  }

  lemma ReadIsEvidence(cfg: Config, result: ToolResult)
    requires Seen(cfg, result)
    ensures Completion.Accepts([Completion.Entry("workspace_read", result)])
  {
    hide Completion.Replay, Completion.Validate;
    var trace := [Completion.Entry("workspace_read", result)];
    assert Completion.Observes(trace[0]) && !Completion.AttemptsMutation(trace[0]);
    Completion.AcceptedIff(trace);
  }

  function Script(result: ToolResult, text: string): seq<StepInput> {
    [Looks(result), Answers(text)]
  }

  /** A budget of two turns is enough for a step, and one turn is not. */
  lemma {:induction false} TwoTurns(cfg: Config, r: Run, result: ToolResult, text: string)
    requires Untouched(r) && Seen(cfg, result) && NonBlank(text) && !cfg.reserveSummaryRound
    requires r.maxSteps.Some? && r.maxSteps.value >= 1
    ensures var ran := RunFrom(cfg, r, Script(result, text), 0);
            if r.maxSteps.value >= 2 then ran.outcome == Closed(Done) && ran.run.modelCalls == r.modelCalls + 2
            else ran.outcome == Closed(OutOfSteps)
  {
    hide StepTurn, NonBlank, Seen, Completion.Accepts, Looks, Answers;
    var script := Script(result, text);
    LookedStep(cfg, r, 1, result);
    ReadIsEvidence(cfg, result);
    var first := StepTurn(cfg, r, script[0], 1, false);
    AnsweredStep(cfg, first.run, 2, text);
    var second := StepTurn(cfg, first.run, script[1], 2, false);
    assert r.maxSteps.value >= 2
           ==> RunFrom(cfg, first.run, script, 1) == Result(second.run, Closed(Done), 2, second.answered);
  }

  /** A step that may be run and has not called a tool before. */
  ghost predicate Fresh(cfg: Config, r: Run, index: nat) {
    Standing(cfg, r, index) && (index == 0 ==> Untouched(r))
  }

  lemma StepCompletes(
    cfg: Config, r: Run, index: nat, budget: nat, sequence: nat, task: string, result: ToolResult, text: string)
    requires Fresh(cfg, r, index) && !cfg.reserveSummaryRound && budget >= 1
    requires ValidTask(task) && Seen(cfg, result) && NonBlank(text)
    ensures var ran := StepRun(cfg, r, index, Some(budget), sequence, task, Script(result, text));
            if budget >= 2 then ran.outcome == Closed(Done) && ran.run.modelCalls == r.modelCalls + 2
            else ran.outcome == Closed(OutOfSteps)
  {
    hide ValidTask, RunFrom, NonBlank, Seen, Ready, Opening;
    var launched := r.(maxSteps := Some(budget), sequence := sequence);
    if index == 0 {
      TwoTurns(cfg, Begun(cfg, launched.(repaired := false), task, true), result, text);
    } else {
      TwoTurns(cfg, Begun(cfg, Renewed(launched), task, false), result, text);
    }
  }

  /** A plan whose steps each look once and then answer completes exactly when its
      budget holds two turns for each of them. */
  lemma {:induction false} AnsweredPlan(
    cfg: Config, stage: Stage, count: nat, tasks: nat -> string, summaries: nat -> string,
    scripts: nat -> seq<StepInput>, results: nat -> ToolResult, texts: nat -> string, index: nat)
    requires index <= count && Fresh(cfg, stage.run, index) && !cfg.reserveSummaryRound
    requires forall k | index <= k < count ::
               ValidTask(tasks(k)) && Seen(cfg, results(k)) && NonBlank(texts(k))
               && scripts(k) == Script(results(k), texts(k))
    ensures var walk := StepsFrom(cfg, stage, count, tasks, summaries, scripts, index);
            && (walk.last.None? && walk.reached == count <==> stage.remaining >= 2 * (count - index))
            && walk.reached == if stage.remaining >= 2 * (count - index) then count else index + stage.remaining / 2
    decreases count - index
  {
    hide StepRun, ValidTask, Seen, NonBlank, Ready, Untouched, Script;
    WalkNext(cfg, stage, count, tasks, summaries, scripts, index);
    if index < count && stage.remaining >= 1 {
      var result := RunStepAt(cfg, stage, tasks, scripts, index);
      StepStarts(cfg, stage.run, index, Some(stage.remaining), stage.sequence + 1, tasks(index), scripts(index));
      StepCompletes(cfg, stage.run, index, stage.remaining, stage.sequence + 1, tasks(index), results(index),
                    texts(index));
      if stage.remaining >= 2 {
        CheckpointReady(cfg, result.run, summaries(index));
        var next := Recorded(Behind(stage, result), index + 1 == count, summaries(index));
        assert next.remaining == stage.remaining - 2;
        AnsweredPlan(cfg, next, count, tasks, summaries, scripts, results, texts, index + 1);
      }
    }
  }
}
