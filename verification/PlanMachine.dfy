/** The runs a plan makes of its agent, as a function of what the world answers: the
    specification of the controller's use of the agent. */
module PlanMachine {
  import opened Text
  import opened Messages
  import opened RunStates
  import opened RunEvents
  import opened RunJournal
  import opened RunMachine
  import opened RunSafety
  import opened RunOutcomes
  import opened RunTasks

  /** What is left of a budget. */
  function Rest(budget: nat, used: nat): nat {
    if used > budget then 0 else budget - used
  }

  /** How many of the first `k` events of a run are passed on. */
  function Passed(run: seq<Event>, k: nat): nat
    requires k <= |run|
  {
    if k == 0 then 0 else if Terminal(run[k - 1].kind) && k > 1 then k - 2 else k - 1
  }

  /** Where a plan stands: its agent, the next public number and the turns left. */
  datatype Stage = Stage(run: Run, sequence: nat, remaining: nat)

  /** The agent's run of one step: the first one opens the journal, the others go on. */
  function StepRun(
    cfg: Config, r: Run, index: nat, budget: Option<nat>, sequence: nat, task: string, script: seq<StepInput>): Result
  {
    var launched := r.(maxSteps := budget, sequence := sequence);
    if index == 0 then FirstRun(cfg, launched, task, script) else FurtherRun(cfg, launched, task, script)
  }

  /** How many events of a run become public. */
  function Announced(result: Result): nat {
    if result.outcome.Rejected? then 0 else Passed(result.run.events, |result.run.events|)
  }

  /** After the run of a step, which was announced by one event. */
  function Behind(stage: Stage, result: Result): Stage {
    var calls := result.run.modelCalls;
    Stage(result.run, stage.sequence + 1 + Announced(result),
          Rest(stage.remaining, if calls < stage.run.modelCalls then 0 else calls - stage.run.modelCalls))
  }

  /** After a completed step: one more event, and a checkpoint unless it was the last. */
  function Recorded(stage: Stage, last: bool, summary: string): Stage {
    stage.(sequence := stage.sequence + 1, run := if last then stage.run else Checkpointed(stage.run, summary))
  }

  /** How far a plan gets, and what the run it stopped at came to. */
  datatype Walk = Walk(stage: Stage, reached: nat, last: Option<RunOutcome>)

  function RunStepAt(
    cfg: Config, stage: Stage, tasks: nat -> string, scripts: nat -> seq<StepInput>, index: nat): Result
  {
    StepRun(cfg, stage.run, index, Some(stage.remaining), stage.sequence + 1, tasks(index), scripts(index))
  }

  /** The steps from number `index` on, as long as there are turns left and each one
      completes. */
  function StepsFrom(
    cfg: Config, stage: Stage, count: nat, tasks: nat -> string, summaries: nat -> string,
    scripts: nat -> seq<StepInput>, index: nat): Walk
    requires index <= count
    decreases count - index
  {
    if index == count || stage.remaining < 1 then Walk(stage, index, None)
    else
      var result := RunStepAt(cfg, stage, tasks, scripts, index);
      var after := Behind(stage, result);
      if result.outcome != Closed(Done) then Walk(after, index, Some(result.outcome))
      else
        StepsFrom(cfg, Recorded(after, index + 1 == count, summaries(index)), count, tasks, summaries, scripts,
          index + 1)
  }

  /** Every request of a run is taken off the budget, which never falls below nothing. */
  lemma RunSpends(stage: Stage, result: Result)
    requires result.run.modelCalls >= stage.run.modelCalls
    ensures var made := result.run.modelCalls - stage.run.modelCalls;
            && (made <= stage.remaining ==> Behind(stage, result).remaining == stage.remaining - made)
            && (made >= stage.remaining ==> Behind(stage, result).remaining == 0)
  {
  }

  lemma WalkNext(
    cfg: Config, stage: Stage, count: nat, tasks: nat -> string, summaries: nat -> string,
    scripts: nat -> seq<StepInput>, index: nat)
    requires index <= count
    ensures var walk := StepsFrom(cfg, stage, count, tasks, summaries, scripts, index);
            if index == count || stage.remaining < 1 then walk == Walk(stage, index, None)
            else
              var result := StepRun(cfg, stage.run, index, Some(stage.remaining), stage.sequence + 1, tasks(index),
                                    scripts(index));
              if result.outcome != Closed(Done) then walk == Walk(Behind(stage, result), index, Some(result.outcome))
              else
                var next := Recorded(Behind(stage, result), index + 1 == count, summaries(index));
                walk == StepsFrom(cfg, next, count, tasks, summaries, scripts, index + 1)
  {
    hide StepRun, Behind, Recorded;
  }

  /** The runs of a whole plan: none when no step is left, one for all steps without a
      budget, and one for each step otherwise. */
  function PlanRuns(
    cfg: Config, stage: Stage, count: nat, budgeted: bool, task: string, script: seq<StepInput>,
    tasks: nat -> string, summaries: nat -> string, scripts: nat -> seq<StepInput>): Walk
  {
    if count == 0 then Walk(stage, 0, None)
    else if budgeted then StepsFrom(cfg, stage, count, tasks, summaries, scripts, 0)
    else
      var result := StepRun(cfg, stage.run, 0, None, stage.sequence + 1, task, script);
      if result.outcome == Closed(Done) then Walk(Behind(stage, result), count, None)
      else Walk(Behind(stage, result), 0, Some(result.outcome))
  }

  // ---- every step of a plan runs ----

  /** Before step `index` the agent is new, or its last run has ended. */
  ghost predicate Standing(cfg: Config, r: Run, index: nat) {
    Ready(cfg, r) && if index == 0 then r.state == Created else r.state in TERMINAL_STATES
  }

  /** The run of a step is refused exactly when its text is invalid. */
  lemma StepStarts(
    cfg: Config, r: Run, index: nat, budget: Option<nat>, sequence: nat, task: string, script: seq<StepInput>)
    requires Standing(cfg, r, index)
    ensures var result := StepRun(cfg, r, index, budget, sequence, task, script);
            && Ready(cfg, result.run)
            && (result.outcome.Rejected? <==> !ValidTask(task))
            && (result.outcome.Closed? ==> result.run.state in TERMINAL_STATES)
            && result.run.modelCalls >= r.modelCalls
  {
    hide ValidTask, FirstRun, FurtherRun, Reports, RunEvents.Finished, Ongoing, Ran, Ready;
    var launched := r.(maxSteps := budget, sequence := sequence);
    StillReady(cfg, r, budget, sequence);
    if index == 0 {
      FirstOpens(cfg, launched, task, script);
      FirstReports(cfg, launched, task, script);
      FirstEnds(cfg, launched, task, script);
    } else {
      FurtherOpens(cfg, launched, task, script);
      FurtherReports(cfg, launched, task, script);
      FurtherEnds(cfg, launched, task, script);
    }
    CallsReported(launched, StepRun(cfg, r, index, budget, sequence, task, script));
  }

  lemma CallsReported(r: Run, result: Result)
    requires Reports(r, result)
    ensures r.modelCalls <= result.run.modelCalls
  {
    hide RunEvents.Finished, Ongoing;
  }

  lemma StillReady(cfg: Config, r: Run, budget: Option<nat>, sequence: nat)
    requires Ready(cfg, r)
    ensures Ready(cfg, r.(maxSteps := budget, sequence := sequence))
  {
    hide BelowStall, FailuresOf;
  }

  lemma FirstEnds(cfg: Config, r: Run, task: string, script: seq<StepInput>)
    requires Ready(cfg, r)
    ensures var result := FirstRun(cfg, r, task, script);
            result.outcome.Closed? ==> result.run.state == TerminalState(result.outcome.ending)
  {
    hide TaskRun, ValidTask, RunLeft, Near, Backed, RunEvents.Finished, Walked, EndsRight;
    TaskRuns(cfg, r.(repaired := false), task, true, script);
  }

  lemma FurtherEnds(cfg: Config, r: Run, task: string, script: seq<StepInput>)
    requires Ready(cfg, r)
    ensures var result := FurtherRun(cfg, r, task, script);
            result.outcome.Closed? ==> result.run.state == TerminalState(result.outcome.ending)
  {
    hide TaskRun, ValidTask, RunLeft, Near, Backed, RunEvents.Finished, Walked, EndsRight;
    if r.state in TERMINAL_STATES {
      RenewedReady(cfg, r);
      TaskRuns(cfg, Renewed(r), task, false, script);
    }
  }

  lemma CheckpointReady(cfg: Config, r: Run, summary: string)
    requires Ready(cfg, r)
    ensures Ready(cfg, Checkpointed(r, summary)) && Checkpointed(r, summary).state == r.state
  {
    hide BelowStall, FailuresOf;
  }

  /** A plan stops at a run that was refused exactly when the text of that step is
      invalid: every step it comes to runs. */
  lemma {:induction false} EveryStepRuns(
    cfg: Config, stage: Stage, count: nat, tasks: nat -> string, summaries: nat -> string,
    scripts: nat -> seq<StepInput>, index: nat)
    requires index <= count && Standing(cfg, stage.run, index)
    ensures var walk := StepsFrom(cfg, stage, count, tasks, summaries, scripts, index);
            && index <= walk.reached <= count
            && (walk.last.Some? ==>
                  walk.reached < count && (walk.last.value.Rejected? <==> !ValidTask(tasks(walk.reached))))
            && (walk.last.None? ==> walk.reached == count || walk.stage.remaining == 0)
    decreases count - index
  {
    hide StepRun, ValidTask, Ready;
    if index < count && stage.remaining >= 1 {
      var result := RunStepAt(cfg, stage, tasks, scripts, index);
      StepStarts(cfg, stage.run, index, Some(stage.remaining), stage.sequence + 1, tasks(index), scripts(index));
      if result.outcome == Closed(Done) {
        CheckpointReady(cfg, result.run, summaries(index));
        EveryStepRuns(cfg, Recorded(Behind(stage, result), index + 1 == count, summaries(index)), count, tasks,
                      summaries, scripts, index + 1);
      }
    }
  }

  /** The same of the whole plan of a new agent: it comes to an end, unless the world
      has not answered yet, a run broke, or a text is invalid. */
  lemma PlanStarts(
    cfg: Config, stage: Stage, count: nat, budgeted: bool, task: string, script: seq<StepInput>,
    tasks: nat -> string, summaries: nat -> string, scripts: nat -> seq<StepInput>)
    requires Standing(cfg, stage.run, 0)
    ensures var walk := PlanRuns(cfg, stage, count, budgeted, task, script, tasks, summaries, scripts);
            && (walk.last.Some? ==>
                  && walk.reached < count
                  && (walk.last.value.Rejected? <==> !ValidTask(if budgeted then tasks(walk.reached) else task)))
            && (walk.last.None? ==> walk.reached == count || (budgeted && walk.stage.remaining == 0))
  {
    hide StepRun, ValidTask, Ready, Behind;
    if count > 0 {
      if budgeted {
        EveryStepRuns(cfg, stage, count, tasks, summaries, scripts, 0);
      } else {
        StepStarts(cfg, stage.run, 0, None, stage.sequence + 1, task, script);
      }
    }
  }

  /** What a further step shows the model: the system messages, the summary of what was
      done, and its own task; the public history is dropped. Behind the last step the
      context stays. */
  lemma NextStepOpens(
    cfg: Config, stage: Stage, summary: string, tasks: nat -> string, scripts: nat -> seq<StepInput>, index: nat)
    requires Standing(cfg, stage.run, index) && index > 0 && ValidTask(tasks(index))
    ensures var next := Recorded(stage, false, summary);
            && next.run.history == []
            && Systems(stage.run.journal)
               + [Message(User, summary, [], None), Message(User, tasks(index), [], None)]
               <= RunStepAt(cfg, next, tasks, scripts, index).run.journal
    ensures Recorded(stage, true, summary).run == stage.run
  {
    hide ValidTask, FurtherRun, Ready, Systems;
    var next := Recorded(stage, false, summary);
    CheckpointReady(cfg, stage.run, summary);
    StillReady(cfg, next.run, Some(next.remaining), next.sequence + 1);
    FurtherOpens(cfg, next.run.(maxSteps := Some(next.remaining), sequence := next.sequence + 1), tasks(index),
                 scripts(index));
  }
}
