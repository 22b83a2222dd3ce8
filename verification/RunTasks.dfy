/** From one task of an agent to the next: what each one opens with, and what is
    forgotten in between. */
module RunTasks {
  import opened Text
  import opened Messages
  import opened RunStates
  import opened RunEvents
  import opened RunMachine
  import opened RunSafety
  import opened RunOutcomes

  /** The message a first task shows the model: the one the application prepared, or
      the task itself. */
  function FirstMessage(opening: Option<Message>, task: string): Message {
    if opening.Some? then opening.value else Message(User, task, [], None)
  }

  /** Whatever happens in a run, its task is in the journal, behind all that was there:
      a first one behind the system contract. */
  lemma TaskOpens(cfg: Config, r: Run, task: string, initialize: bool, script: seq<StepInput>)
    requires Ready(cfg, r)
    ensures var result := TaskRun(cfg, r, task, initialize, script);
            if result.outcome.Rejected? then result.run == r
            else
              && result.run.opening.None?
              && r.journal + (if initialize
                              then [Message(System, cfg.systemMessage, [], None), FirstMessage(r.opening, task)]
                              else [Message(User, task, [], None)])
                 <= result.run.journal
  {
    hide Requested, RunEvents.Completed, Ran, CountsRun, LastCalls, LeavesOpen, RunFrom;
    TaskRuns(cfg, r, task, initialize, script);
  }

  /** A new agent refuses its first task exactly when the text is invalid; one that has
      ended a run refuses every first task. */
  lemma FirstOpens(cfg: Config, r: Run, task: string, script: seq<StepInput>)
    requires Ready(cfg, r)
    ensures var result := FirstRun(cfg, r, task, script);
            && (r.state == Created ==> (result.outcome.Rejected? <==> !ValidTask(task)))
            && (r.state in TERMINAL_STATES ==> result.outcome.Rejected?)
            && (!result.outcome.Rejected? ==>
                  r.journal + [Message(System, cfg.systemMessage, [], None), FirstMessage(r.opening, task)]
                  <= result.run.journal)
  {
    hide TaskRun, ValidTask, Ran, RunLeft;
    TaskOpens(cfg, r.(repaired := false), task, true, script);
    TaskRuns(cfg, r.(repaired := false), task, true, script);
  }

  /** A further task is refused exactly when its text is invalid or no run has ended;
      it is shown to the model behind everything that was said before. */
  lemma FurtherOpens(cfg: Config, r: Run, task: string, script: seq<StepInput>)
    requires Ready(cfg, r)
    ensures var result := FurtherRun(cfg, r, task, script);
            && (result.outcome.Rejected? <==> !ValidTask(task) || r.state !in TERMINAL_STATES)
            && if result.outcome.Rejected? then result.run.journal == r.journal
               else r.journal + [Message(User, task, [], None)] <= result.run.journal
  {
    hide TaskRun, ValidTask, Ran, RunLeft;
    if r.state in TERMINAL_STATES {
      RenewedReady(cfg, r);
      TaskOpens(cfg, Renewed(r), task, false, script);
      TaskRuns(cfg, Renewed(r), task, false, script);
    }
  }

  /** The valid texts: something visible in at most 32,000 characters. */
  lemma ValidTasks(task: string)
    ensures ValidTask(task) <==> |task| <= 32_000 && exists k :: 0 <= k < |task| && !IsSpace(task[k])
  {
  }

  /** A further task knows nothing of the earlier ones but what is in the journal: not
      their evidence, calls, failures, disabled tools, subtasks or repair. */
  lemma FurtherForgets(cfg: Config, r: Run, other: Run, task: string, script: seq<StepInput>)
    requires r.state in TERMINAL_STATES && other.state in TERMINAL_STATES
    requires other.journal == r.journal && other.history == r.history && other.opening == r.opening
    requires other.maxSteps == r.maxSteps && other.sequence == r.sequence
    requires other.modelCalls == r.modelCalls && other.toolCalls == r.toolCalls
    ensures FurtherRun(cfg, r, task, script).outcome == FurtherRun(cfg, other, task, script).outcome
    ensures ValidTask(task) ==> FurtherRun(cfg, r, task, script) == FurtherRun(cfg, other, task, script)
  {
    hide RunFrom, ValidTask;
    assert Begun(cfg, Renewed(r), task, false) == Begun(cfg, Renewed(other), task, false);
  }

  /** It starts on an agent that has called, recorded, delegated and repaired nothing. */
  lemma FurtherStartsAnew(cfg: Config, r: Run, task: string, script: seq<StepInput>)
    requires r.state in TERMINAL_STATES
    ensures var anew := r.(state := Created, trace := [], recorded := [], failures := [], dealt := [], known := 0,
                           disabled := {}, delegated := 0, repaired := false);
            FurtherRun(cfg, r, task, script) == TaskRun(cfg, anew, task, false, script)
  {
  }

  /** The step limits an agent takes: none, or 2 to 64 steps. */
  lemma AllowedLimits(maxSteps: Option<nat>)
    ensures AllowedLimit(maxSteps) <==> maxSteps.None? || 2 <= maxSteps.value <= 64
  {
  }

  /** How a task that came to an end is left: its last event and its state say the
      same, and say why. */
  lemma TaskCloses(cfg: Config, r: Run, task: string, initialize: bool, script: seq<StepInput>)
    requires Ready(cfg, r) && TaskRun(cfg, r, task, initialize, script).outcome.Closed?
    ensures var result := TaskRun(cfg, r, task, initialize, script);
            var (state, events) := (result.run.state, result.run.events);
            && events != []
            && var last := events[|events| - 1].kind;
               if result.outcome.ending == Done then state == RunState.Completed && last == RunCompleted
               else if result.outcome.ending in {Reported, OutOfSteps, SummaryRound}
               then state == Exhausted && last == RunIncomplete
               else if result.outcome.ending == Stopped then state == Cancelled && last == RunCancelled
               else state == Failed && last == RunFailed
  {
    hide RunLeft, Walked, Backed, EndsRight, RunFrom, ValidTask, Opening, Begun;
    TaskRuns(cfg, r, task, initialize, script);
  }
}
