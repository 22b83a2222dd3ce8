/** Execution of a confirmed plan over one agent
    (src/leanharness/planning/controller.py). */
module PlanExecution {
  import opened Text
  import opened RunEvents
  import Projection
  import opened RunMachine
  import opened RunSafety
  import opened RunOutcomes
  import opened RunBreaks
  import opened PlanMachine
  import opened Agent
  import Completion

  datatype StepState = StepPending | StepRunning | StepDone | StepFailed | StepSkipped

  datatype PlanStep = PlanStep(id: string, enabled: bool, state: StepState)

  datatype Update = Update(id: string, state: StepState)

  /** The events of a plan: its own, and runtime events under public numbers. */
  datatype PlanKind =
    | PlanStepStarted
    | PlanStepCompleted
    | PlanPaused
    | PlanFailed
    | PlanCancelled
    | PlanCompleted
    | Runtime(kind: EventKind)

  datatype PlanEvent = PlanEvent(kind: PlanKind, sequence: nat)

  datatype PlanOutcome = AllDone | Paused | PlanBroken | PlanStopped | Unfinished

  const RECOVERABLE_PERMISSION_CODES: set<string> :=
    {"TOOL_NOT_FOUND", "TOOL_UNAVAILABLE", "MUTATION_NOT_REQUESTED", "APPROVAL_UNAVAILABLE"}

  ghost predicate Consecutive(events: seq<PlanEvent>, first: nat) {
    forall k | 0 <= k < |events| :: events[k].sequence == first + k
  }

  /** An event that neither starts nor ends the public run. */
  predicate Inner(kind: PlanKind) {
    kind.Runtime? ==> kind.kind != RunStarted && !Terminal(kind.kind)
  }

  ghost predicate AllInner(events: seq<PlanEvent>) {
    forall k | 0 <= k < |events| :: Inner(events[k].kind)
  }

  /** A public run that ended: one terminal event, and it is the last. */
  ghost predicate EndsWith(events: seq<PlanEvent>, kind: EventKind) {
    && events != [] && AllInner(events[..|events| - 1])
    && Terminal(kind) && events[|events| - 1].kind == Runtime(kind)
  }

  function ToRun(steps: seq<PlanStep>): seq<PlanStep> {
    if steps == [] then []
    else
      var last := steps[|steps| - 1];
      ToRun(steps[..|steps| - 1]) + if last.enabled && !last.state.StepDone? then [last] else []
  }

  function DoneIds(steps: seq<PlanStep>): seq<string> {
    if steps == [] then []
    else
      var last := steps[|steps| - 1];
      DoneIds(steps[..|steps| - 1]) + if last.state.StepDone? then [last.id] else []
  }

  function Ids(steps: seq<PlanStep>): (ids: seq<string>)
    ensures |ids| == |steps|
  {
    seq(|steps|, k requires 0 <= k < |steps| => steps[k].id)
  }

  /** What is reported about steps that each ran and completed. */
  function Completions(steps: seq<PlanStep>): seq<Update> {
    if steps == [] then []
    else
      var id := steps[|steps| - 1].id;
      Completions(steps[..|steps| - 1]) + [Update(id, StepRunning), Update(id, StepDone)]
  }

  function Marked(steps: seq<PlanStep>, state: StepState): (out: seq<Update>)
    ensures |out| == |steps|
  {
    seq(|steps|, k requires 0 <= k < |steps| => Update(steps[k].id, state))
  }

  /** How the end of the agent's run ends the plan; completed runs go on. */
  function PlanEnd(ending: Ending): PlanOutcome {
    match TerminalKind(ending)
    case RunIncomplete => Paused
    case RunFailed => PlanBroken
    case _ => PlanStopped
  }

  /** The plan event that announces an outcome. */
  function OwnKind(outcome: PlanOutcome): PlanKind
    requires !outcome.Unfinished?
  {
    match outcome
    case AllDone => PlanCompleted
    case Paused => PlanPaused
    case PlanBroken => PlanFailed
    case PlanStopped => PlanCancelled
  }

  /** The runtime event that ends the public run with an outcome. */
  function LastKind(outcome: PlanOutcome): EventKind
    requires !outcome.Unfinished?
  {
    match outcome
    case AllDone => RunCompleted
    case Paused => RunIncomplete
    case PlanBroken => RunFailed
    case PlanStopped => RunCancelled
  }

  /** The first `n` inner events of a run under public numbers. */
  function Public(run: seq<Event>, n: nat, first: nat): (out: seq<PlanEvent>)
    requires n == 0 || n < |run|
    ensures |out| == n
    ensures forall k | 0 <= k < n :: out[k] == PlanEvent(Runtime(run[k + 1].kind), first + k)
  {
    seq(n, k requires 0 <= k < n => PlanEvent(Runtime(run[k + 1].kind), first + k))
  }

  lemma PublicNext(run: seq<Event>, n: nat, first: nat)
    requires n + 1 < |run|
    ensures Public(run, n + 1, first) == Public(run, n, first) + [PlanEvent(Runtime(run[n + 1].kind), first + n)]
  {
  }

  lemma InnerEvents(run: seq<Event>, first: nat)
    requires Ongoing(run, first) || RunEvents.Finished(run, first)
    ensures run != [] && run[0].kind == RunStarted
    ensures forall k | 0 < k < |run| :: run[k].kind != RunStarted && (Terminal(run[k].kind) ==> k == |run| - 1)
    ensures Ongoing(run, first) ==> Passed(run, |run|) == |run| - 1
    ensures RunEvents.Finished(run, first) ==> Passed(run, |run|) == |run| - 2
  {
    if RunEvents.Finished(run, first) {
      var older := run[..|run| - 1];
      forall k | 0 < k < |older| ensures run[k].kind != RunStarted && !Terminal(run[k].kind) {
        assert older[k].kind == run[k].kind;
      }
      assert older[0] == run[0];
    }
  }

  /** All inner events of a run under public numbers. */
  function AllPublic(run: seq<Event>, first: nat): (out: seq<PlanEvent>)
    ensures |out| == Passed(run, |run|)
  {
    Public(run, Passed(run, |run|), first)
  }

  lemma PublicInner(run: seq<Event>, first: nat, next: nat)
    requires Ongoing(run, first) || RunEvents.Finished(run, first)
    ensures AllInner(AllPublic(run, next))
    ensures Ongoing(run, first) ==> |AllPublic(run, next)| == |run| - 1
    ensures RunEvents.Finished(run, first) ==> |AllPublic(run, next)| == |run| - 2
  {
    InnerEvents(run, first);
  }

  /** Public events were added, none of them starting or ending the public run. */
  ghost predicate Grows(before: seq<PlanEvent>, after: seq<PlanEvent>) {
    before <= after && AllInner(after[|before|..])
  }

  lemma GrowsBy(before: seq<PlanEvent>, started: seq<PlanEvent>, after: seq<PlanEvent>, inner: seq<PlanEvent>)
    requires |started| == |before| + 1 && before <= started && Inner(started[|before|].kind)
    requires after == started + inner && AllInner(inner)
    ensures Grows(before, after)
  {
    forall k | |before| <= k < |after| ensures Inner(after[k].kind) {
      if k > |before| {
        assert after[k] == inner[k - |started|];
      }
    }
  }

  /** How far the agent's own numbers are ahead of the public ones. */
  function Ahead(outcome: RunOutcome): nat {
    match outcome
    case Rejected => 0
    case Closed(_) => 2
    case _ => 1
  }

  lemma GrowsThen(before: seq<PlanEvent>, middle: seq<PlanEvent>, after: seq<PlanEvent>)
    requires Grows(before, middle) && Grows(middle, after)
    ensures Grows(before, after)
  {
    forall k | |before| <= k < |after| ensures Inner(after[k].kind) {
      if k < |middle| {
        assert after[k] == middle[|before|..][k - |before|];
      } else {
        assert after[k] == after[|middle|..][k - |middle|];
      }
    }
  }

  /** A cancelled step may be run again; any other unfinished one has failed. */
  function LeftAs(ending: Ending): StepState {
    if TerminalKind(ending).RunCancelled? then StepPending else StepFailed
  }

  /** The outcome of a plan whose current run did not complete. */
  function OutcomeOf(ran: RunOutcome): PlanOutcome {
    if ran.Closed? then PlanEnd(ran.ending) else Unfinished
  }

  /** The outcome of a plan that got this far. */
  function WalkOutcome(walk: Walk, count: nat): PlanOutcome {
    if walk.last.Some? then OutcomeOf(walk.last.value) else if walk.reached == count then AllDone else Paused
  }

  /** The events of a whole plan run: one terminal event, at the end, that agrees
      with the outcome, and before it the plan's own word for it. */
  ghost predicate Published(outcome: PlanOutcome, events: seq<PlanEvent>) {
    match outcome
    case AllDone => EndsWith(events, RunCompleted) && |events| > 1 && events[|events| - 2].kind == PlanCompleted
    case Paused => EndsWith(events, RunIncomplete) && |events| > 1 && events[|events| - 2].kind == PlanPaused
    case PlanBroken => EndsWith(events, RunFailed) && |events| > 1 && events[|events| - 2].kind == PlanFailed
    case PlanStopped => EndsWith(events, RunCancelled) && |events| > 1 && events[|events| - 2].kind == PlanCancelled
    case Unfinished => AllInner(events)
  }

  lemma EndsPublished(
    before: seq<PlanEvent>, middle: seq<PlanEvent>, after: seq<PlanEvent>, outcome: PlanOutcome, own: PlanKind,
    kind: EventKind, next: nat)
    requires Grows(before, middle) && !own.Runtime? && Terminal(kind)
    requires after == middle + [PlanEvent(own, next), PlanEvent(Runtime(kind), next + 1)]
    requires !outcome.Unfinished? && own == OwnKind(outcome) && kind == LastKind(outcome)
    ensures before <= after && Published(outcome, after[|before|..])
  {
    var added := after[|before|..];
    forall k | 0 <= k < |added| - 1 ensures Inner(added[k].kind) {
      if k < |middle| - |before| {
        assert added[k] == middle[|before|..][k];
      }
    }
    assert added[|added| - 1] == after[|middle| + 1] && added[|added| - 2] == after[|middle|];
  }

  lemma NotEnded(before: seq<PlanEvent>, after: seq<PlanEvent>)
    requires Grows(before, after)
    ensures before <= after && Published(Unfinished, after[|before|..])
  {
  }

  lemma ConcludedStop(before: seq<Update>, after: seq<Update>, steps: seq<PlanStep>, n: nat, ran: RunOutcome)
    requires n < |steps| && ran != Closed(Done)
    requires after == before + Completions(steps[..n]) + [Update(steps[n].id, StepRunning)]
                      + if ran.Closed? then [Update(steps[n].id, LeftAs(ran.ending))] else []
    ensures StoppedAtStep(before, after, steps, n, OutcomeOf(ran))
  {
  }

  lemma OutOfBudget(before: seq<Update>, after: seq<Update>, steps: seq<PlanStep>, n: nat)
    requires n < |steps| && after == before + Completions(steps[..n])
    ensures StoppedAtStep(before, after, steps, n, Paused)
  {
  }

  lemma NothingDone(steps: seq<PlanStep>, events: seq<PlanEvent>)
    ensures Completions(steps[..0]) == [] && Ids(steps[..0]) == [] && steps[..|steps|] == steps
    ensures Grows(events, events)
  {
  }

  lemma OneMoreDone(before: seq<Update>, after: seq<Update>, steps: seq<PlanStep>, n: nat)
    requires n < |steps|
    requires after == before + Completions(steps[..n]) + [Update(steps[n].id, StepRunning)]
             + [Update(steps[n].id, StepDone)]
    ensures after == before + Completions(steps[..n + 1])
    ensures Ids(steps[..n + 1]) == Ids(steps[..n]) + [steps[n].id]
  {
    assert steps[..n + 1][..n] == steps[..n];
  }

  lemma GrowsOne(before: seq<PlanEvent>, middle: seq<PlanEvent>, e: PlanEvent)
    requires Grows(before, middle) && Inner(e.kind)
    ensures Grows(before, middle + [e])
  {
    forall k | |before| <= k < |middle + [e]| ensures Inner((middle + [e])[k].kind) {
      if k < |middle| {
        assert (middle + [e])[k] == middle[|before|..][k - |before|];
      }
    }
  }

  /** The first `n` steps completed; the next one did not. */
  ghost predicate StoppedAtStep(before: seq<Update>, after: seq<Update>, steps: seq<PlanStep>, n: nat,
      outcome: PlanOutcome)
    requires n < |steps|
  {
    var done, id := before + Completions(steps[..n]), steps[n].id;
    match outcome
    case AllDone => false
    case Paused => after == done || after == done + [Update(id, StepRunning), Update(id, StepFailed)]
    case PlanBroken => after == done + [Update(id, StepRunning), Update(id, StepFailed)]
    case PlanStopped => after == done + [Update(id, StepRunning), Update(id, StepPending)]
    case Unfinished => after == done + [Update(id, StepRunning)]
  }

  class PlanController {
    const steps: seq<PlanStep>
    const maxSteps: Option<nat>
    const agent: CodingAgent
    var sequence: nat
    var remaining: nat
    var completedIds: seq<string>
    var events: seq<PlanEvent>
    var updates: seq<Update>
    ghost var firstSequence: nat
    /** The evidence each completed run was accepted on. */
    ghost var proofs: seq<seq<Completion.Entry>>

    ghost function Repr(): set<object>
      reads this, agent
    {
      {this} + agent.Repr()
    }

    /** Where the plan stands. */
    ghost function Now(): Stage
      reads Repr()
    {
      Stage(agent.Snap(), sequence, remaining)
    }

    /** Public events are numbered without a gap from the first one. */
    ghost predicate Numbers()
      reads Repr()
    {
      && agent.Valid()
      && sequence == firstSequence + |events| && Consecutive(events, firstSequence)
      && forall k | 0 <= k < |proofs| :: Completion.Justified(proofs[k])
    }

    ghost predicate Valid()
      reads Repr()
    {
      Numbers() && agent.sequence <= sequence + 1
    }

    constructor (
      config: Config, steps: seq<PlanStep>, maxSteps: Option<nat>, initialSequence: nat,
      history: seq<Projection.ContextSource>)
      requires AllowedLimit(maxSteps)
      ensures Valid() && fresh(Repr())
      ensures this.steps == steps && this.maxSteps == maxSteps && (maxSteps.Some? ==> remaining == maxSteps.value)
      ensures events == [] && updates == [] && proofs == [] && sequence == firstSequence == initialSequence
      ensures New(agent.Snap()) && agent.config == config.(reserveSummaryRound := false)
      ensures completedIds == DoneIds(steps)
    {
      this.steps, this.maxSteps := steps, maxSteps;
      agent := new CodingAgent(config.(reserveSummaryRound := false), maxSteps, initialSequence, history, None);
      sequence, firstSequence := initialSequence, initialSequence;
      remaining := if maxSteps.Some? then maxSteps.value else 0;
      completedIds := DoneIds(steps);
      events, updates, proofs := [], [], [];
    }

    /** The construction fails when the agent's does: on a step limit out of range. */
    static method Create(
      config: Config, steps: seq<PlanStep>, maxSteps: Option<nat>, initialSequence: nat,
      history: seq<Projection.ContextSource>)
      returns (controller: Option<PlanController>)
      ensures controller.Some? <==> AllowedLimit(maxSteps)
      ensures controller.Some? ==> controller.value.Valid() && fresh(controller.value.Repr())
    {
      if maxSteps.Some? && !(MIN_MAX_STEPS <= maxSteps.value <= MAX_MAX_STEPS) {
        return None;
      }
      var created := new PlanController(config, steps, maxSteps, initialSequence, history);
      controller := Some(created);
    }

    /** Every public event takes the next number. */
    method Emit(kind: PlanKind)
      requires Numbers()
      modifies this`events, this`sequence
      ensures Numbers() && events == old(events) + [PlanEvent(kind, old(sequence))] && sequence == old(sequence) + 1
    {
      hide Completion.Justified;
      events := events + [PlanEvent(kind, sequence)];
      sequence := sequence + 1;
    }

    method UpdateStep(step: PlanStep, state: StepState)
      requires Numbers()
      modifies this`updates
      ensures Numbers() && updates == old(updates) + [Update(step.id, state)]
    {
      hide Completion.Justified;
      updates := updates + [Update(step.id, state)];
    }

    /** Passes on what the agent's run announced, under public numbers; the start
        and the end of that run stay private. */
    method Forward()
      requires Numbers() && (Ongoing(agent.events, agent.firstSequence)
               || RunEvents.Finished(agent.events, agent.firstSequence))
      modifies this`events, this`sequence
      ensures Numbers() && events == old(events) + AllPublic(agent.events, old(sequence))
      ensures sequence == old(sequence) + |AllPublic(agent.events, old(sequence))|
    {
      hide Completion.Justified, Numbers;
      InnerEvents(agent.events, agent.firstSequence);
      for k := 0 to |agent.events|
        invariant Numbers() && sequence == old(sequence) + Passed(agent.events, k)
        invariant events == old(events) + Public(agent.events, Passed(agent.events, k), old(sequence))
      {
        var kind := agent.events[k].kind;
        if kind != RunStarted && !Terminal(kind) {
          PublicNext(agent.events, k - 1, old(sequence));
          Emit(Runtime(kind));
        }
      }
    }

    /** Starts the agent on one task with a budget of turns, or without one; its
        event numbers never move backwards. */
    method Launch(index: nat, budget: Option<nat>, task: string, script: seq<StepInput>)
      returns (outcome: RunOutcome, ghost iterations: nat, used: nat)
      requires Numbers() && agent.sequence <= sequence
      modifies agent.Repr()
      ensures Numbers() && fresh(agent.Repr() - old(agent.Repr()))
      ensures budget.Some? ==> iterations <= budget.value
      ensures outcome == Closed(Done) ==> iterations <= used && Completion.Justified(agent.evidence.trace)
      ensures Reported(outcome)
      ensures var result := StepRun(agent.config, old(agent.Snap()), index, budget, sequence, task, script);
              agent.Snap() == result.run && outcome == result.outcome
      ensures used == agent.modelCalls - old(agent.modelCalls)
    {
      hide Completion.Justified, Consecutive, RunEvents.Finished, Ongoing, CodingAgent.Valid, FirstRun, FurtherRun;
      agent.SetMaxSteps(budget);
      var ok := agent.SetEventSequence(sequence);
      assert ok;
      assert agent.Snap() == old(agent.Snap()).(maxSteps := budget, sequence := sequence);
      var callsBefore := agent.modelCalls;
      outcome, iterations := Continue(index, task, script);
      used := agent.modelCalls - callsBefore;
    }

    /** What the agent's own numbers and events say about the outcome of its run. */
    ghost predicate Reported(outcome: RunOutcome)
      reads Repr()
    {
      match outcome
      case Rejected => agent.sequence == sequence
      case Closed(ending) =>
        && agent.firstSequence == sequence && agent.sequence == sequence + |agent.events|
        && RunEvents.Finished(agent.events, sequence)
        && agent.events[|agent.events| - 1].kind == TerminalKind(ending)
      case _ =>
        agent.firstSequence == sequence && agent.sequence == sequence + |agent.events|
          && Ongoing(agent.events, sequence)
    }

    /** The first task of a plan opens the journal, the later ones continue it. */
    method Continue(index: nat, task: string, script: seq<StepInput>)
        returns (outcome: RunOutcome, ghost iterations: nat)
      requires agent.Valid() && agent.sequence == sequence
      modifies agent.Repr()
      ensures agent.Valid() && fresh(agent.Repr() - old(agent.Repr()))
      ensures old(agent.maxSteps).Some? ==> iterations <= old(agent.maxSteps).value
      ensures old(agent.modelCalls) <= agent.modelCalls
      ensures outcome == Closed(Done) ==>
                iterations <= agent.modelCalls - old(agent.modelCalls) && Completion.Justified(agent.evidence.trace)
      ensures Reported(outcome)
      ensures var result := if index == 0 then FirstRun(agent.config, old(agent.Snap()), task, script)
                            else FurtherRun(agent.config, old(agent.Snap()), task, script);
              agent.Snap() == result.run && outcome == result.outcome
    {
      hide Completion.Justified, RunEvents.Finished, Ongoing, CodingAgent.Rep, Ready, FirstRun, FurtherRun;
      if index == 0 {
        FirstReports(agent.config, agent.Snap(), task, script);
        outcome, iterations := agent.Run(task, script);
      } else {
        FurtherReports(agent.config, agent.Snap(), task, script);
        outcome, iterations := agent.ContinueTask(task, script);
      }
    }

    method Spend(used: nat)
      requires Numbers()
      modifies this`remaining
      ensures Numbers() && remaining == Rest(old(remaining), used)
    {
      hide Completion.Justified;
      remaining := Rest(remaining, used);
    }

    /** Runs the agent on one task and passes on what it announced. */
    method Relay(index: nat, budget: Option<nat>, task: string, script: seq<StepInput>)
      returns (outcome: RunOutcome, ghost iterations: nat, used: nat)
      requires Numbers() && agent.sequence <= sequence
      modifies agent.Repr(), this`events, this`sequence
      ensures Numbers() && fresh(agent.Repr() - old(agent.Repr()))
      ensures budget.Some? ==> iterations <= budget.value
      ensures outcome == Closed(Done) ==> iterations <= used && Completion.Justified(agent.evidence.trace)
      ensures events == old(events) + if outcome.Rejected? then [] else AllPublic(agent.events, old(sequence))
      ensures outcome.Rejected? || AllInner(AllPublic(agent.events, old(sequence)))
      ensures agent.sequence == sequence + Ahead(outcome)
      ensures var result := StepRun(agent.config, old(agent.Snap()), index, budget, old(sequence), task, script);
              agent.Snap() == result.run && outcome == result.outcome && sequence == old(sequence) + Announced(result)
      ensures used == agent.modelCalls - old(agent.modelCalls)
    {
      hide Completion.Justified, RunEvents.Finished, Ongoing, Public, AllPublic, AllInner, Numbers, StepRun, Passed,
           Terminal;
      outcome, iterations, used := Launch(index, budget, task, script);
      if !outcome.Rejected? {
        PublicInner(agent.events, agent.firstSequence, sequence);
        Forward();
      }
    }

    /** One plan step on the shared agent, announced before it starts. */
    method Execute(index: nat, step: PlanStep, task: string, script: seq<StepInput>)
      returns (outcome: RunOutcome, ghost iterations: nat)
      requires Valid() && maxSteps.Some?
      modifies Repr()
      ensures Numbers() && fresh(Repr() - old(Repr()))
      ensures updates == old(updates) + [Update(step.id, StepRunning)]
      ensures completedIds == old(completedIds) && proofs == old(proofs)
      ensures iterations <= old(remaining)
      ensures outcome == Closed(Done)
              ==> iterations + remaining <= old(remaining) && Completion.Justified(agent.evidence.trace)
      ensures events == old(events) + [PlanEvent(PlanStepStarted, old(sequence))]
                        + if outcome.Rejected? then [] else AllPublic(agent.events, old(sequence) + 1)
      ensures Grows(old(events), events)
      ensures agent.sequence == sequence + Ahead(outcome)
      ensures var before := old(Now());
              var result := StepRun(agent.config, before.run, index, Some(before.remaining), before.sequence + 1, task,
                                    script);
              outcome == result.outcome && Now() == Behind(before, result)
    {
      hide Completion.Justified, Public, AllPublic, AllInner, Grows, Numbers, StepRun, Announced;
      UpdateStep(step, StepRunning);
      Emit(PlanStepStarted);
      ghost var started := events;
      var used: nat;
      outcome, iterations, used := Relay(index, Some(remaining), task, script);
      Spend(used);
      GrowsBy(old(events), started, events,
        if outcome.Rejected? then [] else AllPublic(agent.events, old(sequence) + 1));
    }

    /** A completed step: its evidence is kept, and the next step starts from a
        checkpoint of the context. */
    method Complete(step: PlanStep, last: bool, summary: string)
      requires Numbers() && Completion.Justified(agent.evidence.trace)
      modifies this`updates, this`completedIds, this`proofs, this`events, this`sequence, agent`context,
        agent`historySources
      ensures Numbers() && agent.sequence == old(agent.sequence) && agent.Repr() == old(agent.Repr())
      ensures agent.Snap() == if last then old(agent.Snap()) else Checkpointed(old(agent.Snap()), summary)
      ensures updates == old(updates) + [Update(step.id, StepDone)]
      ensures completedIds == old(completedIds) + [step.id]
      ensures proofs == old(proofs) + [old(agent.evidence.trace)]
      ensures events == old(events) + [PlanEvent(PlanStepCompleted, old(sequence))] && sequence == old(sequence) + 1
    {
      hide Completion.Justified, Completion.Replay;
      UpdateStep(step, StepDone);
      completedIds := completedIds + [step.id];
      proofs := proofs + [agent.evidence.trace];
      Emit(PlanStepCompleted);
      if !last {
        agent.CheckpointContext(summary);
      }
    }

    /** The last two events of a plan. */
    method End(own: PlanKind, kind: EventKind)
      requires Numbers() && !own.Runtime?
      modifies this`events, this`sequence
      ensures Numbers() && sequence == old(sequence) + 2
      ensures events == old(events) + [PlanEvent(own, old(sequence)), PlanEvent(Runtime(kind), old(sequence) + 1)]
    {
      hide Completion.Justified;
      Emit(own);
      Emit(Runtime(kind));
    }

    /** One turn of the plan: runs a step and, when it completed, records it. */
    method Advance(
      index: nat, step: PlanStep, last: bool, task: string, summary: string, script: seq<StepInput>,
      ghost before: seq<PlanEvent>)
      returns (ran: RunOutcome, ghost iterations: nat)
      requires Valid() && maxSteps.Some? && Grows(before, events)
      modifies Repr()
      ensures Numbers() && fresh(Repr() - old(Repr())) && Grows(before, events)
      ensures iterations <= old(remaining)
      ensures ran != Closed(Done) ==>
                && updates == old(updates) + [Update(step.id, StepRunning)]
                && completedIds == old(completedIds) && proofs == old(proofs)
      ensures ran == Closed(Done) ==>
                && iterations + remaining <= old(remaining) && agent.sequence == sequence + 1
                && updates == old(updates) + [Update(step.id, StepRunning)] + [Update(step.id, StepDone)]
                && completedIds == old(completedIds) + [step.id]
                && |proofs| == |old(proofs)| + 1 && proofs[..|old(proofs)|] == old(proofs)
      ensures var before := old(Now());
              var result := StepRun(agent.config, before.run, index, Some(before.remaining), before.sequence + 1, task,
                                    script);
              && ran == result.outcome
              && Now() == if ran == Closed(Done) then Recorded(Behind(before, result), last, summary)
                          else Behind(before, result)
    {
      hide Completion.Justified, Grows, AllPublic, Numbers, CodingAgent.Snap, Checkpointed, AllInner, StepRun, Behind;
      ran, iterations := Execute(index, step, task, script);
      GrowsThen(before, old(events), events);
      ghost var middle := events;
      if ran == Closed(Done) {
        Complete(step, last, summary);
        GrowsOne(before, middle, events[|events| - 1]);
      }
    }

    /** Runs the enabled steps one after another within the budget. `reached` of
        them completed. */
    method RunSteps(enabled: seq<PlanStep>, tasks: nat -> string, summaries: nat -> string,
        scripts: nat -> seq<StepInput>)
      returns (outcome: PlanOutcome, ghost reached: nat, ghost iterations: nat)
      requires Valid() && maxSteps.Some?
      modifies Repr()
      ensures Numbers() && fresh(Repr() - old(Repr())) && reached <= |enabled|
      ensures iterations <= old(remaining)
      ensures completedIds == old(completedIds) + Ids(enabled[..reached])
      ensures |proofs| == |old(proofs)| + reached && proofs[..|old(proofs)|] == old(proofs)
      ensures old(events) <= events && Published(outcome, events[|old(events)|..])
      ensures outcome.AllDone? ==> reached == |enabled| && updates == old(updates) + Completions(enabled)
      ensures !outcome.AllDone? ==>
                reached < |enabled| && StoppedAtStep(old(updates), updates, enabled, reached, outcome)
      ensures var walk := StepsFrom(agent.config, old(Now()), |enabled|, tasks, summaries, scripts, 0);
              && reached == walk.reached && agent.Snap() == walk.stage.run && remaining == walk.stage.remaining
              && outcome == WalkOutcome(walk, |enabled|)
    {
      hide Completion.Justified, Grows, Published, Completions, StoppedAtStep, Ids, AllPublic, Numbers,
           CodingAgent.Snap, Checkpointed, AllInner, OwnKind, LastKind, StepRun, Behind, Recorded, StepsFrom, OutcomeOf;
      outcome, reached, iterations := Unfinished, 0, 0;
      NothingDone(enabled, events);
      for index := 0 to |enabled|
        invariant reached == index && Numbers() && fresh(Repr() - old(Repr()))
        invariant agent.sequence <= sequence + 1 && (index > 0 ==> agent.sequence == sequence + 1)
        invariant iterations + remaining <= old(remaining)
        invariant completedIds == old(completedIds) + Ids(enabled[..index])
        invariant |proofs| == |old(proofs)| + index && proofs[..|old(proofs)|] == old(proofs)
        invariant Grows(old(events), events)
        invariant updates == old(updates) + Completions(enabled[..index])
        invariant StepsFrom(agent.config, old(Now()), |enabled|, tasks, summaries, scripts, 0)
               == StepsFrom(agent.config, Now(), |enabled|, tasks, summaries, scripts, index)
      {
        WalkNext(agent.config, Now(), |enabled|, tasks, summaries, scripts, index);
        if remaining < 1 {
          outcome := Paused;
          Close(outcome, old(events));
          OutOfBudget(old(updates), updates, enabled, index);
          return;
        }
        var last := index + 1 == |enabled|;
        var ran;
        ghost var made;
        ran, made := Advance(index, enabled[index], last, tasks(index), summaries(index), scripts(index), old(events));
        iterations := iterations + made;
        if ran != Closed(Done) {
          outcome := Conclude(enabled[index], ran, old(events));
          ConcludedStop(old(updates), updates, enabled, index, ran);
          return;
        }
        OneMoreDone(old(updates), updates, enabled, index);
        reached := reached + 1;
      }
      outcome := AllDone;
      WalkNext(agent.config, Now(), |enabled|, tasks, summaries, scripts, |enabled|);
      Close(outcome, old(events));
    }

    /** The plan's own word for its outcome, then the end of the public run. */
    method Close(outcome: PlanOutcome, ghost before: seq<PlanEvent>)
      requires Numbers() && Grows(before, events) && !outcome.Unfinished?
      modifies this`events, this`sequence
      ensures Numbers() && before <= events && Published(outcome, events[|before|..])
    {
      hide Numbers, Grows, Published;
      ghost var middle, next := events, sequence;
      End(OwnKind(outcome), LastKind(outcome));
      EndsPublished(before, middle, events, outcome, OwnKind(outcome), LastKind(outcome), next);
    }

    /** A run of the agent that did not complete ends the plan. */
    method Conclude(step: PlanStep, ran: RunOutcome, ghost before: seq<PlanEvent>) returns (outcome: PlanOutcome)
      requires Numbers() && ran != Closed(Done) && Grows(before, events)
      modifies this`updates, this`events, this`sequence
      ensures Numbers() && outcome == OutcomeOf(ran)
      ensures updates == old(updates) + if ran.Closed? then [Update(step.id, LeftAs(ran.ending))] else []
      ensures before <= events && Published(outcome, events[|before|..])
    {
      hide Numbers, Grows, Published;
      outcome := OutcomeOf(ran);
      if ran.Closed? {
        UpdateStep(step, LeftAs(ran.ending));
        Close(outcome, before);
      } else {
        NotEnded(before, events);
      }
    }

    // ---- the whole plan as one run ----

    method UpdateAll(all: seq<PlanStep>, state: StepState)
      requires Numbers()
      modifies this`updates
      ensures Numbers() && updates == old(updates) + Marked(all, state)
    {
      hide Numbers;
      for k := 0 to |all|
        invariant Numbers() && updates == old(updates) + Marked(all, state)[..k]
      {
        UpdateStep(all[k], state);
      }
    }

    /** The run stopped at a capability the current permissions withhold: such an
        error is still unresolved in its evidence. */
    ghost predicate NeedsPermission(ending: Ending)
      reads agent, agent.evidence
    {
      && (TerminalKind(ending).RunFailed? || TerminalKind(ending).RunIncomplete?)
      && exists code | code in RECOVERABLE_PERMISSION_CODES :: Completion.Unsettled(agent.evidence.trace, code)
    }

    /** Four codes stand for such a capability. */
    lemma PausesFor(ending: Ending)
      ensures NeedsPermission(ending)
              <==> ending != Done && ending != Stopped
                   && exists code :: Completion.Unsettled(agent.evidence.trace, code)
                        && (|| code == "TOOL_NOT_FOUND" || code == "TOOL_UNAVAILABLE"
                            || code == "MUTATION_NOT_REQUESTED" || code == "APPROVAL_UNAVAILABLE")
    {
      hide Completion.Unsettled;
    }

    method PermissionPause(ending: Ending) returns (pause: bool)
      requires Numbers()
      ensures Numbers() && pause == NeedsPermission(ending)
    {
      hide Numbers, Completion.Unsettled, Completion.Recorded;
      var errors := agent.evidence.unresolvedErrors;
      LedgerUnresolved();
      var kind := TerminalKind(ending);
      pause := (kind.RunFailed? || kind.RunIncomplete?) && exists code | code in RECOVERABLE_PERMISSION_CODES ::
        code in errors;
    }

    lemma LedgerUnresolved()
      requires Numbers()
      ensures forall code ::
                code in agent.evidence.unresolvedErrors <==> Completion.Unsettled(agent.evidence.trace, code)
    {
      Completion.UnresolvedIff(agent.evidence.trace);
    }

    /** The whole plan as one task without a budget: its steps succeed, pause or
        fail together. */
    method RunShared(enabled: seq<PlanStep>, task: string, script: seq<StepInput>)
      returns (outcome: PlanOutcome, ran: RunOutcome)
      requires Valid()
      modifies Repr()
      ensures Numbers() && fresh(Repr() - old(Repr()))
      ensures old(events) <= events && Published(outcome, events[|old(events)|..])
      ensures outcome == match ran
                         case Closed(Done) => AllDone
                         case Closed(ending) => if NeedsPermission(ending) then Paused else PlanEnd(ending)
                         case _ => Unfinished
      ensures updates == old(updates) + Marked(enabled, StepRunning)
                         + match outcome
                           case AllDone => Marked(enabled, StepDone)
                           case PlanBroken => Marked(enabled, StepFailed)
                           case Unfinished => []
                           case _ => Marked(enabled, StepPending)
      ensures completedIds == old(completedIds) + if outcome.AllDone? then Ids(enabled) else []
      ensures outcome.AllDone? ==> proofs == old(proofs) + [agent.evidence.trace]
      ensures var result := StepRun(agent.config, old(agent.Snap()), 0, None, old(sequence) + 1, task, script);
              agent.Snap() == result.run && ran == result.outcome
    {
      hide Completion.Justified, Grows, Published, Ids, Marked, AllPublic, AllInner, Numbers, Announced,
           RunEvents.Finished, Ongoing, StepRun, CodingAgent.Snap;
      UpdateAll(enabled, StepRunning);
      Emit(PlanStepStarted);
      ghost var started := events;
      ghost var iterations;
      var used: nat;
      ran, iterations, used := Relay(0, None, task, script);
      GrowsBy(old(events), started, events, if ran.Rejected? then [] else AllPublic(agent.events, old(sequence) + 1));
      outcome := Settle(enabled, ran, old(events));
    }

    /** What the end of the shared run makes of the plan. */
    method Settle(enabled: seq<PlanStep>, ran: RunOutcome, ghost before: seq<PlanEvent>) returns (outcome: PlanOutcome)
      requires Numbers() && Grows(before, events)
      requires ran == Closed(Done) ==> Completion.Justified(agent.evidence.trace)
      modifies this`updates, this`completedIds, this`proofs, this`events, this`sequence
      ensures Numbers() && before <= events && Published(outcome, events[|before|..])
      ensures outcome == match ran
                         case Closed(Done) => AllDone
                         case Closed(ending) => if NeedsPermission(ending) then Paused else PlanEnd(ending)
                         case _ => Unfinished
      ensures updates == old(updates)
                         + match outcome
                           case AllDone => Marked(enabled, StepDone)
                           case PlanBroken => Marked(enabled, StepFailed)
                           case Unfinished => []
                           case _ => Marked(enabled, StepPending)
      ensures completedIds == old(completedIds) + if outcome.AllDone? then Ids(enabled) else []
      ensures proofs == old(proofs) + if outcome.AllDone? then [agent.evidence.trace] else []
    {
      hide Completion.Justified, Grows, Published, Ids, Marked, Numbers, Completion.Unsettled, CodingAgent.Snap,
           AllInner, OwnKind, LastKind, Terminal;
      match ran
      case Closed(Done) =>
        SettleDone(enabled, before);
        outcome := AllDone;
      case Closed(ending) =>
        outcome := SettleEnded(enabled, ending, before);
      case _ =>
        outcome := Unfinished;
        NotEnded(before, events);
    }

    /** The shared run ended otherwise: a withheld permission pauses the plan. */
    method SettleEnded(enabled: seq<PlanStep>, ending: Ending, ghost before: seq<PlanEvent>)
        returns (outcome: PlanOutcome)
      requires Numbers() && Grows(before, events) && ending != Done
      modifies this`updates, this`events, this`sequence
      ensures Numbers() && before <= events && Published(outcome, events[|before|..])
      ensures outcome == if NeedsPermission(ending) then Paused else PlanEnd(ending)
      ensures updates == old(updates) + Marked(enabled, if outcome.PlanBroken? then StepFailed else StepPending)
    {
      hide Completion.Justified, Grows, Published, Marked, Numbers, Completion.Unsettled, CodingAgent.Snap, AllInner;
      var pause := PermissionPause(ending);
      outcome := if pause then Paused else PlanEnd(ending);
      UpdateAll(enabled, if outcome.PlanBroken? then StepFailed else StepPending);
      Close(outcome, before);
    }

    /** The shared run completed: so did every step. */
    method SettleDone(enabled: seq<PlanStep>, ghost before: seq<PlanEvent>)
      requires Numbers() && Grows(before, events) && Completion.Justified(agent.evidence.trace)
      modifies this`updates, this`completedIds, this`proofs, this`events, this`sequence
      ensures Numbers() && before <= events && Published(AllDone, events[|before|..])
      ensures updates == old(updates) + Marked(enabled, StepDone) && completedIds == old(completedIds) + Ids(enabled)
      ensures proofs == old(proofs) + [agent.evidence.trace]
    {
      hide Completion.Justified, Grows, Published, Ids, Marked, Numbers, CodingAgent.Snap, AllInner;
      UpdateAll(enabled, StepDone);
      Prove(enabled);
      ghost var middle := events;
      Emit(PlanStepCompleted);
      GrowsOne(before, middle, events[|events| - 1]);
      Close(AllDone, before);
    }

    /** A completed shared run completes every enabled step on its evidence. */
    method Prove(enabled: seq<PlanStep>)
      requires Numbers() && Completion.Justified(agent.evidence.trace)
      modifies this`completedIds, this`proofs
      ensures Numbers() && completedIds == old(completedIds) + Ids(enabled)
      ensures proofs == old(proofs) + [agent.evidence.trace]
    {
      hide Completion.Justified, Ids;
      completedIds := completedIds + Ids(enabled);
      proofs := proofs + [agent.evidence.trace];
    }

    /** The plan stopped at a run that withheld a permission. */
    ghost predicate Withheld(walk: Walk)
      reads agent, agent.evidence
    {
      walk.last.Some? && walk.last.value.Closed? && NeedsPermission(walk.last.value.ending)
    }

    // ---- the controller ----

    /** Runs what is left of the plan. Whatever happens, the public run gets at
        most one terminal event, it comes last, and it agrees with the outcome;
        with a step budget the agent turns at most that often. */
    method Run(
      task: string, tasks: nat -> string, summaries: nat -> string, script: seq<StepInput>,
      scripts: nat -> seq<StepInput>)
      returns (outcome: PlanOutcome, ghost iterations: nat)
      requires Valid()
      modifies Repr()
      ensures Numbers() && fresh(Repr() - old(Repr()))
      ensures old(events) <= events && Published(outcome, events[|old(events)|..])
      ensures maxSteps.Some? ==> iterations <= old(remaining)
      ensures outcome.AllDone? ==> completedIds == old(completedIds) + Ids(ToRun(steps))
      ensures var walk := PlanRuns(agent.config, old(Now()), |ToRun(steps)|, maxSteps.Some?, task, script, tasks,
                                   summaries, scripts);
              && agent.Snap() == walk.stage.run
              && (old(agent.state).Created? ==>
                    (outcome.Unfinished?
                     <==> walk.last == Some(Pending) || walk.last == Some(Broke)
                          || (walk.last.Some? && !ValidTask(if maxSteps.Some? then tasks(walk.reached) else task))))
              && outcome == if maxSteps.None? && Withheld(walk) then Paused else WalkOutcome(walk, |ToRun(steps)|)
    {
      hide Completion.Justified, Grows, Published, Ids, Marked, Numbers, Completions, StoppedAtStep, ToRun, StepRun,
           CodingAgent.Snap, NeedsPermission, AllInner, StepsFrom, Standing, ValidTask;
      var enabled := Enabled();
      iterations := 0;
      if agent.state.Created? {
        NewStands();
        PlanStarts(agent.config, Now(), |enabled|, maxSteps.Some?, task, script, tasks, summaries, scripts);
      }
      if enabled == [] {
        NothingDone(enabled, events);
        outcome := AllDone;
        Close(outcome, events);
      } else if maxSteps.None? {
        var ran;
        outcome, ran := RunShared(enabled, task, script);
      } else {
        ghost var reached;
        outcome, reached, iterations := RunSteps(enabled, tasks, summaries, scripts);
        if outcome.AllDone? {
          assert enabled[..reached] == enabled;
        }
      }
    }

    /** An agent that has not run yet may start on a plan. */
    lemma NewStands()
      requires Valid() && agent.state.Created?
      ensures Standing(agent.config, Now().run, 0)
    {
      hide Ready, Completion.Justified, Consecutive;
    }

    method Enabled() returns (enabled: seq<PlanStep>)
      requires Valid()
      ensures Valid() && enabled == ToRun(steps)
    {
      enabled := [];
      for k := 0 to |steps|
        invariant enabled == ToRun(steps[..k])
      {
        assert steps[..k + 1][..k] == steps[..k];
        if steps[k].enabled && !steps[k].state.StepDone? {
          enabled := enabled + [steps[k]];
        }
      }
      assert steps[..|steps|] == steps;
    }
  }
}
