/** How a plan ends and what it reports about its steps, said without the functions that
    compute it. */
module PlanOutcomes {
  import opened Text
  import opened RunEvents
  import opened RunMachine
  import opened PlanExecution

  /** The steps that are run are those enabled and not done, in their order. */
  lemma {:induction false} StepsToRun(steps: seq<PlanStep>, s: PlanStep)
    ensures ToRun([]) == []
    ensures ToRun(steps + [s]) == ToRun(steps) + if s.enabled && s.state != StepDone then [s] else []
  {
    assert (steps + [s])[..|steps|] == steps;
  }

  lemma {:induction false} StepsDone(steps: seq<PlanStep>, s: PlanStep)
    ensures DoneIds([]) == []
    ensures DoneIds(steps + [s]) == DoneIds(steps) + if s.state == StepDone then [s.id] else []
  {
    assert (steps + [s])[..|steps|] == steps;
  }

  /** Steps that completed one after another were each reported as running and then as
      done. */
  lemma {:induction false} ReportedInTurn(steps: seq<PlanStep>)
    ensures |Completions(steps)| == 2 * |steps|
    ensures forall k | 0 <= k < |steps| ::
              && Completions(steps)[2 * k] == Update(steps[k].id, StepRunning)
              && Completions(steps)[2 * k + 1] == Update(steps[k].id, StepDone)
  {
    if steps != [] {
      ReportedInTurn(steps[..|steps| - 1]);
    }
  }

  lemma ReportedTogether(steps: seq<PlanStep>, state: StepState)
    ensures |Marked(steps, state)| == |Ids(steps)| == |steps|
    ensures forall k | 0 <= k < |steps| ::
              Marked(steps, state)[k] == Update(steps[k].id, state) && Ids(steps)[k] == steps[k].id
  {
  }

  /** A plan that stops at a run ends as this run did, and says so in its own words. */
  lemma StopsAsRun(ending: Ending)
    requires ending != Done
    ensures LastKind(OutcomeOf(Closed(ending))) == TerminalKind(ending)
    ensures match TerminalKind(ending)
            case RunIncomplete => OwnKind(OutcomeOf(Closed(ending))) == PlanPaused && LeftAs(ending) == StepFailed
            case RunFailed => OwnKind(OutcomeOf(Closed(ending))) == PlanFailed && LeftAs(ending) == StepFailed
            case _ =>
              OwnKind(OutcomeOf(Closed(ending))) == PlanCancelled && LeftAs(ending) == StepPending
  {
  }

  /** No public event but the last one of a plan starts or ends a run. */
  lemma InnerIs(events: seq<PlanEvent>)
    ensures AllInner(events)
            <==> forall k | 0 <= k < |events| && events[k].kind.Runtime? ::
                   events[k].kind.kind !in {RunStarted, RunCompleted, RunIncomplete, RunFailed, RunCancelled}
  {
    if forall k | 0 <= k < |events| && events[k].kind.Runtime? ::
         events[k].kind.kind !in {RunStarted, RunCompleted, RunIncomplete, RunFailed, RunCancelled} {
      forall k | 0 <= k < |events| ensures Inner(events[k].kind) {}
    }
  }
}
