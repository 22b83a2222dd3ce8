/** The agent and the approval coordinator together: in approve mode a privileged
    tool starts only on an answer the user gave in time to that very request. */
module RunApprovals {
  import opened Text
  import opened RunEvents
  import opened RunMachine
  import opened RunSafety
  import A = Approvals

  // ---- the two together ----

  /** What the agent makes of what its wait was told; an error of the coordinator
      ends its run without a word. */
  function WaitFor(told: A.Told): Wait
    requires told.Decided? || told.ToldExpired? || told.ToldCancelled?
  {
    match told
    case Decided(decision) => if decision == A.Approve then Wait.Approve else Refuse
    case ToldExpired => Expire
    case ToldCancelled => WaitCancelled
  }

  predicate Told(told: A.Told, wait: Wait) {
    (told.Decided? || told.ToldExpired? || told.ToldCancelled?) && WaitFor(told) == wait
  }

  /** The coordinator's steps along the events of a run: `clock(p)` of them were made
      when event `p` was announced. */
  ghost predicate Clocked(clock: nat -> nat, events: nat, ops: nat) {
    forall p: nat, q: nat | p <= q < events :: clock(p) <= clock(q) <= ops
  }

  /** The event two before `p` asks the user about this call: its request, step `i`,
      was made since the event ahead of it, and its wait, step `n`, ended before the
      event behind it. */
  ghost predicate Waited(
    world: A.World, ops: seq<A.Op>, timeout: int, clock: nat -> nat, runId: string, callId: string, wait: Wait,
    p: nat, i: nat, n: nat)
  {
    && p >= 2 && (p > 2 ==> clock(p - 3) <= i) && i < clock(p - 2) <= n < clock(p - 1) && n < |ops|
    && ops[i].Request? && ops[i].runId == runId && ops[i].callId == callId
    && ops[n].Wait? && ops[n].id == ops[i].id && Told(A.ToldBy(A.After(world, ops[..n], timeout), ops[n]), wait)
  }

  /** The waits of a run are the coordinator's: every started call that needed a
      decision asked between its own events and heard what its input says. */
  ghost predicate Heard(
    world: A.World, ops: seq<A.Op>, timeout: int, clock: nat -> nat, runId: string, script: seq<StepInput>,
    starts: seq<Start>)
  {
    forall s | s in starts && 0 < s.step <= |script| && s.position >= 2
               && NeedsDecision(InputAt(script, s.step, s.index)) ::
      exists i, n ::
        Waited(world, ops, timeout, clock, runId, s.call.id, InputAt(script, s.step, s.index).wait, s.position, i, n)
  }

  // ---- what an approval stands for ----

  /** Request `i` of this run for this call, answer `j` and wait `n`, in this order and
      before event `p`: the user approved in time, and the row says so for good. */
  ghost predicate ApprovedInTime(
    world: A.World, ops: seq<A.Op>, timeout: int, clock: nat -> nat, runId: string, callId: string, p: nat,
    i: nat, j: nat, n: nat)
  {
    && i < j < n < clock(p) && n < |ops|
    && ops[i].Request? && ops[i].runId == runId && ops[i].callId == callId
    && A.AnsweredBy(world, ops, timeout, ops[i].id, A.Decision.Approve, j) && ops[j].runId == runId
    && ops[n].Wait? && ops[n].id == ops[i].id
    && A.RowAt(A.After(world, ops, timeout), ops[i].id) == Some(A.Approved)
  }

  lemma HeardApproval(
    world: A.World, ops: seq<A.Op>, timeout: int, clock: nat -> nat, runId: string, callId: string, p: nat, i: nat,
    n: nat)
    returns (j: nat)
    requires A.Fresh(world) && A.AllPossible(world, ops, timeout)
    requires Waited(world, ops, timeout, clock, runId, callId, Wait.Approve, p, i, n)
    ensures clock(p - 1) <= clock(p) ==> ApprovedInTime(world, ops, timeout, clock, runId, callId, p, i, j, n)
  {
    hide A.After, A.AllPossible, A.Fresh, A.ToldBy;
    var id, before, more := ops[i].id, ops[..n], ops[n + 1..];
    assert ops == before + [ops[n]] + more && ops == before + ([ops[n]] + more);
    A.ToldIsStored(world, before, ops[n], more, timeout);
    j :| A.AnsweredBy(world, before, timeout, id, A.Decision.Approve, j);
    A.PrefixPossible(world, ops, n, timeout);
    A.AnsweredBehind(world, before, timeout, id, A.Decision.Approve, i, j);
    A.AnsweredLater(world, before, [ops[n]] + more, timeout, id, A.Decision.Approve, j);
    AnsweredByItsRun(world, ops, timeout, i, j);
  }

  /** The answer comes from the run that made the request. */
  lemma AnsweredByItsRun(world: A.World, ops: seq<A.Op>, timeout: int, i: nat, j: nat)
    requires A.Fresh(world) && A.AllPossible(world, ops, timeout) && i < j && i < |ops| && ops[i].Request?
    requires A.AnsweredBy(world, ops, timeout, ops[i].id, A.Decision.Approve, j)
    ensures ops[j].runId == ops[i].runId
  {
    hide A.After, A.AllPossible, A.Fresh;
    A.PrefixPossible(world, ops, j, timeout);
    assert ops[..j][i] == ops[i];
    A.RequestStands(world, ops[..j], timeout, i);
  }

  /** Over every run and every history of the coordinator: before a tool starts for a
      call that needs approval, that call's own request was approved in time by the
      user of that run; the two events ahead of its start say so. */
  lemma StartedWasApproved(
    cfg: Config, script: seq<StepInput>, run: Run, outcome: RunOutcome, world: A.World, ops: seq<A.Op>, timeout: int,
    clock: nat -> nat, runId: string, k: nat)
    requires Ran(cfg, script, run, outcome) && k < |run.starts|
    requires A.Fresh(world) && A.AllPossible(world, ops, timeout) && Clocked(clock, |run.events|, |ops|)
             && Heard(world, ops, timeout, clock, runId, script, run.starts)
    ensures var s := run.starts[k];
            && 0 < s.step <= |script| && 0 < s.position < |run.events|
            && run.events[s.position].kind == ToolStarted(s.call.id)
            && (NeedsDecision(InputAt(script, s.step, s.index)) ==>
                  && AskedAndApproved(run.events, s.position, s.call.id)
                  && exists i, j, n ::
                       ApprovedInTime(world, ops, timeout, clock, runId, s.call.id, s.position, i, j, n))
  {
    hide A.After, A.AllPossible, A.Fresh, Waited, Ongoing, RunEvents.Finished, StartPositions, DealsOk, FailuresOf,
         Walked, Within, EndsRight, AcceptedCalls;
    var s := run.starts[k];
    assert Backed(cfg, script, run);
    assert StartOk(cfg, script, run.events, run.recorded, s);
    if NeedsDecision(InputAt(script, s.step, s.index)) {
      assert s in run.starts;
      var i, n :| Waited(world, ops, timeout, clock, runId, s.call.id, InputAt(script, s.step, s.index).wait,
                         s.position, i, n);
      var j := HeardApproval(world, ops, timeout, clock, runId, s.call.id, s.position, i, n);
      assert clock(s.position - 1) <= clock(s.position);
      assert ApprovedInTime(world, ops, timeout, clock, runId, s.call.id, s.position, i, j, n);
    }
  }

  /** The starts are all there are: every event that announces a started tool is the
      start of one call, in order. */
  lemma EveryStart(cfg: Config, script: seq<StepInput>, run: Run, outcome: RunOutcome, p: nat)
    requires Ran(cfg, script, run, outcome) && p < |run.events| && run.events[p].kind.ToolStarted?
    ensures exists k :: 0 <= k < |run.starts| && run.starts[k].position == p
  {
    hide Ongoing, RunEvents.Finished, StartsOk, DealsOk, FailuresOf, Walked, Within, EndsRight, StartPositions;
    assert StartPositions(run.events) == Positions(run.starts);
    StartPositionsAre(run.events);
    assert p in Positions(run.starts);
  }
}
