/** The approval coordinator (src/leanharness/permissions/approval.py) and the
    database rows its callbacks write (src/leanharness/storage/store.py). Requests,
    answers, timeouts, cancellations and failed writes come in any order. */
module Approvals {
  import opened Text

  datatype Decision = Approve | Reject

  datatype RowState = Pending | Approved | Rejected | Expired

  datatype Future = Open | Done(decision: Decision) | CancelledFuture

  datatype Item = Item(runId: string, callId: string, requestedAt: int, decision: Option<Decision>, expired: bool,
      future: Future)

  datatype World = World(items: map<string, Item>, rows: map<string, RowState>)

  /** How a wait ends: its future is settled, its deadline passes, or the waiting
      call is itself cancelled. */
  datatype WaitEnd = Woken | TimedOut | Interrupted

  /** What a call that waits is told: the error of the store escapes to it when its
      expiry cannot be written. */
  datatype Told = Decided(decision: Decision) | ToldExpired | ToldCancelled | Missing | StoreFailed

  /** `stored` says whether the database accepts the write the step makes; a wait is
      one step at the moment it ends. */
  datatype Op =
    | Request(id: string, runId: string, callId: string, now: int, stored: bool)
    | Wait(id: string, entered: int, ended: int, end: WaitEnd, stored: bool)
    | Resolve(runId: string, id: string, decision: Decision, now: int, stored: bool)
    | CancelRun(runId: string)

  datatype Answer =
    | Resolved | NotFound | AlreadyResolved | TooLate | ExpiryNotStored | NotStored | AlreadyCancelled

  function RowOf(d: Decision): RowState {
    match d
    case Approve => Approved
    case Reject => Rejected
  }

  // ---- the rows ----

  /** `UPDATE ... WHERE state='PENDING'`. */
  predicate Writable(rows: map<string, RowState>, id: string, stored: bool) {
    stored && id in rows && rows[id] == Pending
  }

  // ---- the steps ----

  function Expiring(w: World, id: string, stored: bool): World
    requires id in w.items
  {
    var item := w.items[id];
    if item.expired || item.decision.Some? then w
    else World(w.items[id := item.(expired := true)],
               if Writable(w.rows, id, stored) then w.rows[id := Expired] else w.rows)
  }

  /** This step is the one to expire the request, and the store refuses the write. */
  predicate ExpiryFails(w: World, id: string, stored: bool)
    requires id in w.items
  {
    !w.items[id].expired && w.items[id].decision.None? && !Writable(w.rows, id, stored)
  }

  function Answered(w: World, op: Op, timeout: int): Answer
    requires op.Resolve?
  {
    if op.id !in w.items || w.items[op.id].runId != op.runId then NotFound
    else
      var item := w.items[op.id];
      if item.decision.Some? then AlreadyResolved
      else if item.expired || op.now - item.requestedAt >= timeout then
        if ExpiryFails(w, op.id, op.stored) then ExpiryNotStored else TooLate
      else if !Writable(w.rows, op.id, op.stored) then NotStored
      else if item.future.CancelledFuture? then AlreadyCancelled
      else Resolved
  }

  function Cancelled(items: map<string, Item>, runId: string): map<string, Item> {
    map id | id in items ::
      if items[id].runId == runId && items[id].future.Open? then items[id].(future := CancelledFuture) else items[id]
  }

  function Step(w: World, op: Op, timeout: int): World {
    match op
    case Request(id, runId, callId, now, stored) =>
      World(w.items[id := Item(runId, callId, now, None, false, Open)],
            if stored && id !in w.rows then w.rows[id := Pending] else w.rows)
    case Wait(id, _, _, end, stored) => if id in w.items && end.TimedOut? then Expiring(w, id, stored) else w
    case Resolve(_, id, decision, _, stored) =>
      (match Answered(w, op, timeout)
       case TooLate => Expiring(w, id, stored)
       case ExpiryNotStored => Expiring(w, id, stored)
       case Resolved =>
         World(w.items[id := w.items[id].(decision := Some(decision), future := Done(decision))],
           w.rows[id := RowOf(decision)])
       case AlreadyCancelled =>
         World(w.items[id := w.items[id].(decision := Some(decision))], w.rows[id := RowOf(decision)])
       case _ => w)
    case CancelRun(runId) => World(Cancelled(w.items, runId), w.rows)
  }

  /** A wait that begins after the deadline times out at once; before it, it ends by
      itself only at the deadline or when its future is settled. */
  predicate MayEnd(item: Item, entered: int, ended: int, end: WaitEnd, timeout: int) {
    && entered <= ended
    && (entered - item.requestedAt >= timeout ==> end.TimedOut?)
    && (end.TimedOut? ==> ended - item.requestedAt >= timeout)
    && (end.Woken? ==> !item.future.Open?)
  }

  /** Request ids are new: they are random and 122 bits wide. */
  predicate Possible(w: World, op: Op, timeout: int) {
    match op
    case Request(id, _, _, _, _) => id !in w.items && id !in w.rows
    case Wait(id, entered, ended, end, _) => id in w.items ==> MayEnd(w.items[id], entered, ended, end, timeout)
    case _ => true
  }

  /** What the wait that ends with this step tells its call. */
  function ToldBy(w: World, op: Op): Told
    requires op.Wait?
  {
    if op.id !in w.items then Missing
    else if op.end.TimedOut? then if ExpiryFails(w, op.id, op.stored) then StoreFailed else ToldExpired
    else if op.end.Woken? && w.items[op.id].future.Done? then Decided(w.items[op.id].future.decision)
    else ToldCancelled
  }

  function After(start: World, ops: seq<Op>, timeout: int): World {
    if ops == [] then start else Step(After(start, ops[..|ops| - 1], timeout), ops[|ops| - 1], timeout)
  }

  ghost predicate AllPossible(start: World, ops: seq<Op>, timeout: int) {
    forall k | 0 <= k < |ops| :: Possible(After(start, ops[..k], timeout), ops[k], timeout)
  }

  /** What a process finds when it starts: no requests, and every row settled. */
  predicate Fresh(w: World) {
    w.items == map[] && forall id | id in w.rows :: w.rows[id] != Pending
  }

  // ---- item and row agree ----

  /** An item is never both decided and expired; a decided one has its own decision
      in its row and in its future; an undecided one has no result. */
  predicate ItemAgrees(item: Item, row: Option<RowState>) {
    && !(item.decision.Some? && item.expired)
    && (match item.decision
        case Some(d) => row == Some(RowOf(d)) && (item.future == Done(d) || item.future == CancelledFuture)
        case None =>
          && !item.future.Done?
          && (row == None || row == Some(Pending) || (item.expired && row == Some(Expired))))
  }

  /** If every write was accepted, a settled row says exactly how its item is settled. */
  predicate ItemMatches(item: Item, row: Option<RowState>) {
    row == Some(if item.decision.Some? then RowOf(item.decision.value) else if item.expired then Expired else Pending)
  }

  function RowAt(w: World, id: string): Option<RowState> {
    if id in w.rows then Some(w.rows[id]) else None
  }

  predicate Agrees(w: World) {
    forall id | id in w.items :: ItemAgrees(w.items[id], RowAt(w, id))
  }

  predicate Matches(w: World) {
    forall id | id in w.items :: ItemMatches(w.items[id], RowAt(w, id))
  }

  predicate Stored(op: Op) {
    !op.CancelRun? ==> op.stored
  }

  lemma ExpiringAgrees(w: World, id: string, stored: bool)
    requires Agrees(w) && id in w.items
    ensures Agrees(Expiring(w, id, stored))
    ensures Matches(w) && stored ==> Matches(Expiring(w, id, stored))
  {
  }

  lemma CancelledAgrees(w: World, runId: string)
    requires Agrees(w)
    ensures Agrees(World(Cancelled(w.items, runId), w.rows))
    ensures Matches(w) ==> Matches(World(Cancelled(w.items, runId), w.rows))
  {
  }

  lemma AnswerAgrees(w: World, op: Op, timeout: int)
    requires Agrees(w) && op.Resolve?
    ensures Agrees(Step(w, op, timeout))
    ensures Matches(w) && op.stored ==> Matches(Step(w, op, timeout))
  {
    hide Expiring;
    if Answered(w, op, timeout).TooLate? || Answered(w, op, timeout).ExpiryNotStored? {
      ExpiringAgrees(w, op.id, op.stored);
    }
  }

  lemma StepAgrees(w: World, op: Op, timeout: int)
    requires Agrees(w) && Possible(w, op, timeout)
    ensures Agrees(Step(w, op, timeout))
    ensures Matches(w) && Stored(op) ==> Matches(Step(w, op, timeout))
  {
    hide Answered, Expiring, Cancelled;
    match op
    case Request(_, _, _, _, _) =>
    case Wait(id, _, _, end, stored) =>
      if id in w.items && end.TimedOut? {
        ExpiringAgrees(w, id, stored);
      }
    case Resolve(_, _, _, _, _) => AnswerAgrees(w, op, timeout);
    case CancelRun(runId) => CancelledAgrees(w, runId);
  }

  /** Over every interleaving: items and rows agree, and they match exactly if no
      write failed. */
  lemma {:induction false} AlwaysAgrees(start: World, ops: seq<Op>, timeout: int)
    requires Fresh(start) && AllPossible(start, ops, timeout)
    ensures Agrees(After(start, ops, timeout))
    ensures (forall k | 0 <= k < |ops| :: Stored(ops[k])) ==> Matches(After(start, ops, timeout))
  {
    if ops != [] {
      hide Agrees, Matches, Step;
      var n := |ops| - 1;
      assert forall k | 0 <= k < n :: ops[..n][..k] == ops[..k];
      AlwaysAgrees(start, ops[..n], timeout);
      assert ops[..n] == ops[..|ops| - 1];
      StepAgrees(After(start, ops[..n], timeout), ops[n], timeout);
    } else {
      NothingAgrees(start);
    }
  }

  lemma NothingAgrees(w: World)
    requires w.items == map[]
    ensures Agrees(w) && Matches(w)
  {
  }

  // ---- settled for good ----

  lemma StepKeepsSettled(w: World, op: Op, timeout: int, id: string)
    requires Agrees(w) && Possible(w, op, timeout)
    ensures id in w.rows && w.rows[id] != Pending ==> RowAt(Step(w, op, timeout), id) == Some(w.rows[id])
    ensures id in w.items ==>
              && id in Step(w, op, timeout).items
              && var before, after := w.items[id], Step(w, op, timeout).items[id];
                 && after.runId == before.runId && after.callId == before.callId
                 && after.requestedAt == before.requestedAt
                 && (before.decision.Some? ==> after.decision == before.decision)
                 && (before.expired ==> after.expired)
  {
  }

  lemma {:induction false} PrefixPossible(start: World, ops: seq<Op>, n: nat, timeout: int)
    requires n <= |ops| && AllPossible(start, ops, timeout)
    ensures AllPossible(start, ops[..n], timeout)
    ensures n < |ops| ==> Possible(After(start, ops[..n], timeout), ops[n], timeout)
  {
    hide Possible, After;
    forall k | 0 <= k < n ensures Possible(After(start, ops[..n][..k], timeout), ops[..n][k], timeout) {
      assert ops[..n][..k] == ops[..k] && ops[..n][k] == ops[k];
    }
  }

  /** A decision is made at most once and a settled row never changes, whatever
      comes after it. */
  lemma {:induction false} SettledForGood(start: World, ops: seq<Op>, more: seq<Op>, timeout: int, id: string)
    requires Fresh(start) && AllPossible(start, ops + more, timeout)
    ensures var now, later := After(start, ops, timeout), After(start, ops + more, timeout);
            && (id in now.rows && now.rows[id] != Pending ==> RowAt(later, id) == Some(now.rows[id]))
            && (id in now.items ==>
                  && id in later.items && later.items[id].callId == now.items[id].callId
                  && later.items[id].runId == now.items[id].runId
                  && later.items[id].requestedAt == now.items[id].requestedAt
                  && (now.items[id].decision.Some? ==> later.items[id].decision == now.items[id].decision)
                  && (now.items[id].expired ==> later.items[id].expired && later.items[id].decision == None))
  {
    hide Step, Agrees, AllPossible;
    assert (ops + more)[..|ops|] == ops;
    PrefixPossible(start, ops + more, |ops|, timeout);
    if more == [] {
      assert ops + more == ops;
      AlwaysAgrees(start, ops, timeout);
      AgreedExpiry(After(start, ops, timeout), id);
    } else {
      var n := |more| - 1;
      var all := ops + more;
      assert all[..|all| - 1] == ops + more[..n] && all[|all| - 1] == more[n];
      PrefixPossible(start, all, |all| - 1, timeout);
      SettledForGood(start, ops, more[..n], timeout, id);
      AlwaysAgrees(start, ops + more[..n], timeout);
      StepKeepsSettled(After(start, ops + more[..n], timeout), more[n], timeout, id);
      AlwaysAgrees(start, all, timeout);
      AgreedExpiry(After(start, all, timeout), id);
    }
  }

  lemma AgreedExpiry(w: World, id: string)
    requires Agrees(w)
    ensures id in w.items && w.items[id].expired ==> w.items[id].decision == None
  {
  }

  // ---- where a decision comes from ----

  /** Step `k` answered this open request in time, for its own run. */
  ghost predicate AnsweredBy(start: World, ops: seq<Op>, timeout: int, id: string, d: Decision, k: nat) {
    && k < |ops| && ops[k].Resolve? && ops[k].id == id && ops[k].decision == d && ops[k].stored
    && var w := After(start, ops[..k], timeout);
       id in w.items && w.items[id].runId == ops[k].runId && ops[k].now - w.items[id].requestedAt < timeout
  }

  ghost predicate WasAnswered(start: World, ops: seq<Op>, timeout: int, id: string, d: Decision) {
    exists k :: AnsweredBy(start, ops, timeout, id, d, k)
  }

  lemma AnsweredLater(start: World, ops: seq<Op>, more: seq<Op>, timeout: int, id: string, d: Decision, k: nat)
    requires AnsweredBy(start, ops, timeout, id, d, k)
    ensures AnsweredBy(start, ops + more, timeout, id, d, k)
  {
    hide After;
    assert (ops + more)[..k] == ops[..k] && (ops + more)[k] == ops[k];
  }

  lemma StepDecides(w: World, op: Op, timeout: int, id: string)
    requires id in Step(w, op, timeout).items && Step(w, op, timeout).items[id].decision.Some?
    requires Possible(w, op, timeout)
    ensures var decision := Step(w, op, timeout).items[id].decision;
            || (id in w.items && w.items[id].decision == decision)
            || (op.Resolve? && op.id == id && Some(op.decision) == decision && op.stored
                && id in w.items && w.items[id].runId == op.runId && op.now - w.items[id].requestedAt < timeout)
  {
  }

  /** A decision, and with it the result a waiting call gets, comes only from an
      answer to that very request, by its own run and before the deadline. */
  lemma {:induction false} DecisionIsAnswer(start: World, ops: seq<Op>, timeout: int, id: string)
    requires Fresh(start) && AllPossible(start, ops, timeout)
    requires id in After(start, ops, timeout).items && After(start, ops, timeout).items[id].decision.Some?
    ensures WasAnswered(start, ops, timeout, id, After(start, ops, timeout).items[id].decision.value)
  {
    hide Step, AllPossible, AnsweredBy;
    if ops != [] {
      var n := |ops| - 1;
      var older, w := ops[..n], After(start, ops[..n], timeout);
      var d := After(start, ops, timeout).items[id].decision.value;
      PrefixPossible(start, ops, n, timeout);
      assert ops == older + [ops[n]];
      StepDecides(w, ops[n], timeout, id);
      if id in w.items && w.items[id].decision == Some(d) {
        DecisionIsAnswer(start, older, timeout, id);
        var k :| AnsweredBy(start, older, timeout, id, d, k);
        AnsweredLater(start, older, [ops[n]], timeout, id, d, k);
      } else {
        LastAnswers(start, ops, timeout, id, d);
      }
    }
  }

  lemma LastAnswers(start: World, ops: seq<Op>, timeout: int, id: string, d: Decision)
    requires ops != [] && var op, w := ops[|ops| - 1], After(start, ops[..|ops| - 1], timeout);
             && op.Resolve? && op.id == id && op.decision == d && op.stored
             && id in w.items && w.items[id].runId == op.runId && op.now - w.items[id].requestedAt < timeout
    ensures AnsweredBy(start, ops, timeout, id, d, |ops| - 1)
  {
    hide After;
  }

  /** An answer comes behind the request it answers. */
  lemma {:induction false} AnsweredBehind(
    start: World, ops: seq<Op>, timeout: int, id: string, d: Decision, i: nat, k: nat)
    requires Fresh(start) && AllPossible(start, ops, timeout)
    requires i < |ops| && ops[i].Request? && ops[i].id == id && AnsweredBy(start, ops, timeout, id, d, k)
    ensures i < k
  {
    hide After, AllPossible, Fresh;
    if k <= i {
      PrefixPossible(start, ops, i, timeout);
      assert ops[..i] == ops[..k] + ops[k..i];
      SettledForGood(start, ops[..k], ops[k..i], timeout, id);
    }
  }

  /** A request stands from its own step on, for its run and its call. */
  lemma {:induction false} RequestStands(start: World, ops: seq<Op>, timeout: int, i: nat)
    requires Fresh(start) && AllPossible(start, ops, timeout) && i < |ops| && ops[i].Request?
    ensures var items := After(start, ops, timeout).items;
            && ops[i].id in items && items[ops[i].id].runId == ops[i].runId
            && items[ops[i].id].callId == ops[i].callId
  {
    hide After, AllPossible, Fresh, Step;
    assert ops == ops[..i + 1] + ops[i + 1..] && ops[..i + 1] == ops[..i] + [ops[i]];
    AfterSnoc(start, ops[..i], ops[i], timeout);
    SettledForGood(start, ops[..i + 1], ops[i + 1..], timeout, ops[i].id);
    Requested(After(start, ops[..i], timeout), ops[i], timeout);
  }

  lemma Requested(w: World, op: Op, timeout: int)
    requires op.Request?
    ensures Step(w, op, timeout).items == w.items[op.id := Item(op.runId, op.callId, op.now, None, false, Open)]
  {
  }

  // ---- what a waiting call is told ----

  /** A call that is told a decision is told the one in its row, now and for ever,
      and that decision was given in time by its own run. */
  lemma {:induction false} ToldIsStored(
    start: World, ops: seq<Op>, op: Op, more: seq<Op>, timeout: int)
    requires Fresh(start) && AllPossible(start, ops + [op] + more, timeout)
    requires op.Wait? && ToldBy(After(start, ops, timeout), op).Decided?
    ensures var w, later := After(start, ops, timeout), After(start, ops + [op] + more, timeout);
            var d := ToldBy(w, op).decision;
            && WasAnswered(start, ops, timeout, op.id, d)
            && RowAt(later, op.id) == Some(RowOf(d))
  {
    hide Step, Agrees, AllPossible;
    var w := After(start, ops, timeout);
    var rest := [op] + more;
    assert ops + [op] + more == ops + rest;
    PrefixPossible(start, ops + rest, |ops|, timeout);
    assert (ops + rest)[..|ops|] == ops;
    AlwaysAgrees(start, ops, timeout);
    AgreedDecision(w, op.id);
    DecisionIsAnswer(start, ops, timeout, op.id);
    SettledForGood(start, ops, rest, timeout, op.id);
  }

  lemma AgreedDecision(w: World, id: string)
    requires Agrees(w)
    ensures id in w.items && w.items[id].future.Done? ==> w.items[id].decision == Some(w.items[id].future.decision)
    ensures id in w.items && w.items[id].decision.Some? ==> RowAt(w, id) == Some(RowOf(w.items[id].decision.value))
    ensures id in w.items && w.items[id].decision.None? ==> RowAt(w, id) in {None, Some(Pending), Some(Expired)}
  {
    if id in w.items {
      assert ItemAgrees(w.items[id], RowAt(w, id));
    }
  }

  lemma AgreedWrites(w: World, id: string)
    requires Matches(w)
    ensures id in w.items && w.items[id].expired && w.items[id].decision.None? ==> RowAt(w, id) == Some(Expired)
  {
    if id in w.items {
      assert ItemMatches(w.items[id], RowAt(w, id));
    }
  }

  /** A call that is told its request expired agrees with its row exactly if no
      decision was made before its wait ended and an earlier expiry, if there was one,
      was written; a decision stays in the row. */
  lemma {:induction false} ToldExpiredIff(start: World, ops: seq<Op>, op: Op, timeout: int)
    requires Fresh(start) && AllPossible(start, ops + [op], timeout)
    requires op.Wait? && ToldBy(After(start, ops, timeout), op).ToldExpired?
    ensures var w, after := After(start, ops, timeout), After(start, ops + [op], timeout);
            var item := w.items[op.id];
            && (forall d :: RowAt(after, op.id) == Some(RowOf(d)) <==> item.decision == Some(d))
            && (RowAt(after, op.id) == Some(Expired) <==>
                  item.decision.None? && (item.expired ==> RowAt(w, op.id) == Some(Expired)))
            && ((forall k | 0 <= k < |ops| :: Stored(ops[k])) ==>
                  (RowAt(after, op.id) == Some(Expired) <==> item.decision.None?))
  {
    hide Agrees, Matches, AllPossible, After, Stored, Step;
    var w, all := After(start, ops, timeout), ops + [op];
    assert all[..|ops|] == ops && all[|ops|] == op;
    PrefixPossible(start, all, |ops|, timeout);
    AlwaysAgrees(start, ops, timeout);
    AfterSnoc(start, ops, op, timeout);
    AgreedDecision(w, op.id);
    ExpiryIsWritten(w, op, timeout);
    if forall k | 0 <= k < |ops| :: Stored(ops[k]) {
      AgreedWrites(w, op.id);
    }
  }

  /** What the step writes whose call is told that its request expired. */
  lemma ExpiryIsWritten(w: World, op: Op, timeout: int)
    requires op.Wait? && ToldBy(w, op).ToldExpired?
    ensures var item := w.items[op.id];
            && (RowAt(Step(w, op, timeout), op.id)
                == if item.decision.None? && !item.expired then Some(Expired) else RowAt(w, op.id))
            && Step(w, op, timeout).items
               == if item.decision.None? then w.items[op.id := item.(expired := true)] else w.items
  {
  }

  /** A call that is told of a failing store has an undecided request that takes no
      answer any more, and whose row never changes until the next start. */
  lemma {:induction false} UnwrittenExpiryStays(
    start: World, ops: seq<Op>, op: Op, more: seq<Op>, timeout: int)
    requires Fresh(start) && AllPossible(start, ops + [op] + more, timeout)
    requires op.Wait? && ToldBy(After(start, ops, timeout), op).StoreFailed?
    ensures var w, later := After(start, ops, timeout), After(start, ops + [op] + more, timeout);
            && op.id in later.items && later.items[op.id].decision.None?
            && RowAt(later, op.id) == RowAt(w, op.id) && RowAt(w, op.id) in {None, Some(Pending)}
  {
    hide Agrees, AllPossible, After, Step;
    var w, all := After(start, ops, timeout), ops + [op] + more;
    assert all == (ops + [op]) + more && all[..|ops|] == ops && all[..|ops + [op]|] == ops + [op];
    PrefixPossible(start, all, |ops|, timeout);
    PrefixPossible(start, all, |ops + [op]|, timeout);
    AlwaysAgrees(start, ops, timeout);
    AfterSnoc(start, ops, op, timeout);
    FailedExpiry(w, op, timeout);
    SettledForGood(start, ops + [op], more, timeout, op.id);
    ExpiredRowStays(start, ops + [op], more, timeout, op.id);
  }

  lemma FailedExpiry(w: World, op: Op, timeout: int)
    requires Agrees(w) && op.Wait? && ToldBy(w, op).StoreFailed?
    ensures var after := Step(w, op, timeout);
            && op.id in after.items && after.items[op.id].expired && RowAt(after, op.id) == RowAt(w, op.id)
            && RowAt(w, op.id) in {None, Some(Pending)}
  {
    assert ItemAgrees(w.items[op.id], RowAt(w, op.id));
  }

  /** An expired request's row is written no more. */
  lemma {:induction false} ExpiredRowStays(start: World, ops: seq<Op>, more: seq<Op>, timeout: int, id: string)
    requires Fresh(start) && AllPossible(start, ops + more, timeout)
    requires id in After(start, ops, timeout).items && After(start, ops, timeout).items[id].expired
    ensures RowAt(After(start, ops + more, timeout), id) == RowAt(After(start, ops, timeout), id)
  {
    hide After, AllPossible, Step, Agrees;
    if more == [] {
      assert ops + more == ops;
    } else {
      var n := |more| - 1;
      var all, older := ops + more, ops + more[..n];
      assert all == older + [more[n]] && all[..|older|] == older && all[|older|] == more[n];
      PrefixPossible(start, all, |older|, timeout);
      ExpiredRowStays(start, ops, more[..n], timeout, id);
      SettledForGood(start, ops, more[..n], timeout, id);
      AfterSnoc(start, older, more[n], timeout);
      ExpiredStep(After(start, older, timeout), more[n], timeout, id);
    }
  }

  lemma ExpiredStep(w: World, op: Op, timeout: int, id: string)
    requires Possible(w, op, timeout) && id in w.items && w.items[id].expired
    ensures RowAt(Step(w, op, timeout), id) == RowAt(w, id)
  {
  }

  lemma {:induction false} AfterSnoc(start: World, ops: seq<Op>, op: Op, timeout: int)
    ensures After(start, ops + [op], timeout) == Step(After(start, ops, timeout), op, timeout)
  {
    hide Step;
    assert (ops + [op])[..|ops|] == ops;
  }

  // ---- what the operations do ----

  /** A cancelled run loses exactly its own open requests: their futures are cancelled,
      and nothing else changes. */
  lemma CancelRunIs(w: World, runId: string, timeout: int)
    ensures var after := Step(w, CancelRun(runId), timeout);
            && after.rows == w.rows && after.items.Keys == w.items.Keys
            && forall id | id in w.items ::
                 if w.items[id].runId == runId && w.items[id].future == Open
                 then after.items[id] == w.items[id].(future := CancelledFuture)
                 else after.items[id] == w.items[id]
  {
  }

  /** The requests of other runs take their answers as if nothing had happened. */
  lemma OthersStillAnswer(w: World, runId: string, op: Op, timeout: int)
    requires op.Resolve? && op.runId != runId
    ensures var after := Step(w, CancelRun(runId), timeout);
            && Answered(after, op, timeout) == Answered(w, op, timeout)
            && (Answered(w, op, timeout) == Resolved ==>
                  Step(after, op, timeout).items[op.id].future == Done(op.decision))
  {
    CancelRunIs(w, runId, timeout);
  }

  lemma StepKeepsCancelled(w: World, op: Op, timeout: int, id: string)
    requires Possible(w, op, timeout) && id in w.items && w.items[id].future == CancelledFuture
    ensures id in Step(w, op, timeout).items && Step(w, op, timeout).items[id].future == CancelledFuture
  {
  }

  lemma {:induction false} CancelledForGood(start: World, ops: seq<Op>, more: seq<Op>, timeout: int, id: string)
    requires AllPossible(start, ops + more, timeout)
    requires id in After(start, ops, timeout).items && After(start, ops, timeout).items[id].future == CancelledFuture
    ensures var later := After(start, ops + more, timeout);
            id in later.items && later.items[id].future == CancelledFuture
  {
    hide Step, AllPossible, After;
    if more == [] {
      assert ops + more == ops;
    } else {
      var n := |more| - 1;
      var all, older := ops + more, ops + more[..n];
      assert all == older + [more[n]] && all[..|older|] == older && all[|older|] == more[n];
      PrefixPossible(start, all, |older|, timeout);
      CancelledForGood(start, ops, more[..n], timeout, id);
      AfterSnoc(start, older, more[n], timeout);
      StepKeepsCancelled(After(start, older, timeout), more[n], timeout, id);
    }
  }

  /** Once its run is cancelled, an open request never yields a decision: every later
      wait is told that it is cancelled, or that the deadline has passed. */
  lemma {:induction false} CancelledIsTold(
    start: World, ops: seq<Op>, runId: string, more: seq<Op>, op: Op, timeout: int)
    requires AllPossible(start, ops + [CancelRun(runId)] + more, timeout) && op.Wait?
    requires var items := After(start, ops, timeout).items;
             op.id in items && items[op.id].runId == runId && items[op.id].future == Open
    ensures var told := ToldBy(After(start, ops + [CancelRun(runId)] + more, timeout), op);
            if op.end.TimedOut? then told.ToldExpired? || told.StoreFailed? else told.ToldCancelled?
  {
    hide Step, AllPossible, After, ExpiryFails;
    var now := ops + [CancelRun(runId)];
    AfterSnoc(start, ops, CancelRun(runId), timeout);
    CancelRunIs(After(start, ops, timeout), runId, timeout);
    CancelledForGood(start, now, more, timeout, op.id);
  }

  /** A new request is open and undecided, and its row pending if it can be written. */
  lemma RequestIs(w: World, id: string, runId: string, callId: string, now: int, stored: bool, timeout: int)
    requires Possible(w, Op.Request(id, runId, callId, now, stored), timeout)
    ensures var after := Step(w, Op.Request(id, runId, callId, now, stored), timeout);
            && after.items == w.items[id := Item(runId, callId, now, None, false, Open)]
            && after.rows == if stored then w.rows[id := Pending] else w.rows
  {
  }

  /** Which answers a request takes, and what they change: an answer counts exactly if
      it is for an undecided, unexpired request of its own run, comes before the
      deadline and can be written to a pending row. */
  lemma AnswerIs(w: World, op: Op, timeout: int)
    requires op.Resolve?
    ensures var answer, after := Answered(w, op, timeout), Step(w, op, timeout);
            var known := op.id in w.items && w.items[op.id].runId == op.runId;
            && (answer.NotFound? <==> !known)
            && (known ==>
                  var item := w.items[op.id];
                  var open := item.decision == None && !item.expired && op.now < item.requestedAt + timeout;
                  var written := op.stored && RowAt(w, op.id) == Some(Pending);
                  && (answer.AlreadyResolved? <==> item.decision.Some?)
                  && (answer.TooLate? <==> item.decision == None && !open && (item.expired || written))
                  && (answer.ExpiryNotStored? <==> item.decision == None && !open && !item.expired && !written)
                  && (answer.NotStored? <==> open && !written)
                  && (answer.AlreadyCancelled? <==> open && written && item.future == CancelledFuture)
                  && (answer.Resolved? <==> open && written && item.future != CancelledFuture))
            && (answer.Resolved? || answer.AlreadyCancelled? ==>
                  && after.rows == w.rows[op.id := if op.decision == Approve then Approved else Rejected]
                  && after.items.Keys == w.items.Keys
                  && after.items[op.id].decision == Some(op.decision)
                  && (answer.Resolved? ==> after.items[op.id].future == Done(op.decision)))
            && (answer.TooLate? || answer.ExpiryNotStored? ==>
                  after.items == w.items[op.id := w.items[op.id].(expired := true)])
            && (answer.NotFound? || answer.AlreadyResolved? || answer.NotStored? ==> after == w)
  {
  }

  /** The user approves just before the deadline, and the wait begins after it. */
  function LateWait(timeout: int): seq<Op> {
    [Request("approval", "run", "call", 0, true), Resolve("run", "approval", Approve, timeout - 1, true),
     Wait("approval", timeout, timeout, TimedOut, true)]
  }

  /** Then the call is told that its request expired while its row says approved. */
  lemma {:induction false} ApprovedButToldExpired(timeout: int)
    requires timeout > 0
    ensures var start, ops := World(map[], map[]), LateWait(timeout);
            && Fresh(start) && AllPossible(start, ops, timeout)
            && ToldBy(After(start, ops[..2], timeout), ops[2]) == ToldExpired
            && RowAt(After(start, ops, timeout), "approval") == Some(Approved)
  {
    var start, ops := World(map[], map[]), LateWait(timeout);
    assert ops[..0] == [] && ops[..1] == [ops[0]] && ops[..2] == [ops[0]] + [ops[1]] && ops == ops[..2] + [ops[2]];
    assert ops[..1] == [] + [ops[0]] && ops[..3] == ops;
    AfterSnoc(start, [], ops[0], timeout);
    AfterSnoc(start, [ops[0]], ops[1], timeout);
    AfterSnoc(start, ops[..2], ops[2], timeout);
    var asked := Step(start, ops[0], timeout);
    var answered := Step(asked, ops[1], timeout);
    assert answered.items["approval"] == Item("run", "call", 0, Some(Approve), false, Done(Approve));
  }

  // ---- the code ----

  class ApprovalStore {
    var rows: map<string, RowState>

    constructor (rows: map<string, RowState>)
      ensures this.rows == rows
    {
      this.rows := rows;
    }

    method CreateApproval(id: string, stored: bool) returns (ok: bool)
      modifies this
      ensures ok == (stored && id !in old(rows))
      ensures rows == if ok then old(rows)[id := Pending] else old(rows)
    {
      ok := stored && id !in rows;
      if ok {
        rows := rows[id := Pending];
      }
    }

    method ResolveApproval(id: string, decision: Decision, stored: bool) returns (ok: bool)
      modifies this
      ensures ok == Writable(old(rows), id, stored)
      ensures rows == if ok then old(rows)[id := RowOf(decision)] else old(rows)
    {
      ok := stored && id in rows && rows[id] == Pending;
      if ok {
        rows := rows[id := RowOf(decision)];
      }
    }

    method ExpireApproval(id: string, stored: bool) returns (ok: bool)
      modifies this
      ensures ok == Writable(old(rows), id, stored)
      ensures rows == if ok then old(rows)[id := Expired] else old(rows)
    {
      ok := stored && id in rows && rows[id] == Pending;
      if ok {
        rows := rows[id := Expired];
      }
    }

    /** At start-up no row of an earlier process may stay pending. */
    method InterruptActiveRuns()
      modifies this
      ensures rows.Keys == old(rows).Keys
      ensures forall id | id in rows :: rows[id] == if old(rows)[id] == Pending then Expired else old(rows)[id]
    {
      rows := map id | id in rows :: if rows[id] == Pending then Expired else rows[id];
    }
  }

  class ApprovalCoordinator {
    const timeout: int
    const store: ApprovalStore
    var items: map<string, Item>

    ghost function State(): World
      reads this, store
    {
      World(items, store.rows)
    }

    /** Wired to a store whose pending rows were settled at start-up. */
    constructor (timeout: int, store: ApprovalStore)
      requires forall id | id in store.rows :: store.rows[id] != Pending
      ensures this.timeout == timeout && this.store == store && Fresh(State())
    {
      this.timeout, this.store, items := timeout, store, map[];
    }

    method Request(id: string, runId: string, callId: string, now: int, stored: bool) returns (ok: bool)
      requires Possible(State(), Op.Request(id, runId, callId, now, stored), timeout)
      modifies this, store
      ensures State() == Step(old(State()), Op.Request(id, runId, callId, now, stored), timeout)
      ensures ok == stored
    {
      items := items[id := Item(runId, callId, now, None, false, Open)];
      ok := store.CreateApproval(id, stored);
    }

    method Expire(id: string, stored: bool) returns (ok: bool)
      requires id in items
      modifies this, store
      ensures State() == Expiring(old(State()), id, stored)
      ensures ok == !ExpiryFails(old(State()), id, stored)
    {
      var item := items[id];
      if item.expired || item.decision.Some? {
        return true;
      }
      items := items[id := item.(expired := true)];
      ok := store.ExpireApproval(id, stored);
    }

    /** The end of a wait and what the waiting call is told: the decision, that the
        deadline passed (whatever the future holds by then), that it is cancelled, or the
        error of a store that cannot write its expiry. */
    method Wait(id: string, entered: int, ended: int, end: WaitEnd, stored: bool) returns (told: Told)
      requires Possible(State(), Op.Wait(id, entered, ended, end, stored), timeout)
      modifies this, store
      ensures State() == Step(old(State()), Op.Wait(id, entered, ended, end, stored), timeout)
      ensures told == ToldBy(old(State()), Op.Wait(id, entered, ended, end, stored))
    {
      if id !in items {
        return Missing;
      }
      if timeout - (entered - items[id].requestedAt) <= 0 {
        var ok := Expire(id, stored);
        return if ok then ToldExpired else StoreFailed;
      }
      match end
      case TimedOut =>
        var ok := Expire(id, stored);
        told := if ok then ToldExpired else StoreFailed;
      case Interrupted =>
        told := ToldCancelled;
      case Woken =>
        match items[id].future {
          case Done(decision) => told := Decided(decision);
          case _ => told := ToldCancelled;
        }
    }

    method Resolve(runId: string, id: string, decision: Decision, now: int, stored: bool) returns (answer: Answer)
      modifies this, store
      ensures State() == Step(old(State()), Op.Resolve(runId, id, decision, now, stored), timeout)
      ensures answer == Answered(old(State()), Op.Resolve(runId, id, decision, now, stored), timeout)
    {
      if id !in items || items[id].runId != runId {
        return NotFound;
      }
      var item := items[id];
      if item.decision.Some? {
        return AlreadyResolved;
      }
      if item.expired || now - item.requestedAt >= timeout {
        var ok := Expire(id, stored);
        return if ok then TooLate else ExpiryNotStored;
      }
      var ok := store.ResolveApproval(id, decision, stored);
      if !ok {
        return NotStored;
      }
      items := items[id := item.(decision := Some(decision))];
      if item.future.CancelledFuture? {
        return AlreadyCancelled;
      }
      items := items[id := items[id].(future := Done(decision))];
      answer := Resolved;
    }

    method CancelRun(runId: string)
      modifies this`items
      ensures State() == Step(old(State()), Op.CancelRun(runId), timeout)
    {
      var left := items.Keys;
      while left != {}
        invariant left <= items.Keys && items.Keys == old(items).Keys
        invariant forall id | id in items ::
                    items[id] == if id in left then old(items)[id] else Cancelled(old(items), runId)[id]
        decreases |left|
      {
        var id :| id in left;
        left := left - {id};
        if items[id].runId == runId && items[id].future.Open? {
          items := items[id := items[id].(future := CancelledFuture)];
        }
      }
      assert items == Cancelled(old(items), runId);
    }
  }
}
