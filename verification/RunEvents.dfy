/** The public events of one run and the order they must respect. */
module RunEvents {
  datatype EventKind =
    | RunStarted
    | StepStarted
    | Progress
    | ToolRequested(id: string)
    | ApprovalRequired(id: string)
    | ApprovalResolved(id: string, approved: bool)
    | InputRequired(id: string)
    | InputResolved(id: string)
    | ToolStarted(id: string)
    | ToolCompleted(id: string)
    | StepCompleted
    | UsageReported
    | ContextProjected
    | ContextCompacted
    | CompactionFailed
    | SubtaskRequested
    | SubtaskStarted
    | SubtaskCompleted
    | SubtaskCancelled
    | RunCompleted
    | RunIncomplete
    | RunFailed
    | RunCancelled

  datatype Event = Event(kind: EventKind, sequence: nat, step: nat)

  predicate Terminal(kind: EventKind) {
    kind.RunCompleted? || kind.RunIncomplete? || kind.RunFailed? || kind.RunCancelled?
  }

  ghost predicate Numbered(events: seq<Event>, first: nat) {
    forall k | 0 <= k < |events| :: events[k].sequence == first + k
  }

  /** A run under way: started once, numbered without gaps, not ended yet. */
  ghost predicate Ongoing(events: seq<Event>, first: nat) {
    && events != [] && events[0].kind == RunStarted
    && Numbered(events, first)
    && forall k | 0 < k < |events| :: events[k].kind != RunStarted && !Terminal(events[k].kind)
  }

  /** A finished run: exactly one terminal event, and it is the last one. */
  ghost predicate Finished(events: seq<Event>, first: nat) {
    && |events| > 1
    && Ongoing(events[..|events| - 1], first)
    && Terminal(events[|events| - 1].kind)
    && Numbered(events, first)
  }

  /** A kind that may follow these events without ending the run. */
  predicate MayFollow(kind: EventKind) {
    kind != RunStarted && !Terminal(kind)
  }

  lemma OngoingSnoc(events: seq<Event>, first: nat, e: Event)
    requires Ongoing(events, first) && MayFollow(e.kind) && e.sequence == first + |events|
    ensures Ongoing(events + [e], first)
  {
  }

  lemma FinishedSnoc(events: seq<Event>, first: nat, e: Event)
    requires Ongoing(events, first) && Terminal(e.kind) && e.sequence == first + |events|
    ensures Finished(events + [e], first)
  {
    assert (events + [e])[..|events|] == events;
  }

  // ---- what the events announce ----

  function RequestedBy(kind: EventKind): seq<string> {
    if kind.ToolRequested? then [kind.id] else []
  }

  function CompletedBy(kind: EventKind): seq<string> {
    if kind.ToolCompleted? then [kind.id] else []
  }

  function Requested(events: seq<Event>): seq<string> {
    if events == [] then [] else Requested(events[..|events| - 1]) + RequestedBy(events[|events| - 1].kind)
  }

  function Completed(events: seq<Event>): seq<string> {
    if events == [] then [] else Completed(events[..|events| - 1]) + CompletedBy(events[|events| - 1].kind)
  }

  /** Where the events announce that a tool started. */
  function StartPositions(events: seq<Event>): seq<nat> {
    if events == [] then []
    else
      var last := |events| - 1;
      StartPositions(events[..last]) + if events[last].kind.ToolStarted? then [last] else []
  }

  lemma {:induction false} AnnouncedSnoc(events: seq<Event>, e: Event)
    ensures Requested(events + [e]) == Requested(events) + RequestedBy(e.kind)
    ensures Completed(events + [e]) == Completed(events) + CompletedBy(e.kind)
    ensures StartPositions(events + [e]) == StartPositions(events) + if e.kind.ToolStarted? then [|events|] else []
  {
    assert (events + [e])[..|events|] == events;
  }

  lemma AnnouncedOne(e: Event)
    requires e.kind == RunStarted
    ensures Requested([e]) == [] && Completed([e]) == [] && StartPositions([e]) == []
  {
    assert [e][..0] == [];
  }

  /** The positions are those of the started tools, in order, and all of them. */
  lemma {:induction false} StartPositionsAre(events: seq<Event>)
    ensures forall p :: p in StartPositions(events) <==> 0 <= p < |events| && events[p].kind.ToolStarted?
    ensures forall i, j | 0 <= i < j < |StartPositions(events)| :: StartPositions(events)[i] < StartPositions(events)[j]
  {
    if events != [] {
      StartPositionsAre(events[..|events| - 1]);
      var older := StartPositions(events[..|events| - 1]);
      assert forall i | 0 <= i < |older| :: older[i] in older;
    }
  }
}
