/** What holds over the whole life of a projector and its journal, which grows and is
    replaced at a checkpoint. */
module ProjectionLife {
  import opened Text
  import opened Messages
  import opened ToolProtocol
  import opened Projection
  import opened Tiling
  import opened SummaryCache
  import opened Compaction
  import opened JournalSources
  import opened TaskKept
  import opened ProtocolKept
  import opened Alignment
  import opened SemanticProtocol
  import opened RunJournal

  ghost predicate LifeInv(codec: Codec, limits: Limits, history: seq<ContextSource>, st: State, live: seq<Message>) {
    && ValidCache(st)
    && st.semanticCalls <= limits.maxSemanticCompactions
    && InJournal(st, live)
    && BalancedCaches(codec, st, Normalise(codec, history, live))
  }

  /** The digest of a list of sources determines it. */
  ghost predicate TellsApart(codec: Codec) {
    forall a, b: seq<ContextSource> :: codec.sourcesDigest(a) == codec.sourcesDigest(b) ==> a == b
  }

  /** A cached summary stands for some balanced stretch of sources with its ids and digest. */
  ghost predicate Stands(codec: Codec, c: CachedSummary) {
    exists sources: seq<ContextSource> ::
      IdsOf(sources) == c.sourceIds && codec.sourcesDigest(sources) == c.sourceDigest && Balanced(MessagesOf(sources))
  }

  ghost predicate AllStand(codec: Codec, st: State) {
    forall c | c in st.cached :: Stands(codec, c)
  }

  /** Where the cached summaries come from: balanced stretches, and of this journal
      unless digests tell sources apart. */
  ghost predicate Traced(codec: Codec, st: State, live: seq<Message>) {
    && AllStand(codec, st)
    && (TellsApart(codec) || WithinJournal(st, live))
  }

  ghost predicate Life(codec: Codec, limits: Limits, history: seq<ContextSource>, st: State, live: seq<Message>) {
    LifeInv(codec, limits, history, st, live) && Traced(codec, st, live)
  }

  /** If digests tell sources apart, a summary is only ever shown for the stretch it
      stands for, whatever the journal is. */
  lemma TracedBalanced(codec: Codec, st: State, live: seq<Message>, raw: seq<ContextSource>)
    requires Traced(codec, st, live) && TellsApart(codec)
    ensures BalancedCaches(codec, st, raw)
  {
    hide AllCallIds, AllResultIds;
    forall c, i: nat | c in st.cached && i <= |raw| && Matches(codec, c, raw, i)
      ensures Balanced(MessagesOf(raw[i..i + |c.sourceIds|]))
    {
      assert Stands(codec, c);
      var sources: seq<ContextSource> :| IdsOf(sources) == c.sourceIds && codec.sourcesDigest(sources) == c.sourceDigest
                                         && Balanced(MessagesOf(sources));
      assert sources == raw[i..i + |c.sourceIds|];
    }
  }

  /** The view is bounded and still shows the active task. */
  ghost predicate GoodView(limits: Limits, live: seq<Message>, view: View) {
    && view.projectedChars == Size(view.messages)
    && |view.messages| == |view.sourceIds|
    && ShowsTask(view, live)
  }

  // ---- one round ----

  lemma {:induction false} CommitInJournal(
    codec: Codec, limits: Limits, st: State, history: seq<ContextSource>, live: seq<Message>, raw: seq<ContextSource>,
    prepared: seq<ContextSource>, a: nat, b: nat, n: nat, content: string)
    requires ValidCache(st) && InJournal(st, live) && Foreign(history) && FirstUser(live).Some?
    requires raw == Normalise(codec, history, live) && RawIds(raw)
    requires IdsOf(prepared) == IdsOf(Applied(codec, st.cached, raw)) && a < b <= |prepared| && (b <= n || n < a)
    requires n < |Applied(codec, st.cached, raw)|
    requires At(Plan(codec, st.cached, raw), 0, n) == LivePosition(codec, history, live, FirstUser(live).value)
    ensures var next := Commit(codec, limits, st, raw, prepared, a, b, content).0;
            InJournal(next, live) && (WithinJournal(st, live) ==> WithinJournal(next, live))
  {
    if Legal(MessagesOf(Splice(prepared, a, SummarySource(st, content), b))) {
      CommitRecords(codec, limits, st, raw, prepared, a, b, content);
      RecordedInJournal(codec, limits, st, history, live, raw, a, b, n, content,
                        Commit(codec, limits, st, raw, prepared, a, b, content).0);
    }
  }

  lemma SemanticInJournal(
    codec: Codec, limits: Limits, st: State, history: seq<ContextSource>, live: seq<Message>, reply: SummaryReply)
    requires ValidCache(st) && InJournal(st, live) && Foreign(history)
    ensures var next := Semantic(codec, limits, st, history, live, reply).0;
            InJournal(next, live) && (WithinJournal(st, live) ==> WithinJournal(next, live))
  {
    hide AllCallIds, AllResultIds, WellFormed, Shown, CompactFrom, TakeGroups, Size, CountSteps, FindSlice, Expanded,
         Keep;
    var raw := Normalise(codec, history, live);
    var prepared := Prepared(codec, limits, st, raw);
    var slice := Candidate(codec, prepared);
    if FirstUser(live).None? {
      NoTaskNoCandidate(codec, limits, st, history, live);
    } else if slice.Ok? && reply.Summarised? {
      var n := PreparedTask(codec, limits, st, history, live);
      CandidateAvoidsTask(codec, prepared, n);
      NormaliseRawIds(codec, history, live);
      CommitInJournal(codec, limits, st, history, live, raw, prepared, slice.value.0, slice.value.1, n, reply.content);
    }
  }

  lemma {:induction false} RecordedStands(
    codec: Codec, limits: Limits, st: State, raw: seq<ContextSource>, a: nat, b: nat, content: string, next: State)
    requires ValidCache(st) && RawIds(raw) && BalancedCaches(codec, st, raw)
    requires Recorded'(codec, limits, st, raw, a, b, content, next)
    requires Balanced(MessagesOf(Applied(codec, st.cached, raw)[a..b]))
    ensures AllStand(codec, st) ==> AllStand(codec, next)
  {
    hide AllCallIds, AllResultIds, Shown, At;
    var plan := Plan(codec, st.cached, raw);
    var lo, hi := At(plan, 0, a), At(plan, 0, b);
    RawSliceBalanced(codec, st, raw, a, b);
    if AllStand(codec, st) {
      forall c | c in next.cached ensures Stands(codec, c) {
        if c !in st.cached {
          assert c.sourceIds == IdsOf(raw[lo..hi]) && c.sourceDigest == codec.sourcesDigest(raw[lo..hi]);
        }
      }
    }
  }

  lemma CommitBalanced(
    codec: Codec, limits: Limits, st: State, raw: seq<ContextSource>, prepared: seq<ContextSource>, a: nat, b: nat,
    content: string)
    requires ValidCache(st) && RawIds(raw) && BalancedCaches(codec, st, raw)
    requires IdsOf(prepared) == IdsOf(Applied(codec, st.cached, raw)) && a < b <= |prepared|
    requires SameShape(MessagesOf(Applied(codec, st.cached, raw)), MessagesOf(prepared)) && Legal(MessagesOf(prepared))
    ensures var next := Commit(codec, limits, st, raw, prepared, a, b, content).0;
            BalancedCaches(codec, next, raw) && (AllStand(codec, st) ==> AllStand(codec, next))
  {
    hide AllCallIds, AllResultIds, WellFormed, Shown, CompactFrom, TakeGroups, Size, CountSteps, FindSlice, Expanded,
         Keep;
    var shown := Applied(codec, st.cached, raw);
    var summary := SummarySource(st, content);
    if Legal(MessagesOf(Splice(prepared, a, summary, b))) {
      assert |shown| == |IdsOf(shown)| == |prepared|;
      MessagesOfSplice(prepared, a, summary, b);
      LegalSpliceBalanced(MessagesOf(prepared), a, summary.message, b);
      BalancedSameShape(MessagesOf(shown), MessagesOf(prepared), a, b);
      assert MessagesOf(shown)[a..b] == MessagesOf(shown[a..b]);
      CommitRecords(codec, limits, st, raw, prepared, a, b, content);
      RecordedBalanced(codec, limits, st, raw, a, b, content,
        Commit(codec, limits, st, raw, prepared, a, b, content).0);
      RecordedStands(codec, limits, st, raw, a, b, content, Commit(codec, limits, st, raw, prepared, a, b, content).0);
    }
  }

  lemma ValidIsNonEmpty(st: State)
    requires ValidCache(st)
    ensures NonEmptyIds(st.cached)
  {
  }

  lemma SameCaches(codec: Codec, st: State, next: State, raw: seq<ContextSource>)
    requires next.cached == st.cached && BalancedCaches(codec, st, raw)
    ensures BalancedCaches(codec, next, raw) && (AllStand(codec, st) ==> AllStand(codec, next))
  {
    hide Stands, Balanced;
  }

  lemma SemanticBalanced(
    codec: Codec, limits: Limits, st: State, history: seq<ContextSource>, live: seq<Message>, reply: SummaryReply)
    requires ValidCache(st) && Foreign(history) && BalancedCaches(codec, st, Normalise(codec, history, live))
    requires Project(codec, limits, st, history, live).Ok?
    ensures var next := Semantic(codec, limits, st, history, live, reply).0;
            && BalancedCaches(codec, next, Normalise(codec, history, live))
            && (AllStand(codec, st) ==> AllStand(codec, next))
  {
    hide BalancedCaches, AllStand, Legal, Prepared, Project, Candidate, ValidCache, Normalise, Fallback, Commit;
    var raw := Normalise(codec, history, live);
    ValidIsNonEmpty(st);
    var prepared := Prepared(codec, limits, st, raw);
    var slice := Candidate(codec, prepared);
    NormaliseRawIds(codec, history, live);
    SameCaches(codec, st, st, raw);
    SameCaches(codec, st, st.(semanticCalls := st.semanticCalls + 1), raw);
    if slice.Ok? && reply.Summarised? {
      PreparedMeaning(codec, limits, st, raw);
      AcceptedPrepared(codec, limits, st, history, live);
      CommitBalanced(codec, limits, st, raw, prepared, slice.value.0, slice.value.1, reply.content);
    }
  }

  lemma AcceptedPrepared(codec: Codec, limits: Limits, st: State, history: seq<ContextSource>, live: seq<Message>)
    requires NonEmptyIds(st.cached) && Project(codec, limits, st, history, live).Ok?
    ensures Legal(MessagesOf(Prepared(codec, limits, st, Normalise(codec, history, live))))
  {
    var raw := Normalise(codec, history, live);
    var shown := MessagesOf(Applied(codec, st.cached, raw));
    CompactMeaning(codec, shown, limits.softChars);
    SameShapeBack(shown, Compact(codec, shown, limits.softChars).0);
    LegalDependsOnShape(Compact(codec, shown, limits.softChars).0, shown);
    PreparedMeaning(codec, limits, st, raw);
    LegalDependsOnShape(shown, MessagesOf(Prepared(codec, limits, st, raw)));
  }

  lemma {:induction false} SemanticViewGood(
    codec: Codec, limits: Limits, st: State, prepared: seq<ContextSource>, a: nat, b: nat, x: ContextSource, n: nat,
    live: seq<Message>)
    requires a < b <= |prepared| && n < |prepared| && (b <= n || n < a)
    requires FirstUser(live).Some?
    requires prepared[n] == ContextSource(LiveId(FirstUser(live).value), live[FirstUser(live).value])
    ensures GoodView(limits, live, SemanticView(codec, st, prepared, a, b, Splice(prepared, a, x, b)))
  {
    var out := Splice(prepared, a, x, b);
    var k := if n < a then n else n + a + 1 - b;
    assert out[k] == prepared[n];
    assert IdsOf(out)[k] == LiveId(FirstUser(live).value) && MessagesOf(out)[k] == live[FirstUser(live).value];
  }

  lemma SemanticGoodView(
    codec: Codec, limits: Limits, st: State, history: seq<ContextSource>, live: seq<Message>, reply: SummaryReply)
    requires ValidCache(st) && InJournal(st, live) && Foreign(history)
    requires Semantic(codec, limits, st, history, live, reply).1.Ok?
    ensures GoodView(limits, live, Semantic(codec, limits, st, history, live, reply).1.value)
  {
    hide AllCallIds, AllResultIds, WellFormed, Shown, CompactFrom, TakeGroups, Size, CountSteps, FindSlice, Expanded,
         Keep;
    var raw := Normalise(codec, history, live);
    var prepared := Prepared(codec, limits, st, raw);
    var slice := Candidate(codec, prepared);
    if FirstUser(live).None? {
      NoTaskNoCandidate(codec, limits, st, history, live);
    } else {
      var n := PreparedTask(codec, limits, st, history, live);
      CandidateAvoidsTask(codec, prepared, n);
      if reply.Failed? {
        FallbackShowsTask(codec, limits, st.(semanticCalls := st.semanticCalls + 1), prepared, live, n);
      } else {
        NormaliseRawIds(codec, history, live);
        PreparedMeaning(codec, limits, st, raw);
        if Legal(MessagesOf(Splice(prepared, slice.value.0, SummarySource(st, reply.content), slice.value.1))) {
          CommitRecords(codec, limits, st, raw, prepared, slice.value.0, slice.value.1, reply.content);
          SemanticViewGood(codec, limits, st, prepared, slice.value.0, slice.value.1, SummarySource(st, reply.content),
            n, live);
        }
      }
    }
  }

  lemma FallbackFits(codec: Codec, limits: Limits, st: State, history: seq<ContextSource>, live: seq<Message>,
      reply: SummaryReply)
    requires NonEmptyIds(st.cached)
    requires Semantic(codec, limits, st, history, live, reply).1.Ok?
    requires Semantic(codec, limits, st, history, live, reply).1.value.semanticFallback
    ensures Semantic(codec, limits, st, history, live, reply).1.value.projectedChars <= limits.maxChars
  {
    hide AllCallIds, AllResultIds, WellFormed, Shown, CompactFrom, TakeGroups, Size, CountSteps, FindSlice, Expanded,
         Keep, Prepared, Candidate, Legal;
  }

  /** One semantic round keeps the life invariant. */
  lemma SemanticKeepsLife(
    codec: Codec, limits: Limits, history: seq<ContextSource>, st: State, live: seq<Message>, reply: SummaryReply)
    requires Life(codec, limits, history, st, live) && Foreign(history)
    requires st.semanticCalls < limits.maxSemanticCompactions
    requires Project(codec, limits, st, history, live).Ok?
    ensures Life(codec, limits, history, Semantic(codec, limits, st, history, live, reply).0, live)
  {
    hide Semantic, Project, BalancedCaches, InJournal, WithinJournal, ValidCache, TellsApart, Stands;
    ValidIsNonEmpty(st);
    NormaliseRawIds(codec, history, live);
    SemanticKeepsValid(codec, limits, st, history, live, reply);
    SemanticInJournal(codec, limits, st, history, live, reply);
    SemanticBalanced(codec, limits, st, history, live, reply);
    SemanticKeepsNonEmptyIds(codec, limits, st, history, live, reply);
  }

  /** A round whose view is neither refused nor a fallback is a compaction. */
  lemma RoundCompacts(codec: Codec, limits: Limits, st: State, history: seq<ContextSource>, live: seq<Message>,
      reply: SummaryReply)
    requires NonEmptyIds(st.cached)
    requires Semantic(codec, limits, st, history, live, reply).1.Ok?
    requires !Semantic(codec, limits, st, history, live, reply).1.value.semanticFallback
    ensures Semantic(codec, limits, st, history, live, reply).1.value.semanticCompacted
  {
    hide AllCallIds, AllResultIds, WellFormed, Shown, CompactFrom, TakeGroups, Size, CountSteps, FindSlice, Expanded,
         Keep, Prepared, Candidate;
  }

  // ---- all rounds ----

  /** What a round that returns a view leaves: the view is good, and it is either the
      fallback, which fits, or a compaction the next projection agrees with. */
  lemma RoundReturns(
    codec: Codec, limits: Limits, history: seq<ContextSource>, st: State, live: seq<Message>, reply: SummaryReply)
    requires Life(codec, limits, history, st, live) && Foreign(history)
    requires Project(codec, limits, st, history, live).Ok?
    requires Semantic(codec, limits, st, history, live, reply).1.Ok?
    ensures var (next, result) := Semantic(codec, limits, st, history, live, reply);
            && GoodView(limits, live, result.value) && NonEmptyIds(next.cached)
            && next.semanticCalls == st.semanticCalls + 1
            && (result.value.semanticFallback ==> result.value.projectedChars <= limits.maxChars)
            && (!result.value.semanticFallback ==> Project(codec, limits, next, history, live).Ok?)
  {
    hide Semantic, Project, BalancedCaches, InJournal, WithinJournal, ValidCache, TellsApart, Stands, GoodView;
    ValidIsNonEmpty(st);
    NormaliseRawIds(codec, history, live);
    SemanticGoodView(codec, limits, st, history, live, reply);
    SemanticKeepsNonEmptyIds(codec, limits, st, history, live, reply);
    if Semantic(codec, limits, st, history, live, reply).1.value.semanticFallback {
      FallbackFits(codec, limits, st, history, live, reply);
    } else {
      RoundCompacts(codec, limits, st, history, live, reply);
      NextProjectionAgrees(codec, limits, st, history, live, reply);
    }
  }

  /** The rounds keep the invariant and only return bounded views that show the task. */
  lemma {:induction false} RoundsSafe(
    codec: Codec, limits: Limits, history: seq<ContextSource>, st: State, live: seq<Message>,
    replies: nat -> SummaryReply, view: View, force: bool)
    requires Life(codec, limits, history, st, live) && Foreign(history) && NonEmptyIds(st.cached)
    requires Project(codec, limits, st, history, live).Ok? && GoodView(limits, live, view)
    ensures Life(codec, limits, history, Rounds(codec, limits, st, history, live, replies, view, force).0, live)
    ensures var result := Rounds(codec, limits, st, history, live, replies, view, force).1;
            result.Ok? ==> GoodView(limits, live, result.value) && result.value.projectedChars <= limits.maxChars
    decreases limits.maxSemanticCompactions - st.semanticCalls
  {
    hide Semantic, Project, Life, GoodView, NonEmptyIds;
    if (view.projectedChars > limits.maxChars || force) && st.semanticCalls < limits.maxSemanticCompactions {
      var reply := replies(st.semanticCalls);
      var (next, result) := Semantic(codec, limits, st, history, live, reply);
      SemanticKeepsLife(codec, limits, history, st, live, reply);
      if result.Ok? {
        RoundReturns(codec, limits, history, st, live, reply);
        if !result.value.semanticFallback {
          RoundsSafe(codec, limits, history, next, live, replies, result.value, false);
        }
      }
    }
  }

  /** Every projection returned fits the hard budget, reports its true size and
      contains the active task verbatim; the state stays sound either way. */
  lemma ProjectAsyncSafe(
    codec: Codec, limits: Limits, history: seq<ContextSource>, st: State, live: seq<Message>,
    client: Option<nat -> SummaryReply>, force: bool)
    requires Life(codec, limits, history, st, live) && Foreign(history)
    ensures Life(codec, limits, history, ProjectAsync(codec, limits, st, history, live, client, force).0, live)
    ensures var result := ProjectAsync(codec, limits, st, history, live, client, force).1;
            result.Ok? ==> GoodView(limits, live, result.value) && result.value.projectedChars <= limits.maxChars
  {
    hide BalancedCaches, WithinJournal, TellsApart, Stands, ShowsTask, Rounds;
    hide AllCallIds, AllResultIds, WellFormed, Shown, CompactFrom, TakeGroups, Size, CountSteps, FindSlice, Expanded,
         Keep;
    var view := Project(codec, limits, st, history, live);
    if view.Ok? {
      ProjectShowsTask(codec, limits, st, history, live);
      if client.Some? {
        RoundsSafe(codec, limits, history, st, live, client.value, view.value, force);
      }
    }
  }

  // ---- a whole life ----

  /** A message enters the journal, a request projects it, or a checkpoint replaces
      it by its system messages and a summary and drops the history. */
  datatype Op =
    | Append(message: Message)
    | Ask(client: Option<nat -> SummaryReply>, force: bool)
    | Replace(summary: string)

  /** A projector with the history and the journal it projects. */
  datatype Place = Place(st: State, history: seq<ContextSource>, live: seq<Message>)

  function Checkpoint(live: seq<Message>, summary: string): seq<Message> {
    Systems(live) + [Plain(User, summary)]
  }

  ghost function Step(codec: Codec, limits: Limits, p: Place, op: Op): Place
    requires NonEmptyIds(p.st.cached)
  {
    match op
    case Append(m) => p.(live := p.live + [m])
    case Ask(client, force) => p.(st := ProjectAsync(codec, limits, p.st, p.history, p.live, client, force).0)
    case Replace(summary) => p.(history := [], live := Checkpoint(p.live, summary))
  }

  /** The task stands directly behind all system messages of the journal. */
  ghost predicate SystemsLead(live: seq<Message>) {
    FirstUser(live) == Some(|Systems(live)|)
  }

  /** A new projector with an empty journal, then one operation after another. A
      checkpoint finds the task behind the system messages. */
  ghost predicate Reaches(codec: Codec, limits: Limits, history: seq<ContextSource>, ops: seq<Op>, p: Place) {
    if ops == [] then p == Place(State(0, 0, []), history, [])
    else
      var n := |ops| - 1;
      exists before: Place ::
        Reaches(codec, limits, history, ops[..n], before) && NonEmptyIds(before.st.cached)
        && (ops[n].Replace? ==> SystemsLead(before.live)) && p == Step(codec, limits, before, ops[n])
  }

  lemma AppendKeepsLife(codec: Codec, limits: Limits, history: seq<ContextSource>, st: State, live: seq<Message>,
      m: Message)
    requires Life(codec, limits, history, st, live)
    ensures Life(codec, limits, history, st, live + [m])
  {
    hide BalancedCaches, InJournal, WithinJournal, ValidCache, TellsApart, Stands;
    InJournalAppend(st, live, m);
    if TellsApart(codec) {
      TracedBalanced(codec, st, live, Normalise(codec, history, live + [m]));
    } else {
      BalancedAppend(codec, st, history, live, m);
    }
  }

  lemma {:induction false} CheckpointTask(live: seq<Message>, summary: string)
    ensures FirstUser(Checkpoint(live, summary)) == Some(|Systems(live)|)
  {
    hide Systems;
    OnlySystems(live);
    var kept := Systems(live);
    assert (kept + [Plain(User, summary)])[..|kept|] == kept;
    assert FirstUser(kept) == None;
  }

  /** A checkpoint keeps the invariant: old summaries are shown only where the very
      sources they stand for reappear, and never for the new task. */
  lemma ReplaceKeepsLife(
    codec: Codec, limits: Limits, history: seq<ContextSource>, st: State, live: seq<Message>, summary: string)
    requires Life(codec, limits, history, st, live) && TellsApart(codec) && SystemsLead(live)
    ensures Life(codec, limits, [], st, Checkpoint(live, summary))
  {
    hide BalancedCaches, WithinJournal, ValidCache, TellsApart, Stands, Checkpoint;
    CheckpointTask(live, summary);
    TracedBalanced(codec, st, live, Normalise(codec, [], Checkpoint(live, summary)));
    forall c | c in st.cached ensures AvoidsTask(c.sourceIds, Checkpoint(live, summary)) {
      assert AvoidsTask(c.sourceIds, live);
    }
  }

  lemma NothingForeign()
    ensures Foreign([])
  {
  }

  lemma NewLife(codec: Codec, limits: Limits, history: seq<ContextSource>)
    ensures Life(codec, limits, history, State(0, 0, []), [])
  {
  }

  /** No checkpoint replaces the journal, or digests tell sources apart. */
  ghost predicate Traceable(codec: Codec, ops: seq<Op>) {
    TellsApart(codec) || forall k | 0 <= k < |ops| :: !ops[k].Replace?
  }

  /** In every reachable state the cached id lists are non-empty, pairwise
      disjoint and balanced, none covers the active task, and the model was
      asked at most `maxSemanticCompactions` times. */
  lemma {:induction false} ReachableLife(
    codec: Codec, limits: Limits, history: seq<ContextSource>, ops: seq<Op>, p: Place)
    requires Foreign(history) && Reaches(codec, limits, history, ops, p) && Traceable(codec, ops)
    ensures Life(codec, limits, p.history, p.st, p.live) && Foreign(p.history)
    decreases |ops|
  {
    hide Life, ProjectAsync, TellsApart, Checkpoint, SystemsLead, Foreign;
    if ops == [] {
      NewLife(codec, limits, history);
    } else {
      var n := |ops| - 1;
      var before: Place :|
        Reaches(codec, limits, history, ops[..n], before) && NonEmptyIds(before.st.cached)
        && (ops[n].Replace? ==> SystemsLead(before.live)) && p == Step(codec, limits, before, ops[n]);
      ReachableLife(codec, limits, history, ops[..n], before);
      match ops[n] {
        case Append(m) => AppendKeepsLife(codec, limits, before.history, before.st, before.live, m);
        case Ask(client, force) => ProjectAsyncSafe(codec, limits, before.history, before.st, before.live,
          client, force);
        case Replace(summary) =>
          ReplaceKeepsLife(codec, limits, before.history, before.st, before.live, summary);
          NothingForeign();
      }
    }
  }

  /** In every reachable state: expanding the summaries gives back the raw ids;
      a legal journal is accepted; and with adjacent results and two assistant
      steps in view no semantic round is refused for its tool calls. */
  lemma {:induction false} ReachableProjection(
    codec: Codec, limits: Limits, history: seq<ContextSource>, ops: seq<Op>, p: Place, reply: SummaryReply)
    requires Foreign(history) && Reaches(codec, limits, history, ops, p) && Traceable(codec, ops)
    ensures NonEmptyIds(p.st.cached)
    ensures var raw := Normalise(codec, p.history, p.live);
            && Expanded(p.st.cached, IdsOf(Applied(codec, p.st.cached, raw))) == IdsOf(raw)
            && (Legal(MessagesOf(raw)) ==> Project(codec, limits, p.st, p.history, p.live).Ok?)
            && (LegalAndAdjacent(raw) && |p.live| > 0 && p.live[0].role.System?
                && TwoSteps(MessagesOf(Prepared(codec, limits, p.st, raw)))
                ==> Semantic(codec, limits, p.st, p.history, p.live, reply).1 != Err(ProtocolViolation))
  {
    hide AllCallIds, AllResultIds, WellFormed, Shown, CompactFrom, TakeGroups, Size, CountSteps, FindSlice, Expanded,
         Keep, BalancedCaches, InJournal, Traced, Foreign, Reaches, Traceable, Semantic, Project, Prepared, TwoSteps,
         Adjacent;
    var raw := Normalise(codec, p.history, p.live);
    ReachableLife(codec, limits, history, ops, p);
    NormaliseRawIds(codec, p.history, p.live);
    ExpandApplied(codec, p.st, raw);
    if Legal(MessagesOf(raw)) {
      ProjectAcceptsLegalJournal(codec, limits, p.st, p.history, p.live);
      if Adjacent(MessagesOf(raw)) && |p.live| > 0 && p.live[0].role.System?
         && TwoSteps(MessagesOf(Prepared(codec, limits, p.st, raw))) {
        SemanticAccepted(codec, limits, p.st, p.history, p.live, reply);
      }
    }
  }
}
