/** What a projection returns, what a round with the summary model asks and leaves, and
    when rounds go on, said without the functions that compute it. */
module ProjectionRounds {
  import opened Text
  import opened Messages
  import opened ToolProtocol
  import opened Projection
  import opened SummaryCache
  import opened Compaction
  import opened ProjectionLaws

  // ---- views without a summary ----

  /** The sources are shown with old results shortened as far as the target needs. */
  ghost predicate Shows(codec: Codec, sources: seq<ContextSource>, target: nat, view: View) {
    var ms := MessagesOf(sources);
    exists end: nat :: end <= ProtectedStart(ms) && ShowsTo(codec, ms, target, view, end)
      && view.sourceIds == IdsOf(sources)
  }

  ghost predicate ShowsTo(codec: Codec, ms: seq<Message>, target: nat, view: View, end: nat) {
    && view.messages == Shortened(codec, ms, end) && Needed(codec, ms, target, end)
    && view.projectedChars == Size(view.messages)
    && view.compressedMessages == |LongResults(ms, end)|
    && view.compressedSteps == (if LongResults(ms, end) != {} then |CallingAt(ms[..ProtectedStart(ms)])| else 0)
    && !view.semanticCompacted && view.digest == codec.messagesDigest(view.messages)
  }

  /** No more is shortened than the target needs, and no less unless the protected tail
      is reached. */
  ghost predicate Needed(codec: Codec, ms: seq<Message>, target: nat, end: nat) {
    && (end == ProtectedStart(ms) || Size(Shortened(codec, ms, end)) <= target)
    && forall k | 0 <= k < end :: Size(Shortened(codec, ms, k)) > target
  }

  lemma CompactShows(codec: Codec, sources: seq<ContextSource>, target: nat, view: View)
    requires var (out, shortened, steps) := Compact(codec, MessagesOf(sources), target);
             && view.messages == out && view.compressedMessages == shortened && view.compressedSteps == steps
             && view.projectedChars == Size(out) && view.digest == codec.messagesDigest(out)
    requires view.sourceIds == IdsOf(sources) && !view.semanticCompacted
    ensures Shows(codec, sources, target, view)
  {
    hide Size, Compact, CallingAt, Shortened;
    var end := CompactIs(codec, MessagesOf(sources), target);
    assert ShowsTo(codec, MessagesOf(sources), target, view, end);
  }

  lemma CompactLegal(codec: Codec, ms: seq<Message>, target: nat)
    ensures Legal(Compact(codec, ms, target).0) <==> Legal(ms)
  {
    hide Legal, Compact, CapsulesOnly, CapsuledTo, Eligible;
    CompactMeaning(codec, ms, target);
    var out := Compact(codec, ms, target).0;
    SameShapeBack(ms, out);
    if Legal(ms) {
      LegalDependsOnShape(ms, out);
    }
    if Legal(out) {
      LegalDependsOnShape(out, ms);
    }
  }

  /** A plain projection shows the applied sources, within the soft budget if old results
      allow, and is refused exactly when their calls and results do not match. */
  lemma ProjectIs(codec: Codec, limits: Limits, st: State, history: seq<ContextSource>, live: seq<Message>)
    requires NonEmptyIds(st.cached)
    ensures var shown := Applied(codec, st.cached, Normalise(codec, history, live));
            var r := Project(codec, limits, st, history, live);
            if !Legal(MessagesOf(shown)) then r == Err(ProtocolViolation)
            else
              && r.Ok? && Shows(codec, shown, limits.softChars, r.value)
              && !r.value.semanticFallback && r.value.generation == st.generation
  {
    hide Legal, Compact, Size, Shows, Applied, Normalise;
    var shown := Applied(codec, st.cached, Normalise(codec, history, live));
    CompactLegal(codec, MessagesOf(shown), limits.softChars);
    if Legal(MessagesOf(shown)) {
      CompactShows(codec, shown, limits.softChars, Project(codec, limits, st, history, live).value);
    }
  }

  /** Without a summary the projection is the plain one of the sources at hand, and it
      is refused if it does not fit the hard budget. */
  lemma FallbackIs(codec: Codec, limits: Limits, st: State, sources: seq<ContextSource>)
    ensures var r := Fallback(codec, limits, st, sources);
            if !Legal(MessagesOf(sources)) then r == Err(ProtocolViolation)
            else if Size(Compact(codec, MessagesOf(sources), limits.softChars).0) > limits.maxChars
            then r == Err(BudgetExceeded)
            else
              && r.Ok? && Shows(codec, sources, limits.softChars, r.value)
              && r.value.semanticFallback && r.value.generation == st.generation
  {
    hide Legal, Compact, Size, Shows;
    CompactLegal(codec, MessagesOf(sources), limits.softChars);
    var r := Fallback(codec, limits, st, sources);
    if r.Ok? {
      CompactShows(codec, sources, limits.softChars, r.value);
    }
  }

  /** Before a summary, old results are shortened as far as the soft budget or a request
      needs, whichever is less. */
  lemma PreparedIs(codec: Codec, limits: Limits, st: State, raw: seq<ContextSource>) returns (end: nat)
    requires NonEmptyIds(st.cached)
    ensures var shown := Applied(codec, st.cached, raw);
            var target := if limits.softChars < 96_000 then limits.softChars else 96_000;
            && end <= ProtectedStart(MessagesOf(shown)) && Needed(codec, MessagesOf(shown), target, end)
            && Prepared(codec, limits, st, raw)
               == WithMessages(shown, Shortened(codec, MessagesOf(shown), end))
  {
    hide Size, Compact, CallingAt, Shortened, Applied;
    var shown := Applied(codec, st.cached, raw);
    end := CompactIs(codec, MessagesOf(shown), if limits.softChars < 96_000 then limits.softChars else 96_000);
  }

  // ---- the slice a request is about ----

  /** A message as the request tells it: a result that is no capsule yet becomes one. */
  function Told(codec: Codec, m: Message): Message {
    if m.role.Tool? && !(exists k | 0 <= k <= |m.content| :: "evidence_capsule" <= m.content[k..])
    then Message(Tool, codec.capsule(m), [], m.toolCallId) else m
  }

  function AllTold(codec: Codec, ms: seq<Message>): (out: seq<Message>) {
    seq(|ms|, k requires 0 <= k < |ms| => Told(codec, ms[k]))
  }

  lemma ToldIs(codec: Codec, ms: seq<Message>)
    ensures AllForSummary(codec, ms) == AllTold(codec, ms)
  {
  }

  /** As many whole groups as a request holds. */
  ghost predicate Taken(codec: Codec, sources: seq<ContextSource>, n: nat) {
    && n <= |sources| && Groups(sources, 0, n) && RequestFits(codec, sources, n)
    && forall g: nat | GroupAt(sources, n, g) :: !RequestFits(codec, sources, g)
  }

  /** What may be summarised: as much of the range as a request holds, told in full. */
  ghost predicate Chosen(codec: Codec, sources: seq<ContextSource>, a: nat, b: nat) {
    exists stop: nat ::
      && CandidateRange(sources) == Ok((a, stop)) && a < b <= stop <= |sources|
      && Taken(codec, sources[a..stop], b - a)
      && 53 + RecordsSize(codec, AllTold(codec, MessagesOf(sources[a..b]))) <= 96_000
  }

  lemma {:induction false} ShorterFits(codec: Codec, sources: seq<ContextSource>, d: nat, e: nat)
    requires d <= e <= |sources| && RequestFits(codec, sources, e)
    ensures RequestFits(codec, sources, d)
  {
    hide RecordsSize;
    var all := MessagesOf(sources[..e]);
    assert all == MessagesOf(sources[..d]) + all[d..];
    RecordsJoin(codec, MessagesOf(sources[..d]), all[d..]);
  }

  /** Groups that fit lead no further than the most of them does. */
  lemma {:induction false} TakenOnce(codec: Codec, sources: seq<ContextSource>, i: nat, n: nat, m: nat)
    requires i <= n <= |sources| && i <= m <= |sources| && Groups(sources, i, n) && Groups(sources, i, m)
    requires (n > i ==> RequestFits(codec, sources, n)) && (m > i ==> RequestFits(codec, sources, m))
    requires forall g: nat | GroupAt(sources, n, g) :: !RequestFits(codec, sources, g)
    requires forall g: nat | GroupAt(sources, m, g) :: !RequestFits(codec, sources, g)
    ensures n == m
    decreases |sources| - i
  {
    hide RequestFits, GroupAt;
    if n > i {
      var g: nat :| GroupAt(sources, i, g) && g <= n && Groups(sources, g, n);
      ShorterFits(codec, sources, g, n);
      if m > i {
        var h: nat :| GroupAt(sources, i, h) && h <= m && Groups(sources, h, m);
        GroupForward(sources, i, g);
        OneGroup(sources, i, g, h);
        TakenOnce(codec, sources, g, n, m);
      }
    } else if m > i {
      var h: nat :| GroupAt(sources, i, h) && h <= m && Groups(sources, h, m);
      ShorterFits(codec, sources, h, m);
    }
  }

  lemma GroupForward(sources: seq<ContextSource>, i: nat, e: nat)
    requires GroupAt(sources, i, e)
    ensures i < e <= |sources|
  {
  }

  /** The slice sent to the model is the one that may be summarised; without one the
      budget is exceeded. */
  lemma {:induction false} CandidateIs(codec: Codec, sources: seq<ContextSource>, a: nat, b: nat)
    ensures Candidate(codec, sources) == Ok((a, b)) <==> Chosen(codec, sources, a, b)
    ensures Candidate(codec, sources).Err? ==> Candidate(codec, sources).error.BudgetExceeded?
  {
    hide CandidateRange, TakeGroups, RecordsSize, MessagesOf, AllForSummary, AllTold, Groups, GroupAt, RequestFits;
    var range := CandidateRange(sources);
    RangeError(sources);
    if range.Ok? {
      var (from, stop) := range.value;
      var slice := sources[from..stop];
      TakenAre(codec, slice, 0);
      var n := TakeGroups(codec, slice, 0);
      if n.Ok? {
        ToldIs(codec, MessagesOf(sources[from..from + n.value]));
        if n.value > 0 {
          FitsTaken(codec, slice, n.value);
        }
      }
      if Chosen(codec, sources, a, b) {
        ChosenIsTaken(codec, slice, b - a);
      }
    }
  }

  lemma RangeError(sources: seq<ContextSource>)
    ensures CandidateRange(sources).Err? ==> CandidateRange(sources).error.BudgetExceeded?
  {
    hide ProtectedStart, MessagesOf;
  }

  lemma {:induction false} FitsTaken(codec: Codec, slice: seq<ContextSource>, n: nat)
    requires TakeGroups(codec, slice, 0) == Ok(n) && n > 0
    ensures Taken(codec, slice, n)
  {
    hide TakeGroups, Groups, GroupAt, RequestFits;
    TakenAre(codec, slice, 0);
  }

  lemma {:induction false} ChosenIsTaken(codec: Codec, slice: seq<ContextSource>, n: nat)
    requires n > 0 && Taken(codec, slice, n)
    ensures TakeGroups(codec, slice, 0) == Ok(n)
  {
    hide TakeGroups, RequestFits;
    TakenAre(codec, slice, 0);
    var r := TakeGroups(codec, slice, 0);
    if r.Ok? {
      TakenOnce(codec, slice, 0, n, r.value);
    } else {
      var g: nat :| GroupAt(slice, 0, g) && !RequestFits(codec, slice, g);
      var h: nat :| GroupAt(slice, 0, h) && h <= n && Groups(slice, h, n);
      OneGroup(slice, 0, g, h);
      ShorterFits(codec, slice, h, n);
    }
  }

  // ---- one round ----

  /** What a summary of the slice from `a` to `b` leaves: it stands in the place of the
      slice, under the next number. */
  ghost predicate Replaces(
    codec: Codec, st: State, prepared: seq<ContextSource>, a: nat, b: nat, content: string, view: View)
    requires a < b <= |prepared|
  {
    var id := "semantic-summary:" + Decimal(st.generation + 1);
    var shown := MessagesOf(prepared);
    && view.messages == shown[..a] + [Message(System, content, [], None)] + shown[b..]
    && view.sourceIds == IdsOf(prepared)[..a] + [id] + IdsOf(prepared)[b..]
    && view.projectedChars == Size(view.messages) && view.digest == codec.messagesDigest(view.messages)
    && view.compressedMessages == b - a && view.compressedSteps == |CallingAt(shown[a..b])|
    && view.semanticCompacted && !view.semanticFallback && view.generation == st.generation + 1
  }

  /** One round asks at most once. Without a slice nothing happens; a failed request
      falls back to the sources at hand; a summary is refused if it parts a call from its
      result, and otherwise replaces the slice and is cached for it. */
  lemma {:induction false} RoundIs(
    codec: Codec, limits: Limits, st: State, history: seq<ContextSource>, live: seq<Message>, reply: SummaryReply)
    requires ValidCache(st) && RawIds(Normalise(codec, history, live))
    ensures var raw := Normalise(codec, history, live);
            var prepared := Prepared(codec, limits, st, raw);
            var (next, r) := Semantic(codec, limits, st, history, live, reply);
            var asked := st.(semanticCalls := st.semanticCalls + 1);
            match Candidate(codec, prepared)
            case Err(_) => next == st && r == Err(BudgetExceeded)
            case Ok((a, b)) =>
              match reply
              case Failed => next == asked && r == Fallback(codec, limits, asked, prepared)
              case Summarised(content) =>
                var spliced := MessagesOf(prepared)[..a] + [Message(System, content, [], None)]
                               + MessagesOf(prepared)[b..];
                if !Legal(spliced) then next == asked && r == Err(ProtocolViolation)
                else
                  && r.Ok? && Replaces(codec, st, prepared, a, b, content, r.value)
                  && Recorded'(codec, limits, st, raw, a, b, content, next)
  {
    hide Prepared, Candidate, Fallback, Normalise, Legal, Size, Recorded', Commit, Replaces;
    var raw := Normalise(codec, history, live);
    var prepared := Prepared(codec, limits, st, raw);
    var slice := Candidate(codec, prepared);
    CandidateIs(codec, prepared, 0, 0);
    if slice.Ok? && reply.Summarised? {
      SummaryIs(codec, limits, st, raw, prepared, slice.value.0, slice.value.1, reply.content);
    }
  }

  lemma {:induction false} SummaryIs(
    codec: Codec, limits: Limits, st: State, raw: seq<ContextSource>, prepared: seq<ContextSource>, a: nat, b: nat,
    content: string)
    requires ValidCache(st) && RawIds(raw) && IdsOf(prepared) == IdsOf(Applied(codec, st.cached, raw))
    requires a < b <= |prepared|
    ensures var (next, r) := Commit(codec, limits, st, raw, prepared, a, b, content);
            var spliced := MessagesOf(prepared)[..a] + [Message(System, content, [], None)] + MessagesOf(prepared)[b..];
            if !Legal(spliced) then next == st.(semanticCalls := st.semanticCalls + 1) && r == Err(ProtocolViolation)
            else
              && r.Ok? && Replaces(codec, st, prepared, a, b, content, r.value)
              && Recorded'(codec, limits, st, raw, a, b, content, next)
  {
    hide Legal, Size, Recorded', Applied, ValidCache, RawIds, CountSteps, AllForSummary;
    MessagesOfSplice(prepared, a, SummarySource(st, content), b);
    var spliced := MessagesOf(prepared)[..a] + [Message(System, content, [], None)] + MessagesOf(prepared)[b..];
    assert MessagesOf(Splice(prepared, a, SummarySource(st, content), b)) == spliced;
    ValidNonEmpty(st);
    if Legal(spliced) {
      CommitRecords(codec, limits, st, raw, prepared, a, b, content);
      TellingKeepsSteps(codec, MessagesOf(prepared[a..b]));
      assert MessagesOf(prepared[a..b]) == MessagesOf(prepared)[a..b];
    }
  }

  lemma ValidNonEmpty(st: State)
    requires ValidCache(st)
    ensures NonEmptyIds(st.cached)
  {
  }

  lemma TellingKeepsSteps(codec: Codec, ms: seq<Message>)
    ensures CountSteps(AllForSummary(codec, ms)) == |CallingAt(ms)|
  {
    hide CountSteps;
    var told := AllForSummary(codec, ms);
    StepsCounted(told);
    assert CallingAt(told) == CallingAt(ms);
  }

  // ---- all rounds ----

  /** Round `k + 1` is made from `states[k]` and gives way to the next one. */
  ghost predicate RoundAt(
    codec: Codec, limits: Limits, history: seq<ContextSource>, live: seq<Message>, replies: nat -> SummaryReply,
    force: bool, states: seq<State>, views: seq<View>, k: nat)
    requires |states| == |views| && k + 1 < |states|
  {
    && NonEmptyIds(states[k].cached)
    && (views[k].projectedChars > limits.maxChars || (force && k == 0))
    && states[k].semanticCalls < limits.maxSemanticCompactions
    && Semantic(codec, limits, states[k], history, live, replies(states[k].semanticCalls))
       == (states[k + 1], Ok(views[k + 1]))
    && !views[k + 1].semanticFallback && views[k + 1].digest != views[k].digest
  }

  /** What the last round made leads to. */
  ghost predicate EndsRounds(
    codec: Codec, limits: Limits, history: seq<ContextSource>, live: seq<Message>, replies: nat -> SummaryReply,
    first: bool, st: State, view: View, next: State, result: Result<View>)
  {
    if view.projectedChars <= limits.maxChars && !first then next == st && result == Ok(view)
    else if st.semanticCalls >= limits.maxSemanticCompactions then next == st && result == Err(BudgetExceeded)
    else
      && NonEmptyIds(st.cached)
      && var (after, r) := Semantic(codec, limits, st, history, live, replies(st.semanticCalls));
      && next == after
      && if r.Err? || r.value.semanticFallback then result == r
         else r.value.digest == view.digest && result == Err(BudgetExceeded)
  }

  /** Rounds are made as long as the view does not fit, or once if one was asked for;
      they end with a view that fits, at the limit of requests, with a refusal or a
      fallback, or when a round changed nothing. */
  lemma {:induction false} RoundsAre(
    codec: Codec, limits: Limits, st: State, history: seq<ContextSource>, live: seq<Message>,
    replies: nat -> SummaryReply, view: View, force: bool) returns (states: seq<State>, views: seq<View>)
    requires NonEmptyIds(st.cached)
    ensures |states| == |views| > 0 && states[0] == st && views[0] == view
    ensures forall k | 0 <= k < |states| - 1 ::
              RoundAt(codec, limits, history, live, replies, force, states, views, k)
    ensures var (next, result) := Rounds(codec, limits, st, history, live, replies, view, force);
            var n := |states| - 1;
            EndsRounds(codec, limits, history, live, replies, force && n == 0, states[n], views[n], next, result)
    decreases limits.maxSemanticCompactions - st.semanticCalls
  {
    hide Semantic;
    states, views := [st], [view];
    if (view.projectedChars > limits.maxChars || force) && st.semanticCalls < limits.maxSemanticCompactions {
      var (next, r) := Semantic(codec, limits, st, history, live, replies(st.semanticCalls));
      SemanticKeepsNonEmptyIds(codec, limits, st, history, live, replies(st.semanticCalls));
      if r.Ok? && !r.value.semanticFallback && r.value.digest != view.digest {
        var later, shown := RoundsAre(codec, limits, next, history, live, replies, r.value, false);
        states, views := states + later, views + shown;
        forall k | 0 <= k < |states| - 1 ensures RoundAt(codec, limits, history, live, replies, force, states, views, k)
        {
          if k > 0 {
            assert RoundAt(codec, limits, history, live, replies, false, later, shown, k - 1);
          }
        }
      }
    }
  }

  /** A view that fits is returned as it is unless a round is asked for; a round needs a
      model and the permission to compact; one that is asked for is made or refused. */
  lemma {:induction false} AsyncIs(
    codec: Codec, limits: Limits, st: State, history: seq<ContextSource>, live: seq<Message>,
    client: Option<nat -> SummaryReply>, force: bool)
    requires NonEmptyIds(st.cached)
    ensures var plain := Project(codec, limits, st, history, live);
            var (next, result) := ProjectAsync(codec, limits, st, history, live, client, force);
            && (plain.Err? ==> next == st && result == plain)
            && (plain.Ok? && plain.value.projectedChars <= limits.maxChars && !force ==> next == st && result == plain)
            && (plain.Ok? && (plain.value.projectedChars > limits.maxChars || force) ==>
                  && (!limits.semanticCompaction || client.None? ==> next == st && result == Err(BudgetExceeded))
                  && (result.Ok? ==> next.semanticCalls > st.semanticCalls))
  {
    hide Semantic, Project;
    var plain := Project(codec, limits, st, history, live);
    if plain.Ok? && (plain.value.projectedChars > limits.maxChars || force) && limits.semanticCompaction
       && client.Some? {
      RoundsAsk(codec, limits, st, history, live, client.value, plain.value, force);
    }
  }

  /** Rounds that were needed or asked for have asked the model, if they return a view. */
  lemma {:induction false} RoundsAsk(
    codec: Codec, limits: Limits, st: State, history: seq<ContextSource>, live: seq<Message>,
    replies: nat -> SummaryReply, view: View, force: bool)
    requires NonEmptyIds(st.cached)
    ensures var (next, result) := Rounds(codec, limits, st, history, live, replies, view, force);
            && next.semanticCalls >= st.semanticCalls
            && (result.Ok? && (force || view.projectedChars > limits.maxChars)
               ==> next.semanticCalls > st.semanticCalls)
    decreases limits.maxSemanticCompactions - st.semanticCalls
  {
    hide Semantic;
    if (view.projectedChars > limits.maxChars || force) && st.semanticCalls < limits.maxSemanticCompactions {
      var (next, r) := Semantic(codec, limits, st, history, live, replies(st.semanticCalls));
      SemanticKeepsNonEmptyIds(codec, limits, st, history, live, replies(st.semanticCalls));
      if r.Ok? && !r.value.semanticFallback && r.value.digest != view.digest {
        RoundsAsk(codec, limits, next, history, live, replies, r.value, false);
      }
    }
  }
}
