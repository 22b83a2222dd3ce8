/** When a semantic round is refused for its tool calls, and that it happens. */
module ProtocolLimits {
  import opened Text
  import opened Messages
  import opened ToolProtocol
  import opened Projection
  import opened Tiling
  import opened Compaction
  import opened JournalSources
  import opened Alignment
  import opened ProtocolKept
  import opened SemanticProtocol
  import opened ProjectionLife

  /** In every reachable state with a legal journal, a round is refused for its tool
      calls exactly when its summary arrived for a slice that separates a call from
      its result. */
  lemma {:induction false} SemanticRefusedIff(
    codec: Codec, limits: Limits, history: seq<ContextSource>, ops: seq<Op>, p: Place, reply: SummaryReply)
    requires Foreign(history) && Reaches(codec, limits, history, ops, p) && Traceable(codec, ops)
    requires Legal(MessagesOf(Normalise(codec, p.history, p.live)))
    ensures NonEmptyIds(p.st.cached)
    ensures var prepared := Prepared(codec, limits, p.st, Normalise(codec, p.history, p.live));
            Semantic(codec, limits, p.st, p.history, p.live, reply).1 == Err(ProtocolViolation)
            <==> reply.Summarised? && SliceOpen(codec, prepared)
  {
    hide AllCallIds, AllResultIds, WellFormed, Shown, Semantic, Prepared, Reaches, Traceable, Traced,
         BalancedCaches, SliceOpen, Foreign, CompactFrom;
    var raw := Normalise(codec, p.history, p.live);
    ReachableLife(codec, limits, history, ops, p);
    ProjectAcceptsLegalJournal(codec, limits, p.st, p.history, p.live);
    AcceptedPrepared(codec, limits, p.st, p.history, p.live);
    RoundRefusedIff(codec, limits, p.st, p.history, p.live, reply);
  }

  /** The slice the model is asked to summarise separates a call from its result. */
  ghost predicate SliceOpen(codec: Codec, prepared: seq<ContextSource>) {
    var slice := Candidate(codec, prepared);
    slice.Ok? && !Balanced(MessagesOf(prepared)[slice.value.0..slice.value.1])
  }

  lemma RoundRefusedIff(
    codec: Codec, limits: Limits, st: State, history: seq<ContextSource>, live: seq<Message>, reply: SummaryReply)
    requires NonEmptyIds(st.cached) && Legal(MessagesOf(Normalise(codec, history, live)))
    requires Legal(MessagesOf(Prepared(codec, limits, st, Normalise(codec, history, live))))
    ensures Semantic(codec, limits, st, history, live, reply).1 == Err(ProtocolViolation)
            <==> reply.Summarised? && SliceOpen(codec, Prepared(codec, limits, st, Normalise(codec, history, live)))
  {
    hide AllCallIds, AllResultIds, WellFormed, Shown, Prepared, Candidate, Commit, Fallback;
    var raw := Normalise(codec, history, live);
    var prepared := Prepared(codec, limits, st, raw);
    var slice := Candidate(codec, prepared);
    CandidateError(codec, prepared);
    FallbackAccepted(codec, limits, st.(semanticCalls := st.semanticCalls + 1), prepared);
    if slice.Ok? && reply.Summarised? {
      CommitRefusedIff(codec, limits, st, raw, prepared, slice.value.0, slice.value.1, reply.content);
    }
  }

  lemma CommitRefusedIff(
    codec: Codec, limits: Limits, st: State, raw: seq<ContextSource>, prepared: seq<ContextSource>, a: nat, b: nat,
    content: string)
    requires NonEmptyIds(st.cached) && a <= b <= |prepared|
    requires Legal(MessagesOf(raw)) && Legal(MessagesOf(prepared))
    ensures Commit(codec, limits, st, raw, prepared, a, b, content).1 == Err(ProtocolViolation)
            <==> !Balanced(MessagesOf(prepared)[a..b])
  {
    hide AllCallIds, AllResultIds, WellFormed, Fallback, Legal, Balanced;
    var summary := SummarySource(st, content);
    MessagesOfSplice(prepared, a, summary, b);
    SpliceLegalIff(MessagesOf(prepared), a, summary.message, b);
    FallbackAccepted(codec, limits, st.(semanticCalls := st.semanticCalls + 1), raw);
  }

  // ---- one assistant step with eleven calls is cut by the fallback border ----

  const CALLS := 11

  function OneStep(): seq<Message> {
    [Plain(System, "contract"), Plain(User, "task"),
     Message(Assistant, "", seq(CALLS, k requires 0 <= k < CALLS => ToolCall(Decimal(k), "read", "{}")), None)]
  }

  function Results(n: nat): (out: seq<Message>)
    ensures |out| == n
    ensures forall k | 0 <= k < n :: out[k] == ToolMessage("", Decimal(k))
  {
    seq(n, k requires 0 <= k < n => ToolMessage("", Decimal(k)))
  }

  function Journal(): seq<Message> {
    OneStep() + Results(CALLS)
  }

  lemma CallIdsOfStep()
    ensures |CallIds(OneStep()[2])| == CALLS
    ensures forall k | 0 <= k < CALLS :: CallIds(OneStep()[2])[k] == Decimal(k)
  {
  }

  lemma DistinctDecimals(ids: seq<string>)
    requires forall k | 0 <= k < |ids| :: ids[k] == Decimal(k)
    ensures Distinct(ids) && "" !in ids
  {
    forall i, j | 0 <= i < j < |ids| ensures ids[i] != ids[j] {
      if ids[i] == ids[j] {
        DecimalInjective(i, j);
      }
    }
  }

  lemma {:induction false} AppendResult(older: seq<Message>, calls: seq<string>, n: nat)
    requires WellFormed(older) && AllCallIds(older) == calls
    requires n < |calls| && calls[n] == Decimal(n) && |AllResultIds(older)| == n
    requires forall k | 0 <= k < n :: AllResultIds(older)[k] == Decimal(k)
    ensures WellFormed(older + [ToolMessage("", Decimal(n))])
    ensures AllCallIds(older + [ToolMessage("", Decimal(n))]) == calls
    ensures |AllResultIds(older + [ToolMessage("", Decimal(n))])| == n + 1
    ensures forall k | 0 <= k <= n :: AllResultIds(older + [ToolMessage("", Decimal(n))])[k] == Decimal(k)
  {
    var last := ToolMessage("", Decimal(n));
    assert (older + [last])[..|older|] == older;
    forall k | 0 <= k < n ensures AllResultIds(older)[k] != Decimal(n) {
      if Decimal(k) == Decimal(n) {
        DecimalInjective(k, n);
      }
    }
    WellFormedPrefix(older, last);
  }

  lemma {:induction false} ResultsWellFormed(step: seq<Message>, calls: seq<string>, n: nat)
    requires WellFormed(step) && AllCallIds(step) == calls && AllResultIds(step) == []
    requires n <= |calls| && forall k | 0 <= k < |calls| :: calls[k] == Decimal(k)
    ensures WellFormed(step + Results(n))
    ensures AllCallIds(step + Results(n)) == calls
    ensures |AllResultIds(step + Results(n))| == n
    ensures forall k | 0 <= k < n :: AllResultIds(step + Results(n))[k] == Decimal(k)
  {
    hide AllCallIds, AllResultIds, WellFormed;
    if n == 0 {
      assert step + Results(0) == step;
    } else {
      ResultsWellFormed(step, calls, n - 1);
      ResultsSnoc(step, n - 1);
      AppendResult(step + Results(n - 1), calls, n - 1);
    }
  }

  lemma ResultsSnoc(step: seq<Message>, n: nat)
    ensures step + Results(n + 1) == step + Results(n) + [ToolMessage("", Decimal(n))]
  {
  }

  lemma {:induction false} LegalFromIds(ms: seq<Message>)
    requires WellFormed(ms) && |AllCallIds(ms)| == |AllResultIds(ms)|
    requires forall k | 0 <= k < |AllCallIds(ms)| :: AllCallIds(ms)[k] == AllResultIds(ms)[k]
    ensures Legal(ms)
  {
    hide AllCallIds, AllResultIds;
    var calls, results := AllCallIds(ms), AllResultIds(ms);
    forall id | id in calls ensures id in results {
      var k :| 0 <= k < |calls| && calls[k] == id;
      assert results[k] == id;
    }
  }

  lemma StepWellFormed()
    ensures WellFormed(OneStep())
    ensures AllCallIds(OneStep()) == CallIds(OneStep()[2]) && AllResultIds(OneStep()) == []
  {
    var s, u, a := OneStep()[0], OneStep()[1], OneStep()[2];
    CallIdsOfStep();
    DistinctDecimals(CallIds(a));
    assert OneStep() == [] + [s] + [u] + [a];
    assert ([] + [s])[..0] == [] && ([] + [s] + [u])[..1] == [] + [s] && OneStep()[..2] == [] + [s] + [u];
    WellFormedPrefix([], s);
    WellFormedPrefix([] + [s], u);
    WellFormedPrefix([] + [s] + [u], a);
  }

  lemma JournalLegal()
    ensures Legal(Journal())
  {
    hide AllCallIds, AllResultIds, WellFormed;
    CallIdsOfStep();
    StepWellFormed();
    ResultsWellFormed(OneStep(), CallIds(OneStep()[2]), CALLS);
    LegalFromIds(OneStep() + Results(CALLS));
  }

  lemma {:induction false} OneSubstantive(ms: seq<Message>, i: nat, steps: nat)
    requires i < |ms| && steps < 2
    requires forall k | 1 <= k <= i && k != 2 :: !Substantive(ms[k])
    requires i >= 2 ==> steps == 0
    requires i < 2 ==> steps <= 1
    ensures SecondStep(ms, i, steps) == 0
    decreases i
  {
    if i > 0 {
      OneSubstantive(ms, i - 1, if i == 2 && Substantive(ms[i]) then 1 else steps);
    }
  }

  lemma {:induction false} NoCacheShowsRaw(codec: Codec, raw: seq<ContextSource>, i: nat)
    requires i <= |raw|
    ensures Shown(Plan(codec, [], raw), i) == raw[i..]
    decreases |raw| - i
  {
    if i < |raw| {
      NoCacheShowsRaw(codec, raw, i + 1);
    }
  }

  lemma JournalSourcesAre(codec: Codec)
    ensures Normalise(codec, [], Journal()) == LiveSources(Journal(), 0, |Journal()|)
  {
    LeadingSystemsIs(Journal(), 1);
  }

  lemma NothingToCapsule(codec: Codec, ms: seq<Message>, target: nat)
    requires forall k | 0 <= k < |ms| :: !Compressible(ms[k])
    ensures Compact(codec, ms, target).0 == ms
  {
    CompactMeaning(codec, ms, target);
  }

  lemma PreparedIsRaw(codec: Codec, limits: Limits)
    ensures Prepared(codec, limits, State(0, 0, []), LiveSources(Journal(), 0, |Journal()|))
            == LiveSources(Journal(), 0, |Journal()|)
  {
    var raw := LiveSources(Journal(), 0, |Journal()|);
    NoCacheShowsRaw(codec, raw, 0);
    assert raw[0..] == raw;
    NothingToCapsule(codec, MessagesOf(raw),
      if limits.softChars <= MAX_SUMMARY_INPUT_CHARS then limits.softChars else MAX_SUMMARY_INPUT_CHARS);
    SameSources(raw, WithMessages(raw, MessagesOf(raw)));
  }

  lemma SameSources(a: seq<ContextSource>, b: seq<ContextSource>)
    requires IdsOf(a) == IdsOf(b) && MessagesOf(a) == MessagesOf(b)
    ensures a == b
  {
    assert |a| == |IdsOf(a)| && |b| == |IdsOf(b)|;
    forall k | 0 <= k < |a| ensures a[k] == b[k] {
      assert IdsOf(a)[k] == IdsOf(b)[k] && MessagesOf(a)[k] == MessagesOf(b)[k];
    }
  }

  lemma JournalRange()
    ensures CandidateRange(LiveSources(Journal(), 0, |Journal()|)) == Ok((2, 4))
  {
    var raw := LiveSources(Journal(), 0, |Journal()|);
    var ms := MessagesOf(raw);
    assert ms == Journal();
    OneSubstantive(ms, 13, 0);
    LiveIdKind(1);
    LiveIdKind(2);
    assert TaskIndex(raw, 0) == Some(1);
    assert HasUnsummarised(raw, 2, 4) by {
      assert !IsSummaryId(raw[2].sourceId);
    }
  }

  lemma {:induction false} StepTaken(codec: Codec, cand: seq<ContextSource>)
    requires |cand| == 2 && cand[0].message.role.Assistant? && cand[0].message.toolCalls != []
    requires Answers(cand[1].message, cand[0].message)
    ensures TakeGroups(codec, cand, 0)
            == if PayloadSize(codec, MessagesOf(cand)) <= MAX_SUMMARY_INPUT_CHARS then Ok(2) else Err(BudgetExceeded)
  {
    hide RecordsSize;
    assert GroupEnd(cand, 0) == 2;
    assert cand[..2] == cand;
  }

  /** The step with its first result: what the model would be asked to summarise. */
  function FirstExchange(): (slice: seq<Message>) {
    Journal()[2..4]
  }

  /** It fits a summary request, as it is and with its result as a capsule. */
  predicate ExchangeFits(codec: Codec) {
    && PayloadSize(codec, FirstExchange()) <= MAX_SUMMARY_INPUT_CHARS
    && PayloadSize(codec, AllForSummary(codec, FirstExchange())) <= MAX_SUMMARY_INPUT_CHARS
  }

  lemma JournalCandidate(codec: Codec)
    ensures Candidate(codec, LiveSources(Journal(), 0, |Journal()|))
            == if ExchangeFits(codec) then Ok((2, 4)) else Err(BudgetExceeded)
  {
    hide RecordsSize, ResultsEnd, TakeGroups, CandidateRange;
    var raw := LiveSources(Journal(), 0, |Journal()|);
    var cand := raw[2..4];
    JournalRange();
    CallIdsOfStep();
    assert cand[0].message == Journal()[2] && cand[1].message == Journal()[3] == ToolMessage("", Decimal(0));
    assert CallIds(cand[0].message)[0] == Decimal(0);
    assert MessagesOf(cand) == FirstExchange();
    StepTaken(codec, cand);
  }

  lemma JournalSliceOpen()
    ensures !Balanced(Journal()[2..4])
  {
    CallIdsOfStep();
    var slice := Journal()[2..4];
    var id := Decimal(5);
    assert CallIds(slice[0])[5] == id;
    CalledAt(slice, id);
    AnsweredAt(slice, id);
    assert Decimal(0) == "0" && Decimal(5) == "5";
    assert slice[1] == ToolMessage("", Decimal(0));
  }

  lemma RefusedFrom(codec: Codec, limits: Limits, live: seq<Message>, raw: seq<ContextSource>, content: string)
    requires raw == Normalise(codec, [], live) && Legal(MessagesOf(raw))
    requires Prepared(codec, limits, State(0, 0, []), raw) == raw
    requires Candidate(codec, raw) == Ok((2, 4)) ==> !Balanced(MessagesOf(raw)[2..4])
    requires Candidate(codec, raw) == Ok((2, 4)) || Candidate(codec, raw) == Err(BudgetExceeded)
    ensures Semantic(codec, limits, State(0, 0, []), [], live, Summarised(content)).1
            == Err(if Candidate(codec, raw).Ok? then ProtocolViolation else BudgetExceeded)
  {
    hide AllCallIds, AllResultIds, WellFormed, Shown, Normalise, Commit, Prepared, Candidate;
    RoundRefusedIff(codec, limits, State(0, 0, []), [], live, Summarised(content));
  }

  /** With a single assistant step in view the border falls back to the last ten
      messages: the first semantic round of this legal journal is refused for its
      tool calls, under every encoding in which its first exchange fits a request. */
  lemma OneStepIsRefused(codec: Codec, limits: Limits, content: string)
    ensures Legal(MessagesOf(Normalise(codec, [], Journal())))
    ensures Semantic(codec, limits, State(0, 0, []), [], Journal(), Summarised(content)).1
            == Err(if ExchangeFits(codec) then ProtocolViolation else BudgetExceeded)
  {
    hide AllCallIds, AllResultIds, WellFormed, Shown, Semantic, Candidate, ExchangeFits, Prepared;
    var raw := LiveSources(Journal(), 0, |Journal()|);
    JournalSourcesAre(codec);
    JournalLegal();
    assert MessagesOf(raw) == Journal();
    PreparedIsRaw(codec, limits);
    JournalCandidate(codec);
    JournalSliceOpen();
    RefusedFrom(codec, limits, Journal(), raw, content);
  }
}
