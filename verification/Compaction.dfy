/** What deterministic capsules may change, and what one semantic round leaves behind. */
module Compaction {
  import opened Text
  import opened Messages
  import opened ToolProtocol
  import opened Projection
  import opened Tiling
  import opened SummaryCache

  /** Only old, long tool results turn into capsules. */
  ghost predicate CapsulesOnly(codec: Codec, before: seq<Message>, after: seq<Message>, lo: nat, hi: nat) {
    && |before| == |after|
    && forall k | 0 <= k < |before| ::
         || after[k] == before[k]
         || (lo <= k < hi && Compressible(before[k]) && after[k] == Capsule(codec, before[k]))
  }

  /** The messages with every eligible one from `i` up to `end` turned into its capsule. */
  function CapsuledTo(codec: Codec, ms: seq<Message>, i: nat, end: nat): (out: seq<Message>)
    ensures |out| == |ms|
  {
    seq(|ms|, k requires 0 <= k < |ms| => if i <= k < end && Compressible(ms[k]) then Capsule(codec, ms[k]) else ms[k])
  }

  function Eligible(ms: seq<Message>, i: nat, end: nat): nat
    requires i <= end <= |ms|
    decreases end - i
  {
    if i == end then 0 else (if Compressible(ms[i]) then 1 else 0) + Eligible(ms, i + 1, end)
  }

  lemma CapsuledNext(codec: Codec, ms: seq<Message>, i: nat, end: nat)
    requires i < end <= |ms|
    ensures var next := if Compressible(ms[i]) then ms[i := Capsule(codec, ms[i])] else ms;
            CapsuledTo(codec, next, i + 1, end) == CapsuledTo(codec, ms, i, end)
  {
  }

  lemma {:induction false} EligibleNext(codec: Codec, ms: seq<Message>, i: nat, at: nat, end: nat)
    requires i < at <= end <= |ms|
    ensures Eligible(ms[i := Capsule(codec, ms[i])], at, end) == Eligible(ms, at, end)
    decreases end - at
  {
    if at < end {
      EligibleNext(codec, ms, i, at + 1, end);
    }
  }

  lemma CapsuledNothing(codec: Codec, ms: seq<Message>, i: nat)
    ensures CapsuledTo(codec, ms, i, i) == ms
  {
  }

  /** Eligible messages turn into capsules oldest first, and no further than needed:
      up to the first place where the target is met, or else all of them. */
  lemma {:induction false} CompactFromMeaning(codec: Codec, ms: seq<Message>, i: nat, stop: nat, target: nat)
    returns (end: nat)
    requires i <= stop <= |ms|
    ensures i <= end <= stop
    ensures CompactFrom(codec, ms, i, stop, target) == (CapsuledTo(codec, ms, i, end), Eligible(ms, i, end))
    ensures end == stop || Size(CapsuledTo(codec, ms, i, end)) <= target
    ensures forall k | i <= k < end :: Size(CapsuledTo(codec, ms, i, k)) > target
    decreases stop - i
  {
    hide Size, CapsuledTo, Compressible;
    CapsuledNothing(codec, ms, i);
    if i == stop || Size(ms) <= target {
      end := i;
    } else {
      var next := if Compressible(ms[i]) then ms[i := Capsule(codec, ms[i])] else ms;
      end := CompactFromMeaning(codec, next, i + 1, stop, target);
      CapsuledNext(codec, ms, i, end);
      EligibleNext(codec, ms, i, i + 1, end);
      forall k | i <= k < end ensures Size(CapsuledTo(codec, ms, i, k)) > target {
        if k > i {
          CapsuledNext(codec, ms, i, k);
        }
      }
    }
  }

  lemma CapsulesAre(codec: Codec, ms: seq<Message>, i: nat, end: nat, stop: nat)
    requires i <= end <= stop <= |ms|
    ensures CapsulesOnly(codec, ms, CapsuledTo(codec, ms, i, end), i, stop)
  {
  }

  /** Compaction keeps shapes, every message that is no tool result, and the protected
      tail; what it reports is how many messages it turned into capsules. */
  lemma {:induction false} CompactMeaning(codec: Codec, ms: seq<Message>, target: nat)
    ensures CapsulesOnly(codec, ms, Compact(codec, ms, target).0, 0, ProtectedStart(ms))
    ensures SameShape(ms, Compact(codec, ms, target).0)
    ensures forall k | 0 <= k < |ms| && !ms[k].role.Tool? :: Compact(codec, ms, target).0[k] == ms[k]
    ensures exists end: nat | end <= ProtectedStart(ms) ::
              Compact(codec, ms, target).0 == CapsuledTo(codec, ms, 0, end)
              && Compact(codec, ms, target).1 == Eligible(ms, 0, end)
  {
    var end := CompactFromMeaning(codec, ms, 0, ProtectedStart(ms), target);
    CapsulesAre(codec, ms, 0, end, ProtectedStart(ms));
    CapsuleShape(codec, ms, Compact(codec, ms, target).0, 0, ProtectedStart(ms));
  }

  lemma CapsuleShape(codec: Codec, before: seq<Message>, after: seq<Message>, lo: nat, hi: nat)
    requires CapsulesOnly(codec, before, after, lo, hi)
    ensures SameShape(before, after)
  {
    forall k | 0 <= k < |before| ensures Shape(before[k]) == Shape(after[k]) {
      assert CallIds(before[k]) == CallIds(after[k]);
    }
  }

  lemma PreparedMeaning(codec: Codec, limits: Limits, st: State, raw: seq<ContextSource>)
    requires NonEmptyIds(st.cached)
    ensures var shown, out := Applied(codec, st.cached, raw), Prepared(codec, limits, st, raw);
            |out| == |shown| && IdsOf(out) == IdsOf(shown) && SameShape(MessagesOf(shown), MessagesOf(out))
            && forall k | 0 <= k < |shown| && !shown[k].message.role.Tool? :: out[k] == shown[k]
  {
    var shown, out := Applied(codec, st.cached, raw), Prepared(codec, limits, st, raw);
    var target := if limits.softChars <= MAX_SUMMARY_INPUT_CHARS then limits.softChars else MAX_SUMMARY_INPUT_CHARS;
    CompactMeaning(codec, MessagesOf(shown), target);
    forall k | 0 <= k < |shown| && !shown[k].message.role.Tool? ensures out[k] == shown[k] {
      assert MessagesOf(shown)[k] == shown[k].message;
      assert IdsOf(out)[k] == IdsOf(shown)[k];
      assert MessagesOf(out)[k] == MessagesOf(shown)[k];
    }
  }

  lemma MessagesOfSplice(s: seq<ContextSource>, a: nat, x: ContextSource, b: nat)
    requires a <= b <= |s|
    ensures MessagesOf(Splice(s, a, x, b)) == Splice(MessagesOf(s), a, x.message, b)
    ensures IdsOf(Splice(s, a, x, b)) == Splice(IdsOf(s), a, x.sourceId, b)
  {
  }

  lemma SameShapeSplice(p: seq<Message>, q: seq<Message>, a: nat, x: Message, b: nat)
    requires SameShape(p, q) && a <= b <= |p|
    ensures SameShape(Splice(p, a, x, b), Splice(q, a, x, b))
  {
  }

  /** What a successful semantic round did: the raw ids behind the chosen slice
      are found again in the raw sources, and exactly they are recorded. */
  ghost predicate Recorded'(codec: Codec, limits: Limits, st: State, raw: seq<ContextSource>, a: nat, b: nat,
      content: string, next: State)
    requires NonEmptyIds(st.cached)
  {
    var plan := Plan(codec, st.cached, raw);
    && a < b <= |Applied(codec, st.cached, raw)|
    && At(plan, 0, a) < At(plan, 0, b) <= |raw|
    && next == State(st.semanticCalls + 1, st.generation + 1,
                     Recorded(codec, st.cached, raw, At(plan, 0, a), At(plan, 0, b), SummarySource(st, content)))
  }

  /** The ids behind a slice of the shown sources, wherever their contents were capsuled. */
  lemma {:induction false} SliceIds(codec: Codec, st: State, raw: seq<ContextSource>, prepared: seq<ContextSource>,
      a: nat, b: nat)
    requires ValidCache(st) && RawIds(raw)
    requires IdsOf(prepared) == IdsOf(Applied(codec, st.cached, raw)) && a < b <= |prepared|
    ensures var plan := Plan(codec, st.cached, raw);
            |prepared| == |Applied(codec, st.cached, raw)|
            && At(plan, 0, a) < At(plan, 0, b) <= |raw|
            && Expanded(st.cached, IdsOf(prepared[a..b])) == IdsOf(raw[At(plan, 0, a)..At(plan, 0, b)])
  {
    var shown := Applied(codec, st.cached, raw);
    assert |prepared| == |IdsOf(prepared)| == |shown|;
    SliceExpansion(codec, st, raw, a, b);
    assert IdsOf(prepared[a..b]) == IdsOf(prepared)[a..b];
    assert IdsOf(shown[a..b]) == IdsOf(shown)[a..b];
  }

  /** With distinct raw ids the recorded slice is always found: a round that
      returns a compacted view has cached exactly the slice it replaced. */
  lemma CommitRecords(
    codec: Codec, limits: Limits, st: State, raw: seq<ContextSource>, prepared: seq<ContextSource>, a: nat, b: nat,
    content: string)
    requires ValidCache(st) && RawIds(raw)
    requires IdsOf(prepared) == IdsOf(Applied(codec, st.cached, raw)) && a < b <= |prepared|
    requires Legal(MessagesOf(Splice(prepared, a, SummarySource(st, content), b)))
    ensures Recorded'(codec, limits, st, raw, a, b, content, Commit(codec, limits, st, raw, prepared, a, b, content).0)
    ensures Commit(codec, limits, st, raw, prepared, a, b, content).1
            == Ok(SemanticView(codec, st, prepared, a, b, Splice(prepared, a, SummarySource(st, content), b)))
  {
    var plan := Plan(codec, st.cached, raw);
    SliceIds(codec, st, raw, prepared, a, b);
    FindSliceUnique(raw, At(plan, 0, a), At(plan, 0, b));
    RememberFound(codec, st, raw, At(plan, 0, a), At(plan, 0, b), SummarySource(st, content));
  }

  lemma {:induction false} RememberAt(codec: Codec, st: State, raw: seq<ContextSource>, ids: seq<string>, at: nat,
      summary: ContextSource)
    requires NonEmptyIds(st.cached) && ids != [] && FindSlice(raw, ids, 0) == Some(at)
    ensures Remember(codec, st, raw, ids, summary)
            == Some(State(st.semanticCalls + 1, st.generation + 1,
                          CacheSummary(st.cached, ids, codec.sourcesDigest(raw[at..at + |ids|]), summary)))
  {
  }

  lemma {:induction false} RememberFound(codec: Codec, st: State, raw: seq<ContextSource>, lo: nat, hi: nat,
      summary: ContextSource)
    requires NonEmptyIds(st.cached) && lo < hi <= |raw|
    requires FindSlice(raw, IdsOf(raw[lo..hi]), 0) == Some(lo)
    ensures Remember(codec, st, raw, IdsOf(raw[lo..hi]), summary)
            == Some(State(st.semanticCalls + 1, st.generation + 1, Recorded(codec, st.cached, raw, lo, hi, summary)))
  {
    var ids := IdsOf(raw[lo..hi]);
    RememberAt(codec, st, raw, ids, lo, summary);
    assert lo + |ids| == hi;
  }

  lemma CommitKeepsValid(
    codec: Codec, limits: Limits, st: State, raw: seq<ContextSource>, prepared: seq<ContextSource>, a: nat, b: nat,
    content: string)
    requires ValidCache(st) && RawIds(raw)
    requires IdsOf(prepared) == IdsOf(Applied(codec, st.cached, raw)) && a < b <= |prepared|
    ensures ValidCache(Commit(codec, limits, st, raw, prepared, a, b, content).0)
  {
    var plan := Plan(codec, st.cached, raw);
    if Legal(MessagesOf(Splice(prepared, a, SummarySource(st, content), b))) {
      CommitRecords(codec, limits, st, raw, prepared, a, b, content);
    }
    SliceIds(codec, st, raw, prepared, a, b);
    RecordedValid(codec, st, raw, At(plan, 0, a), At(plan, 0, b), content);
  }

  /** Every outcome of a semantic round keeps the cache invariant. */
  lemma SemanticKeepsValid(
    codec: Codec, limits: Limits, st: State, history: seq<ContextSource>, live: seq<Message>, reply: SummaryReply)
    requires ValidCache(st) && RawIds(Normalise(codec, history, live))
    ensures ValidCache(Semantic(codec, limits, st, history, live, reply).0)
  {
    var raw := Normalise(codec, history, live);
    var prepared := Prepared(codec, limits, st, raw);
    var slice := Candidate(codec, prepared);
    if slice.Ok? && reply.Summarised? {
      CommitKeepsValid(codec, limits, st, raw, prepared, slice.value.0, slice.value.1, reply.content);
    }
  }

  /** After a semantic compaction the next plain projection of the same inputs
      is accepted and shows exactly the ids that the compaction returned. */
  lemma NextProjectionAgrees(
    codec: Codec, limits: Limits, st: State, history: seq<ContextSource>, live: seq<Message>, reply: SummaryReply)
    requires ValidCache(st) && RawIds(Normalise(codec, history, live))
    requires Semantic(codec, limits, st, history, live, reply).1.Ok?
    requires Semantic(codec, limits, st, history, live, reply).1.value.semanticCompacted
    ensures var (next, result) := Semantic(codec, limits, st, history, live, reply);
            NonEmptyIds(next.cached)
            && Project(codec, limits, next, history, live).Ok?
            && Project(codec, limits, next, history, live).value.sourceIds == result.value.sourceIds
            && Project(codec, limits, next, history, live).value.generation == result.value.generation
  {
    hide AllCallIds, AllResultIds, WellFormed, Shown, CompactFrom, TakeGroups, Size, CountSteps, FindSlice, Expanded,
         Keep;
    var raw := Normalise(codec, history, live);
    var prepared := Prepared(codec, limits, st, raw);
    var slice := Candidate(codec, prepared);
    if slice.Ok? && reply.Summarised? {
      NextProjectionAfterCommit(codec, limits, st, history, live, slice.value.0, slice.value.1, reply.content);
    }
  }

  lemma NextProjectionAfterCommit(
    codec: Codec, limits: Limits, st: State, history: seq<ContextSource>, live: seq<Message>, a: nat, b: nat,
    content: string)
    requires ValidCache(st) && RawIds(Normalise(codec, history, live))
    requires var prepared := Prepared(codec, limits, st, Normalise(codec, history, live));
             a < b <= |prepared|
             && Legal(MessagesOf(Splice(prepared, a, SummarySource(st, content), b)))
    ensures var raw := Normalise(codec, history, live);
            var prepared := Prepared(codec, limits, st, raw);
            var (next, result) := Commit(codec, limits, st, raw, prepared, a, b, content);
            NonEmptyIds(next.cached) && result.Ok?
            && Project(codec, limits, next, history, live).Ok?
            && Project(codec, limits, next, history, live).value.sourceIds == result.value.sourceIds
            && Project(codec, limits, next, history, live).value.generation == result.value.generation
  {
    hide AllCallIds, AllResultIds, WellFormed, Shown, CompactFrom, TakeGroups, Size, CountSteps, FindSlice, Expanded,
         Keep;
    var raw := Normalise(codec, history, live);
    var prepared := Prepared(codec, limits, st, raw);
    var projected := Splice(prepared, a, SummarySource(st, content), b);
    CommitRecords(codec, limits, st, raw, prepared, a, b, content);
    var (next, result) := Commit(codec, limits, st, raw, prepared, a, b, content);
    ShownAfterRecording(codec, limits, st, raw, a, b, content, next);
    ProjectSameShape(codec, limits, next, history, live, projected);
  }

  lemma ShownAfterRecording(
    codec: Codec, limits: Limits, st: State, raw: seq<ContextSource>, a: nat, b: nat, content: string, next: State)
    requires ValidCache(st) && RawIds(raw) && Recorded'(codec, limits, st, raw, a, b, content, next)
    ensures NonEmptyIds(next.cached)
    ensures var prepared := Prepared(codec, limits, st, raw);
            |prepared| == |Applied(codec, st.cached, raw)|
            && var projected := Splice(prepared, a, SummarySource(st, content), b);
            IdsOf(Applied(codec, next.cached, raw)) == IdsOf(projected)
            && SameShape(MessagesOf(projected), MessagesOf(Applied(codec, next.cached, raw)))
  {
    var summary := SummarySource(st, content);
    var shown := Applied(codec, st.cached, raw);
    var prepared := Prepared(codec, limits, st, raw);
    AppliedIsSplice(codec, st, raw, a, b, summary);
    PreparedMeaning(codec, limits, st, raw);
    MessagesOfSplice(shown, a, summary, b);
    MessagesOfSplice(prepared, a, summary, b);
    SameShapeSplice(MessagesOf(prepared), MessagesOf(shown), a, summary.message, b);
  }

  /** A projection is refused exactly when the applied sources break the tool-call
      protocol; otherwise its view has their ids, shapes and all messages that are no
      tool results, and reports its size. */
  lemma ProjectionMeaning(codec: Codec, limits: Limits, st: State, history: seq<ContextSource>, live: seq<Message>)
    requires NonEmptyIds(st.cached)
    ensures var shown := Applied(codec, st.cached, Normalise(codec, history, live));
            var r := Project(codec, limits, st, history, live);
            && (r.Ok? <==> Legal(MessagesOf(shown)))
            && (r.Ok? ==>
                  && r.value.sourceIds == IdsOf(shown) && SameShape(MessagesOf(shown), r.value.messages)
                  && (forall k | 0 <= k < |shown| && !shown[k].message.role.Tool? ::
                     r.value.messages[k] == shown[k].message)
                  && r.value.projectedChars == Size(r.value.messages))
  {
    hide Applied, Normalise, Legal, Compact, CapsulesOnly, CapsuledTo, Eligible;
    var shown := MessagesOf(Applied(codec, st.cached, Normalise(codec, history, live)));
    CompactMeaning(codec, shown, limits.softChars);
    var out := Compact(codec, shown, limits.softChars).0;
    SameShapeBack(shown, out);
    if Legal(shown) {
      LegalDependsOnShape(shown, out);
    }
    if Legal(out) {
      LegalDependsOnShape(out, shown);
    }
  }

  lemma SameShapeBack(a: seq<Message>, b: seq<Message>)
    requires SameShape(a, b)
    ensures SameShape(b, a)
  {
    forall k | 0 <= k < |b| ensures Shape(b[k]) == Shape(a[k]) {
      assert Shape(a[k]) == Shape(b[k]);
    }
  }

  lemma ProjectSameShape(
    codec: Codec, limits: Limits, st: State, history: seq<ContextSource>, live: seq<Message>, like: seq<ContextSource>)
    requires NonEmptyIds(st.cached) && Legal(MessagesOf(like))
    requires SameShape(MessagesOf(like), MessagesOf(Applied(codec, st.cached, Normalise(codec, history, live))))
    ensures Project(codec, limits, st, history, live).Ok?
  {
    var shown := MessagesOf(Applied(codec, st.cached, Normalise(codec, history, live)));
    CompactMeaning(codec, shown, limits.softChars);
    LegalDependsOnShape(MessagesOf(like), shown);
    LegalDependsOnShape(shown, Compact(codec, shown, limits.softChars).0);
  }
}
