/** The active user task survives every projection, verbatim. */
module TaskKept {
  import opened Text
  import opened Messages
  import opened Projection
  import opened Tiling
  import opened SummaryCache
  import opened Compaction
  import opened JournalSources

  /** A list of source ids leaves out the first user message of this journal. */
  ghost predicate AvoidsTask(ids: seq<string>, live: seq<Message>) {
    FirstUser(live).Some? ==> LiveId(FirstUser(live).value) !in ids
  }

  /** Cached summaries never stand for the task of this journal. */
  ghost predicate InJournal(st: State, live: seq<Message>) {
    && (st.cached != [] ==> FirstUser(live).Some?)
    && forall c | c in st.cached :: AvoidsTask(c.sourceIds, live)
  }

  /** The live ids in a list are messages of this journal. */
  ghost predicate Within(ids: seq<string>, live: seq<Message>) {
    forall k: nat | LiveId(k) in ids :: k < |live|
  }

  /** Cached summaries stand for messages of this journal only. */
  ghost predicate WithinJournal(st: State, live: seq<Message>) {
    forall c | c in st.cached :: Within(c.sourceIds, live)
  }

  lemma InJournalAppend(st: State, live: seq<Message>, m: Message)
    requires InJournal(st, live)
    ensures InJournal(st, live + [m])
    ensures WithinJournal(st, live) ==> WithinJournal(st, live + [m])
  {
    FirstUserAppend(live, m);
    if WithinJournal(st, live) {
      forall c | c in st.cached ensures Within(c.sourceIds, live + [m]) {
        assert Within(c.sourceIds, live);
      }
    }
  }

  /** The view contains a source with its own content. */
  ghost predicate ShowsVerbatim(view: View, id: string, m: Message) {
    |view.messages| == |view.sourceIds|
    && exists k :: 0 <= k < |view.sourceIds| && view.sourceIds[k] == id && view.messages[k] == m
  }

  ghost predicate ShowsTask(view: View, live: seq<Message>) {
    FirstUser(live).Some? ==>
      var t := FirstUser(live).value;
      ShowsVerbatim(view, LiveId(t), live[t])
  }

  /** A raw source outside every cached slice is shown as it is. */
  lemma ShownUncovered(codec: Codec, st: State, raw: seq<ContextSource>, p: nat) returns (n: nat)
    requires NonEmptyIds(st.cached) && p < |raw|
    requires forall c | c in st.cached :: raw[p].sourceId !in c.sourceIds
    ensures n < |Applied(codec, st.cached, raw)|
    ensures At(Plan(codec, st.cached, raw), 0, n) == p && Applied(codec, st.cached, raw)[n] == raw[p]
  {
    var plan := Plan(codec, st.cached, raw);
    n := Covering(plan, 0, p);
    ItemAt(plan, 0, n);
    var i := At(plan, 0, n);
    var c := Lookup(st.cached, raw[i].sourceId);
    if c.Some? && Matches(codec, c.value, raw, i) {
      MatchedId(codec, c.value, raw, i, p);
    }
  }

  lemma MatchedId(codec: Codec, c: CachedSummary, raw: seq<ContextSource>, i: nat, p: nat)
    requires i <= p < i + |c.sourceIds| && i <= |raw| && Matches(codec, c, raw, i)
    ensures raw[p].sourceId in c.sourceIds
  {
    assert IdsOf(raw[i..i + |c.sourceIds|])[p - i] == raw[p].sourceId;
  }

  lemma {:induction false} TaskUncovered(st: State, live: seq<Message>)
    requires InJournal(st, live) && FirstUser(live).Some?
    ensures forall c | c in st.cached :: LiveId(FirstUser(live).value) !in c.sourceIds
  {
    forall c | c in st.cached ensures LiveId(FirstUser(live).value) !in c.sourceIds {
      assert AvoidsTask(c.sourceIds, live);
    }
  }

  lemma TaskShown(codec: Codec, st: State, history: seq<ContextSource>, live: seq<Message>) returns (n: nat)
    requires NonEmptyIds(st.cached) && InJournal(st, live) && Foreign(history) && FirstUser(live).Some?
    ensures var raw := Normalise(codec, history, live);
            var t := FirstUser(live).value;
            n < |Applied(codec, st.cached, raw)|
            && Applied(codec, st.cached, raw)[n] == ContextSource(LiveId(t), live[t])
            && At(Plan(codec, st.cached, raw), 0, n) == LivePosition(codec, history, live, t)
  {
    var raw := Normalise(codec, history, live);
    var t := FirstUser(live).value;
    LiveAt(codec, history, live, t);
    TaskUncovered(st, live);
    n := ShownUncovered(codec, st, raw, LivePosition(codec, history, live, t));
  }

  lemma CompactedVerbatim(codec: Codec, sources: seq<ContextSource>, target: nat, n: nat)
    requires n < |sources| && sources[n].message.role.User?
    ensures Compact(codec, MessagesOf(sources), target).0[n] == sources[n].message
  {
    CompactMeaning(codec, MessagesOf(sources), target);
    assert MessagesOf(sources)[n] == sources[n].message;
  }

  lemma ProjectShowsTask(codec: Codec, limits: Limits, st: State, history: seq<ContextSource>, live: seq<Message>)
    requires NonEmptyIds(st.cached) && InJournal(st, live) && Foreign(history)
    requires Project(codec, limits, st, history, live).Ok?
    ensures ShowsTask(Project(codec, limits, st, history, live).value, live)
  {
    if FirstUser(live).Some? {
      var n := TaskShown(codec, st, history, live);
      var shown := Applied(codec, st.cached, Normalise(codec, history, live));
      CompactedVerbatim(codec, shown, limits.softChars, n);
      assert IdsOf(shown)[n] == LiveId(FirstUser(live).value);
    }
  }

  lemma {:induction false} FallbackShowsTask(codec: Codec, limits: Limits, st: State, sources: seq<ContextSource>,
      live: seq<Message>, n: nat)
    requires FirstUser(live).Some? && n < |sources|
    requires sources[n] == ContextSource(LiveId(FirstUser(live).value), live[FirstUser(live).value])
    requires Fallback(codec, limits, st, sources).Ok?
    ensures ShowsTask(Fallback(codec, limits, st, sources).value, live)
  {
    CompactedVerbatim(codec, sources, limits.softChars, n);
    assert IdsOf(sources)[n] == LiveId(FirstUser(live).value);
  }

  /** No source shown before the task is a live user message. */
  lemma {:induction false} NoEarlierTask(codec: Codec, limits: Limits, st: State, history: seq<ContextSource>,
      live: seq<Message>, n: nat, k: nat)
    requires ValidCache(st) && InJournal(st, live) && Foreign(history) && FirstUser(live).Some?
    requires var raw := Normalise(codec, history, live);
             k < n < |Applied(codec, st.cached, raw)|
             && At(Plan(codec, st.cached, raw), 0, n) == LivePosition(codec, history, live, FirstUser(live).value)
    ensures var source := Applied(codec, st.cached, Normalise(codec, history, live))[k];
            !(IsLiveId(source.sourceId) && source.message.role.User?)
  {
    var raw := Normalise(codec, history, live);
    var plan := Plan(codec, st.cached, raw);
    ItemAt(plan, 0, k);
    SliceShown(plan, k, n);
    var p := At(plan, 0, k);
    var c := Lookup(st.cached, raw[p].sourceId);
    if c.None? || !Matches(codec, c.value, raw, p) {
      RawKinds(codec, history, live, p);
      LeadingBeforeTask(live);
    }
  }

  lemma {:induction false} LeadingBeforeTask(live: seq<Message>)
    requires FirstUser(live).Some?
    ensures LeadingSystems(live) <= FirstUser(live).value
  {
    LeadingSystemsAppend(live, Plain(User, ""));
  }

  lemma {:induction false} TaskIndexIs(sources: seq<ContextSource>, i: nat, n: nat)
    requires i <= n < |sources|
    requires IsLiveId(sources[n].sourceId) && sources[n].message.role.User?
    requires forall k | i <= k < n :: !(IsLiveId(sources[k].sourceId) && sources[k].message.role.User?)
    ensures TaskIndex(sources, i) == Some(n)
  {
  }

  /** The chosen slice lies on one side of the task. */
  lemma {:induction false} CandidateAvoidsTask(codec: Codec, prepared: seq<ContextSource>, n: nat)
    requires TaskIndex(prepared, 0) == Some(n) && Candidate(codec, prepared).Ok?
    ensures var (a, b) := Candidate(codec, prepared).value; b <= n || n < a
  {
  }

  lemma PreparedTask(codec: Codec, limits: Limits, st: State, history: seq<ContextSource>, live: seq<Message>)
      returns (n: nat)
    requires ValidCache(st) && InJournal(st, live) && Foreign(history) && FirstUser(live).Some?
    ensures var raw := Normalise(codec, history, live);
            var prepared, t := Prepared(codec, limits, st, raw), FirstUser(live).value;
            n < |prepared| == |Applied(codec, st.cached, raw)|
            && prepared[n] == ContextSource(LiveId(t), live[t])
            && TaskIndex(prepared, 0) == Some(n)
            && At(Plan(codec, st.cached, raw), 0, n) == LivePosition(codec, history, live, t)
  {
    var raw := Normalise(codec, history, live);
    var shown, prepared := Applied(codec, st.cached, raw), Prepared(codec, limits, st, raw);
    n := TaskShown(codec, st, history, live);
    PreparedMeaning(codec, limits, st, raw);
    LiveIdKind(FirstUser(live).value);
    forall k | 0 <= k < n ensures !(IsLiveId(prepared[k].sourceId) && prepared[k].message.role.User?) {
      NoEarlierTask(codec, limits, st, history, live, n, k);
      assert IdsOf(prepared)[k] == IdsOf(shown)[k];
      assert Shape(MessagesOf(shown)[k]) == Shape(MessagesOf(prepared)[k]);
    }
    TaskIndexIs(prepared, 0, n);
  }

  /** Without a user message in the journal there is nothing to summarise for. */
  lemma {:induction false} NoTaskNoCandidate(codec: Codec, limits: Limits, st: State, history: seq<ContextSource>,
      live: seq<Message>)
    requires ValidCache(st) && InJournal(st, live) && Foreign(history) && FirstUser(live).None?
    ensures Candidate(codec, Prepared(codec, limits, st, Normalise(codec, history, live))).Err?
  {
    hide Shown, At, TakeGroups, RecordsSize;
    var raw := Normalise(codec, history, live);
    var prepared := Prepared(codec, limits, st, raw);
    var plan := Plan(codec, st.cached, raw);
    PreparedMeaning(codec, limits, st, raw);
    var t := TaskIndex(prepared, 0);
    if t.Some? {
      var k := t.value;
      assert IdsOf(prepared)[k] == IdsOf(Applied(codec, st.cached, raw))[k];
      assert Shape(MessagesOf(Applied(codec, st.cached, raw))[k]) == Shape(MessagesOf(prepared)[k]);
      ItemAt(plan, 0, k);
      RawKinds(codec, history, live, At(plan, 0, k));
    }
  }

  lemma {:induction false} SliceAvoidsTask(codec: Codec, history: seq<ContextSource>, live: seq<Message>, lo: nat,
      hi: nat)
    requires Foreign(history) && FirstUser(live).Some?
    requires lo <= hi <= |Normalise(codec, history, live)|
    requires !(lo <= LivePosition(codec, history, live, FirstUser(live).value) < hi)
    ensures AvoidsTask(IdsOf(Normalise(codec, history, live)[lo..hi]), live)
    ensures Within(IdsOf(Normalise(codec, history, live)[lo..hi]), live)
  {
    var raw := Normalise(codec, history, live);
    var ids := IdsOf(raw[lo..hi]);
    forall k: nat | LiveId(k) in ids ensures k < |live| && FirstUser(live) != Some(k) {
      var l :| 0 <= l < |ids| && ids[l] == LiveId(k);
      assert raw[lo + l].sourceId == LiveId(k);
      LiveIdAt(codec, history, live, lo + l, k);
    }
  }

  lemma {:induction false} TileOutside<T>(plan: seq<Tile<T>>, a: nat, b: nat, n: nat)
    requires Fits(plan) && a < b <= |Shown(plan, 0)| && n < |Shown(plan, 0)| && (b <= n || n < a)
    ensures At(plan, 0, a) < At(plan, 0, b) <= |plan|
    ensures !(At(plan, 0, a) <= At(plan, 0, n) < At(plan, 0, b))
  {
    SliceShown(plan, a, b);
    if b < n {
      SliceShown(plan, b, n);
    }
    if n < a {
      SliceShown(plan, n, a);
    }
  }

  lemma {:induction false} InJournalWith(st: State, next: State, live: seq<Message>, ids: seq<string>)
    requires InJournal(st, live) && FirstUser(live).Some?
    requires forall c | c in next.cached :: c in st.cached || c.sourceIds == ids
    requires AvoidsTask(ids, live) && Within(ids, live)
    ensures InJournal(next, live) && (WithinJournal(st, live) ==> WithinJournal(next, live))
  {
  }

  /** The cache recorded by a commit still leaves the task alone. */
  lemma {:induction false} RecordedInJournal(
    codec: Codec, limits: Limits, st: State, history: seq<ContextSource>, live: seq<Message>, raw: seq<ContextSource>,
    a: nat, b: nat, n: nat, content: string, next: State)
    requires InJournal(st, live) && Foreign(history) && FirstUser(live).Some? && NonEmptyIds(st.cached)
    requires raw == Normalise(codec, history, live)
    requires Recorded'(codec, limits, st, raw, a, b, content, next)
    requires n < |Applied(codec, st.cached, raw)| && (b <= n || n < a)
    requires At(Plan(codec, st.cached, raw), 0, n) == LivePosition(codec, history, live, FirstUser(live).value)
    ensures InJournal(next, live) && (WithinJournal(st, live) ==> WithinJournal(next, live))
  {
    var plan := Plan(codec, st.cached, raw);
    TileOutside(plan, a, b, n);
    SliceAvoidsTask(codec, history, live, At(plan, 0, a), At(plan, 0, b));
    RecordedCaches(codec, st.cached, raw, At(plan, 0, a), At(plan, 0, b), SummarySource(st, content));
    InJournalWith(st, next, live, IdsOf(raw[At(plan, 0, a)..At(plan, 0, b)]));
  }

  lemma RecordedCaches(codec: Codec, cached: seq<CachedSummary>, raw: seq<ContextSource>, lo: nat, hi: nat,
      summary: ContextSource)
    requires lo < hi <= |raw|
    ensures forall c | c in Recorded(codec, cached, raw, lo, hi, summary) ::
              c in cached || c.sourceIds == IdsOf(raw[lo..hi])
  {
  }
}
