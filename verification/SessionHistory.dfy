/** The history a new run is given (`context_history_for_session` in
    src/leanharness/application/session_gateway.py). */
module SessionHistory {
  import opened Text
  import opened Messages
  import opened Projection
  import opened JournalSources
  import opened RunJournal

  const MAX_PROJECTED_HISTORY_CHARS := 64_000
  const MAX_HISTORY_ANSWER_CHARS := 8_000
  const SOURCE_OVERHEAD := 64
  const MESSAGE_PREFIX := "message:"
  const EVIDENCE_SUFFIX := ":evidence"

  /** A message of the session's database. */
  datatype Posted = Posted(id: string, runId: Option<string>, role: Role, content: string)

  /** The finished runs with their evidence text, and the run to leave out. */
  datatype Session = Session(messages: seq<Posted>, runs: seq<string>, evidence: map<string, string>,
      exclude: Option<string>)

  // ---- what a message contributes ----

  function ContentOf(m: Posted): string {
    var content := Strip(m.content);
    if m.role.Assistant? && |content| > MAX_HISTORY_ANSWER_CHARS then content[..MAX_HISTORY_ANSWER_CHARS] else content
  }

  predicate Kept(s: Session, m: Posted) {
    m.runId != s.exclude && (m.role.User? || m.role.Assistant?) && Strip(m.content) != ""
  }

  function KeyOf(m: Posted): string {
    if m.runId.Some? then RUN_PREFIX + m.runId.value else MESSAGE_PREFIX + m.id
  }

  function EvidenceId(run: string): string {
    RUN_PREFIX + run + EVIDENCE_SUFFIX
  }

  function EvidenceOf(s: Session, run: string): ContextSource
    requires run in s.evidence
  {
    ContextSource(EvidenceId(run), Plain(System, s.evidence[run]))
  }

  predicate Answers(s: Session, m: Posted, run: string) {
    Kept(s, m) && m.role.Assistant? && m.runId == Some(run) && run in s.evidence
  }

  function Emitted(s: Session, m: Posted): seq<ContextSource> {
    if !Kept(s, m) then []
    else
      (if m.runId.Some? && Answers(s, m, m.runId.value) then [EvidenceOf(s, m.runId.value)] else [])
      + [ContextSource(MESSAGE_PREFIX + m.id, Plain(m.role, ContentOf(m)))]
  }

  // ---- groups ----

  /** The group keys in the order of their first message. */
  function Keys(s: Session, ms: seq<Posted>): seq<string> {
    if ms == [] then []
    else
      var older, m := Keys(s, ms[..|ms| - 1]), ms[|ms| - 1];
      if Kept(s, m) && KeyOf(m) !in older then older + [KeyOf(m)] else older
  }

  /** Everything the messages of one key contribute, in order. */
  function GroupOf(s: Session, ms: seq<Posted>, key: string): seq<ContextSource> {
    if ms == [] then []
    else
      var older, m := GroupOf(s, ms[..|ms| - 1], key), ms[|ms| - 1];
      if Kept(s, m) && KeyOf(m) == key then older + Emitted(s, m) else older
  }

  function Groups(s: Session, ms: seq<Posted>): (groups: seq<seq<ContextSource>>)
    ensures |groups| == |Keys(s, ms)|
  {
    seq(|Keys(s, ms)|, k requires 0 <= k < |Keys(s, ms)| => GroupOf(s, ms, Keys(s, ms)[k]))
  }

  /** The run's evidence went into its group with an answer. */
  predicate Told(s: Session, ms: seq<Posted>, run: string) {
    exists k | 0 <= k < |ms| :: Answers(s, ms[k], run)
  }

  /** The finished runs whose evidence no message carries, each a group of its own. */
  function Leftover(s: Session, runs: seq<string>): seq<seq<ContextSource>> {
    if runs == [] then []
    else
      var older, run := Leftover(s, runs[..|runs| - 1]), runs[|runs| - 1];
      if run in s.evidence && !Told(s, s.messages, run) then older + [[EvidenceOf(s, run)]] else older
  }

  function AllGroups(s: Session): seq<seq<ContextSource>> {
    Groups(s, s.messages) + Leftover(s, s.runs)
  }

  // ---- the window ----

  function Cost(group: seq<ContextSource>): nat {
    if group == [] then 0 else Cost(group[..|group| - 1]) + |group[|group| - 1].message.content| + SOURCE_OVERHEAD
  }

  function TotalCost(groups: seq<seq<ContextSource>>): nat {
    if groups == [] then 0 else Cost(groups[0]) + TotalCost(groups[1..])
  }

  function Flat(groups: seq<seq<ContextSource>>): seq<ContextSource> {
    if groups == [] then [] else Flat(groups[..|groups| - 1]) + groups[|groups| - 1]
  }

  /** The longest suffix of whole groups that fits the window starts here. */
  ghost predicate Window(groups: seq<seq<ContextSource>>, n: nat) {
    && n <= |groups| && TotalCost(groups[n..]) <= MAX_PROJECTED_HISTORY_CHARS
    && forall m: nat | m < n :: TotalCost(groups[m..]) > MAX_PROJECTED_HISTORY_CHARS
  }

  lemma {:induction false} CostGrows(groups: seq<seq<ContextSource>>, m: nat, n: nat)
    requires m <= n <= |groups|
    ensures TotalCost(groups[m..]) >= TotalCost(groups[n..])
    decreases n - m
  {
    if m < n {
      CostGrows(groups, m + 1, n);
      assert groups[m..][1..] == groups[m + 1..];
    }
  }

  method CostOf(group: seq<ContextSource>) returns (cost: nat)
    ensures cost == Cost(group)
  {
    cost := 0;
    for k := 0 to |group|
      invariant cost == Cost(group[..k])
    {
      assert group[..k + 1][..k] == group[..k];
      cost := cost + |group[k].message.content| + SOURCE_OVERHEAD;
    }
    assert group[..|group|] == group;
  }

  /** Takes whole groups from the end while they fit. */
  method SelectGroups(groups: seq<seq<ContextSource>>) returns (n: nat)
    ensures Window(groups, n)
  {
    hide Cost;
    n := |groups|;
    var size := 0;
    assert groups[n..] == [];
    while n > 0
      invariant n <= |groups| && size == TotalCost(groups[n..]) <= MAX_PROJECTED_HISTORY_CHARS
    {
      var cost := CostOf(groups[n - 1]);
      assert groups[n - 1..][1..] == groups[n..];
      if size + cost > MAX_PROJECTED_HISTORY_CHARS {
        forall m: nat | m < n ensures TotalCost(groups[m..]) > MAX_PROJECTED_HISTORY_CHARS {
          CostGrows(groups, m, n - 1);
        }
        return;
      }
      n, size := n - 1, size + cost;
    }
  }

  // ---- the code's loops ----

  lemma {:induction false} KeysNext(s: Session, ms: seq<Posted>, k: nat)
    requires k < |ms|
    ensures Keys(s, ms[..k + 1])
            == if Kept(s, ms[k]) && KeyOf(ms[k]) !in Keys(s, ms[..k]) then Keys(s, ms[..k]) + [KeyOf(ms[k])]
               else Keys(s, ms[..k])
    ensures forall key :: GroupOf(s, ms[..k + 1], key)
                          == if Kept(s, ms[k]) && KeyOf(ms[k]) == key then GroupOf(s, ms[..k], key) + Emitted(s, ms[k])
                             else GroupOf(s, ms[..k], key)
  {
    assert ms[..k + 1][..k] == ms[..k] && ms[..k + 1][k] == ms[k];
  }

  lemma {:induction false} NoKeyNoGroup(s: Session, ms: seq<Posted>, key: string)
    requires key !in Keys(s, ms)
    ensures GroupOf(s, ms, key) == []
  {
    if ms != [] {
      NoKeyNoGroup(s, ms[..|ms| - 1], key);
    }
  }

  lemma {:induction false} KeysDistinct(s: Session, ms: seq<Posted>)
    ensures Distinct(Keys(s, ms))
  {
    if ms != [] {
      KeysDistinct(s, ms[..|ms| - 1]);
    }
  }

  /** The message loop: a dictionary finds the group of each message. */
  method GroupMessages(s: Session) returns (groups: seq<seq<ContextSource>>)
    ensures groups == Groups(s, s.messages)
  {
    hide Kept, KeyOf, Emitted, Keys, GroupOf;
    var ms := s.messages;
    groups := [];
    var byKey: map<string, nat> := map[];
    NothingGrouped(s, ms);
    for k := 0 to |ms|
      invariant groups == Groups(s, ms[..k])
      invariant forall key :: key in byKey <==> key in Keys(s, ms[..k])
      invariant forall key | key in byKey :: byKey[key] < |groups| && Keys(s, ms[..k])[byKey[key]] == key
    {
      KeysNext(s, ms, k);
      KeysDistinct(s, ms[..k]);
      if Kept(s, ms[k]) {
        var key := KeyOf(ms[k]);
        if key !in byKey {
          NoKeyNoGroup(s, ms[..k], key);
          byKey := byKey[key := |groups|];
          groups := groups + [[]];
        }
        var g := byKey[key];
        groups := groups[g := groups[g] + Emitted(s, ms[k])];
      }
    }
    assert ms[..|ms|] == ms;
  }

  lemma {:induction false} NothingGrouped(s: Session, ms: seq<Posted>)
    ensures Keys(s, ms[..0]) == [] && Groups(s, ms[..0]) == []
  {
  }

  /** `context_history_for_session`: whole groups, the longest suffix that fits. */
  method ContextHistory(s: Session) returns (history: seq<ContextSource>)
    ensures exists n: nat :: Window(AllGroups(s), n) && history == Flat(AllGroups(s)[n..])
  {
    hide Groups, Told, EvidenceOf, TotalCost, Window;
    var groups := GroupMessages(s);
    for k := 0 to |s.runs|
      invariant groups == Groups(s, s.messages) + Leftover(s, s.runs[..k])
    {
      assert s.runs[..k + 1][..k] == s.runs[..k];
      if s.runs[k] in s.evidence && !Told(s, s.messages, s.runs[k]) {
        groups := groups + [[EvidenceOf(s, s.runs[k])]];
      }
    }
    assert s.runs[..|s.runs|] == s.runs;
    assert groups == AllGroups(s);
    history := Newest(groups);
    ghost var n: nat :| n <= |groups| && Window(groups, n) && history == Flat(groups[n..]);
    assert Window(AllGroups(s), n);
  }

  /** The sources of the groups in the window, in order. */
  method Newest(groups: seq<seq<ContextSource>>) returns (history: seq<ContextSource>)
    ensures exists n: nat :: n <= |groups| && Window(groups, n) && history == Flat(groups[n..])
  {
    hide Window;
    var n := SelectGroups(groups);
    WindowInside(groups, n);
    history := [];
    for k := n to |groups|
      invariant history == Flat(groups[n..k])
    {
      assert groups[n..k + 1][..k - n] == groups[n..k];
      history := history + groups[k];
    }
    assert groups[n..|groups|] == groups[n..];
  }

  lemma WindowInside(groups: seq<seq<ContextSource>>, n: nat)
    requires Window(groups, n)
    ensures n <= |groups|
  {
  }

  // ---- source ids ----

  function CountId(sources: seq<ContextSource>, id: string): nat {
    if sources == [] then 0
    else CountId(sources[..|sources| - 1], id) + if sources[|sources| - 1].sourceId == id then 1 else 0
  }

  lemma {:induction false} CountConcat(a: seq<ContextSource>, b: seq<ContextSource>, id: string)
    ensures CountId(a + b, id) == CountId(a, id) + CountId(b, id)
  {
    if b == [] {
      assert a + b == a;
    } else {
      CountConcat(a, b[..|b| - 1], id);
      assert (a + b)[..|a + b| - 1] == a + b[..|b| - 1];
    }
  }

  lemma {:induction false} CountZero(sources: seq<ContextSource>, id: string)
    ensures CountId(sources, id) == 0 <==> id !in IdsOf(sources)
  {
    if sources != [] {
      var n := |sources| - 1;
      CountZero(sources[..n], id);
      assert IdsOf(sources) == IdsOf(sources[..n]) + [sources[n].sourceId];
    }
  }

  lemma DistinctSnoc<T>(s: seq<T>, x: T)
    ensures Distinct(s + [x]) <==> Distinct(s) && x !in s
  {
    DistinctConcat(s, [x]);
    assert x in [x];
  }

  ghost predicate CountedOnce(sources: seq<ContextSource>) {
    forall id :: CountId(sources, id) <= 1
  }

  lemma {:induction false} CountSnoc(sources: seq<ContextSource>, source: ContextSource, id: string)
    ensures CountId(sources + [source], id) == CountId(sources, id) + if source.sourceId == id then 1 else 0
  {
    assert (sources + [source])[..|sources|] == sources;
  }

  lemma {:induction false} CountedOnceSnoc(sources: seq<ContextSource>, source: ContextSource)
    ensures CountedOnce(sources + [source]) <==> CountedOnce(sources) && CountId(sources, source.sourceId) == 0
  {
    hide CountId;
    var all := sources + [source];
    forall id ensures CountId(all, id) == CountId(sources, id) + if source.sourceId == id then 1 else 0 {
      CountSnoc(sources, source, id);
    }
    if CountedOnce(all) {
      assert CountId(all, source.sourceId) <= 1;
      forall id ensures CountId(sources, id) <= 1 {
        assert CountId(all, id) <= 1;
      }
    }
  }

  /** Ids are distinct exactly when none is counted twice. */
  lemma {:induction false} DistinctCounts(sources: seq<ContextSource>)
    ensures Distinct(IdsOf(sources)) <==> CountedOnce(sources)
  {
    if sources == [] {
      assert IdsOf(sources) == [];
    } else {
      hide Distinct, CountedOnce, CountId;
      var n := |sources| - 1;
      var older, last := sources[..n], sources[n];
      DistinctCounts(older);
      CountZero(older, last.sourceId);
      assert IdsOf(sources) == IdsOf(older) + [last.sourceId] && sources == older + [last];
      DistinctSnoc(IdsOf(older), last.sourceId);
      CountedOnceSnoc(older, last);
    }
  }

  /** How often an id is contributed by the messages, and by the rest of the runs. */
  function CountEmitted(s: Session, ms: seq<Posted>, id: string): nat {
    if ms == [] then 0 else CountEmitted(s, ms[..|ms| - 1], id) + CountId(Emitted(s, ms[|ms| - 1]), id)
  }

  function SumOver(s: Session, ms: seq<Posted>, keys: seq<string>, id: string): nat {
    if keys == [] then 0
    else SumOver(s, ms, keys[..|keys| - 1], id) + CountId(GroupOf(s, ms, keys[|keys| - 1]), id)
  }

  lemma {:induction false} FlatSnoc(groups: seq<seq<ContextSource>>, group: seq<ContextSource>)
    ensures Flat(groups + [group]) == Flat(groups) + group
  {
    assert (groups + [group])[..|groups|] == groups;
  }

  lemma {:induction false} FlatConcat(a: seq<seq<ContextSource>>, b: seq<seq<ContextSource>>)
    ensures Flat(a + b) == Flat(a) + Flat(b)
  {
    if b == [] {
      assert a + b == a;
    } else {
      FlatConcat(a, b[..|b| - 1]);
      assert (a + b)[..|a + b| - 1] == a + b[..|b| - 1];
    }
  }

  function GroupsFor(s: Session, ms: seq<Posted>, keys: seq<string>): (groups: seq<seq<ContextSource>>)
    ensures |groups| == |keys|
  {
    seq(|keys|, k requires 0 <= k < |keys| => GroupOf(s, ms, keys[k]))
  }

  lemma {:induction false} SumIsCount(s: Session, ms: seq<Posted>, keys: seq<string>, id: string)
    ensures CountId(Flat(GroupsFor(s, ms, keys)), id) == SumOver(s, ms, keys, id)
  {
    if keys != [] {
      var n := |keys| - 1;
      SumIsCount(s, ms, keys[..n], id);
      assert GroupsFor(s, ms, keys) == GroupsFor(s, ms, keys[..n]) + [GroupOf(s, ms, keys[n])];
      FlatSnoc(GroupsFor(s, ms, keys[..n]), GroupOf(s, ms, keys[n]));
      CountConcat(Flat(GroupsFor(s, ms, keys[..n])), GroupOf(s, ms, keys[n]), id);
    }
  }

  /** One more message adds to its own group only. */
  lemma {:induction false} SumAdds(s: Session, ms: seq<Posted>, m: Posted, keys: seq<string>, id: string)
    requires Distinct(keys)
    ensures SumOver(s, ms + [m], keys, id)
            == SumOver(s, ms, keys, id) + if Kept(s, m) && KeyOf(m) in keys then CountId(Emitted(s, m), id) else 0
  {
    hide Kept, KeyOf, Emitted, CountId;
    if keys != [] {
      var n := |keys| - 1;
      SumAdds(s, ms, m, keys[..n], id);
      assert (ms + [m])[..|ms|] == ms && (ms + [m])[|ms|] == m;
      CountConcat(GroupOf(s, ms, keys[n]), Emitted(s, m), id);
      assert KeyOf(m) in keys <==> KeyOf(m) in keys[..n] || KeyOf(m) == keys[n];
      assert KeyOf(m) == keys[n] ==> KeyOf(m) !in keys[..n];
    }
  }

  lemma {:induction false} NothingEmitted(s: Session, m: Posted, id: string)
    ensures !Kept(s, m) ==> CountId(Emitted(s, m), id) == 0
  {
  }

  /** Grouping loses nothing and repeats nothing. */
  lemma {:induction false} GroupingConserves(s: Session, ms: seq<Posted>, id: string)
    ensures CountId(Flat(Groups(s, ms)), id) == CountEmitted(s, ms, id)
  {
    hide Kept, KeyOf, Emitted, GroupOf;
    var keys := Keys(s, ms);
    assert Groups(s, ms) == GroupsFor(s, ms, keys);
    SumIsCount(s, ms, keys, id);
    if ms != [] {
      var n := |ms| - 1;
      var older, m := ms[..n], ms[n];
      assert ms == older + [m];
      GroupingConserves(s, older, id);
      assert Groups(s, older) == GroupsFor(s, older, Keys(s, older));
      SumIsCount(s, older, Keys(s, older), id);
      KeysDistinct(s, ms);
      SumAdds(s, older, m, keys, id);
      NothingEmitted(s, m, id);
      NewKeyIsEmpty(s, older, m, id);
    }
  }

  lemma {:induction false} NewKeyIsEmpty(s: Session, ms: seq<Posted>, m: Posted, id: string)
    ensures SumOver(s, ms, Keys(s, ms + [m]), id) == SumOver(s, ms, Keys(s, ms), id)
    ensures Kept(s, m) ==> KeyOf(m) in Keys(s, ms + [m])
  {
    hide Kept, KeyOf;
    assert (ms + [m])[..|ms|] == ms && (ms + [m])[|ms|] == m;
    if Kept(s, m) && KeyOf(m) !in Keys(s, ms) {
      NoKeyNoGroup(s, ms, KeyOf(m));
      var keys := Keys(s, ms + [m]);
      assert keys[..|keys| - 1] == Keys(s, ms);
    }
  }

  // ---- when the ids are distinct ----

  function MessageCount(s: Session, ms: seq<Posted>, id: string): nat {
    if ms == [] then 0
    else MessageCount(s, ms[..|ms| - 1], id) + if Kept(s, ms[|ms| - 1]) && ms[|ms| - 1].id == id then 1 else 0
  }

  /** How many shown answers a run with evidence has. */
  function AnswerCount(s: Session, ms: seq<Posted>, run: string): nat {
    if ms == [] then 0 else AnswerCount(s, ms[..|ms| - 1], run) + if Answers(s, ms[|ms| - 1], run) then 1 else 0
  }

  lemma PrefixInjective(prefix: string, a: string, b: string)
    requires prefix + a == prefix + b
    ensures a == b
  {
    assert (prefix + a)[|prefix|..] == a && (prefix + b)[|prefix|..] == b;
  }

  lemma EvidenceInjective(a: string, b: string)
    requires EvidenceId(a) == EvidenceId(b)
    ensures a == b
  {
    assert EvidenceId(a) == RUN_PREFIX + (a + EVIDENCE_SUFFIX) && EvidenceId(b) == RUN_PREFIX + (b + EVIDENCE_SUFFIX);
    PrefixInjective(RUN_PREFIX, a + EVIDENCE_SUFFIX, b + EVIDENCE_SUFFIX);
    assert (a + EVIDENCE_SUFFIX)[..|a|] == a && (b + EVIDENCE_SUFFIX)[..|b|] == b;
  }

  lemma KindsDiffer(run: string, id: string)
    ensures EvidenceId(run) != MESSAGE_PREFIX + id
  {
    assert EvidenceId(run)[0] == 'r' && (MESSAGE_PREFIX + id)[0] == 'm';
  }

  lemma {:induction false} EmittedCounts(s: Session, m: Posted, run: string, id: string)
    ensures CountId(Emitted(s, m), EvidenceId(run)) == if Answers(s, m, run) then 1 else 0
    ensures CountId(Emitted(s, m), MESSAGE_PREFIX + id) == if Kept(s, m) && m.id == id then 1 else 0
  {
    if Kept(s, m) {
      var own := ContextSource(MESSAGE_PREFIX + m.id, Plain(m.role, ContentOf(m)));
      KindsDiffer(run, m.id);
      if m.id != id && MESSAGE_PREFIX + m.id == MESSAGE_PREFIX + id {
        PrefixInjective(MESSAGE_PREFIX, m.id, id);
      }
      OneCount(own, EvidenceId(run));
      OneCount(own, MESSAGE_PREFIX + id);
      if m.runId.Some? && Answers(s, m, m.runId.value) {
        var told := EvidenceOf(s, m.runId.value);
        KindsDiffer(m.runId.value, id);
        if m.runId.value != run && EvidenceId(m.runId.value) == EvidenceId(run) {
          EvidenceInjective(m.runId.value, run);
        }
        OneCount(told, EvidenceId(run));
        OneCount(told, MESSAGE_PREFIX + id);
        CountConcat([told], [own], EvidenceId(run));
        CountConcat([told], [own], MESSAGE_PREFIX + id);
      } else {
        assert Emitted(s, m) == [own];
      }
    }
  }

  lemma {:induction false} OneCount(source: ContextSource, id: string)
    ensures CountId([source], id) == if source.sourceId == id then 1 else 0
  {
    assert [source][..0] == [];
  }

  lemma {:induction false} EmittedAre(s: Session, ms: seq<Posted>, run: string, id: string)
    ensures CountEmitted(s, ms, EvidenceId(run)) == AnswerCount(s, ms, run)
    ensures CountEmitted(s, ms, MESSAGE_PREFIX + id) == MessageCount(s, ms, id)
  {
    hide Emitted, CountId, Answers, Kept;
    if ms != [] {
      EmittedAre(s, ms[..|ms| - 1], run, id);
      EmittedCounts(s, ms[|ms| - 1], run, id);
    }
  }

  lemma {:induction false} ToldIsCounted(s: Session, ms: seq<Posted>, run: string)
    ensures Told(s, ms, run) <==> AnswerCount(s, ms, run) > 0
  {
    hide Answers;
    if ms != [] {
      var n := |ms| - 1;
      ToldIsCounted(s, ms[..n], run);
      if Told(s, ms[..n], run) {
        var k :| 0 <= k < n && Answers(s, ms[..n][k], run);
        assert Answers(s, ms[k], run);
      }
      if Told(s, ms, run) && !Answers(s, ms[n], run) {
        var k :| 0 <= k < |ms| && Answers(s, ms[k], run);
        assert Answers(s, ms[..n][k], run);
      }
    }
  }

  lemma {:induction false} LeftoverCounts(s: Session, runs: seq<string>, run: string, id: string)
    requires Distinct(runs)
    ensures CountId(Flat(Leftover(s, runs)), EvidenceId(run))
            == if run in runs && run in s.evidence && !Told(s, s.messages, run) then 1 else 0
    ensures CountId(Flat(Leftover(s, runs)), MESSAGE_PREFIX + id) == 0
  {
    hide Told, EvidenceId;
    if runs != [] {
      var n := |runs| - 1;
      LeftoverCounts(s, runs[..n], run, id);
      var last := runs[n];
      assert run in runs <==> run in runs[..n] || run == last;
      if last in s.evidence && !Told(s, s.messages, last) {
        var told := EvidenceOf(s, last);
        FlatSnoc(Leftover(s, runs[..n]), [told]);
        CountConcat(Flat(Leftover(s, runs[..n])), [told], EvidenceId(run));
        CountConcat(Flat(Leftover(s, runs[..n])), [told], MESSAGE_PREFIX + id);
        OneCount(told, EvidenceId(run));
        OneCount(told, MESSAGE_PREFIX + id);
        KindsDiffer(last, id);
        if EvidenceId(last) == EvidenceId(run) {
          EvidenceInjective(last, run);
        }
      }
    }
  }

  /** Every id belongs to a message or to the evidence of a run. */
  lemma {:induction false} EmittedKinds(s: Session, ms: seq<Posted>, id: string)
    requires CountEmitted(s, ms, id) > 0
    ensures (exists m :: id == MESSAGE_PREFIX + m) || (exists run :: run in s.evidence && id == EvidenceId(run))
  {
    var n := |ms| - 1;
    if CountId(Emitted(s, ms[n]), id) > 0 {
      CountZero(Emitted(s, ms[n]), id);
      var k :| 0 <= k < |Emitted(s, ms[n])| && Emitted(s, ms[n])[k].sourceId == id;
    } else {
      EmittedKinds(s, ms[..n], id);
    }
  }

  lemma {:induction false} LeftoverKinds(s: Session, runs: seq<string>, id: string)
    requires CountId(Flat(Leftover(s, runs)), id) > 0
    ensures exists run :: run in s.evidence && id == EvidenceId(run)
  {
    var n := |runs| - 1;
    var last := runs[n];
    if last in s.evidence && !Told(s, s.messages, last) {
      var told := EvidenceOf(s, last);
      FlatSnoc(Leftover(s, runs[..n]), [told]);
      CountConcat(Flat(Leftover(s, runs[..n])), [told], id);
      OneCount(told, id);
      if id != EvidenceId(last) {
        LeftoverKinds(s, runs[..n], id);
      }
    } else {
      LeftoverKinds(s, runs[..n], id);
    }
  }

  ghost predicate OneEach(s: Session) {
    && (forall id :: MessageCount(s, s.messages, id) <= 1)
    && forall run :: AnswerCount(s, s.messages, run) <= 1
  }

  lemma {:induction false} CountAll(s: Session, id: string)
    ensures CountId(Flat(AllGroups(s)), id) == CountEmitted(s, s.messages, id) + CountId(Flat(Leftover(s, s.runs)), id)
  {
    hide Groups, Leftover, Flat, CountId;
    FlatConcat(Groups(s, s.messages), Leftover(s, s.runs));
    CountConcat(Flat(Groups(s, s.messages)), Flat(Leftover(s, s.runs)), id);
    GroupingConserves(s, s.messages, id);
  }

  /** The ids of all groups together are distinct exactly when message ids are and
      no run with evidence has two shown answers: a second answer repeats the
      run's evidence. */
  lemma HistoryIdsDistinctIff(s: Session)
    requires Distinct(s.runs)
    ensures Distinct(IdsOf(Flat(AllGroups(s)))) <==> OneEach(s)
  {
    DistinctCounts(Flat(AllGroups(s)));
    hide AllGroups, Leftover, Flat, CountId, MessageCount, AnswerCount, IdsOf, Distinct, Told, EvidenceId;
    if OneEach(s) {
      forall id ensures CountId(Flat(AllGroups(s)), id) <= 1 {
        CountOnce(s, id);
      }
    } else {
      CountTwice(s);
    }
  }

  lemma CountTwice(s: Session)
    requires !OneEach(s)
    ensures exists id :: CountId(Flat(AllGroups(s)), id) > 1
  {
    hide AllGroups, Leftover, Flat, CountId, MessageCount, AnswerCount, EvidenceId, CountEmitted;
    if id: string :| MessageCount(s, s.messages, id) > 1 {
      EmittedAre(s, s.messages, id, id);
      CountAll(s, MESSAGE_PREFIX + id);
    } else {
      var run: string :| AnswerCount(s, s.messages, run) > 1;
      EmittedAre(s, s.messages, run, run);
      CountAll(s, EvidenceId(run));
    }
  }

  lemma {:induction false} CountOnce(s: Session, id: string)
    requires Distinct(s.runs) && OneEach(s)
    ensures CountId(Flat(AllGroups(s)), id) <= 1
  {
    hide AllGroups, CountEmitted, Leftover, Flat, CountId, MessageCount, AnswerCount, Distinct, Told, EvidenceId;
    CountAll(s, id);
    if CountEmitted(s, s.messages, id) > 0 {
      EmittedKinds(s, s.messages, id);
    }
    if CountId(Flat(Leftover(s, s.runs)), id) > 0 {
      LeftoverKinds(s, s.runs, id);
    }
    if m: string :| id == MESSAGE_PREFIX + m {
      EmittedAre(s, s.messages, "", m);
      LeftoverCounts(s, s.runs, "", m);
    } else if run: string :| run in s.evidence && id == EvidenceId(run) {
      EmittedAre(s, s.messages, run, "");
      LeftoverCounts(s, s.runs, run, "");
      ToldIsCounted(s, s.messages, run);
    }
  }

  // ---- what the projector may assume of it ----

  predicate Plainly(sources: seq<ContextSource>) {
    forall k | 0 <= k < |sources| :: sources[k].message.toolCalls == [] && !sources[k].message.role.Tool?
  }

  lemma PlainlyConcat(a: seq<ContextSource>, b: seq<ContextSource>)
    requires Plainly(a) && Plainly(b)
    ensures Plainly(a + b)
  {
  }

  lemma {:induction false} GroupPlainly(s: Session, ms: seq<Posted>, key: string)
    ensures Plainly(GroupOf(s, ms, key))
  {
    if ms != [] {
      var older, m := GroupOf(s, ms[..|ms| - 1], key), ms[|ms| - 1];
      GroupPlainly(s, ms[..|ms| - 1], key);
      PlainlyConcat(older, Emitted(s, m));
    }
  }

  predicate AllPlainly(groups: seq<seq<ContextSource>>) {
    forall k | 0 <= k < |groups| :: Plainly(groups[k])
  }

  lemma {:induction false} FlatPlainly(groups: seq<seq<ContextSource>>)
    requires AllPlainly(groups)
    ensures Plainly(Flat(groups))
  {
    if groups != [] {
      hide Plainly;
      FlatPlainly(groups[..|groups| - 1]);
      PlainlyConcat(Flat(groups[..|groups| - 1]), groups[|groups| - 1]);
    }
  }

  lemma {:induction false} LeftoverPlainly(s: Session, runs: seq<string>)
    ensures AllPlainly(Leftover(s, runs))
  {
    if runs != [] {
      LeftoverPlainly(s, runs[..|runs| - 1]);
    }
  }

  lemma {:induction false} GroupsPlainly(s: Session)
    ensures AllPlainly(AllGroups(s))
  {
    hide Plainly;
    forall k | 0 <= k < |Groups(s, s.messages)| ensures Plainly(Groups(s, s.messages)[k]) {
      GroupPlainly(s, s.messages, Keys(s, s.messages)[k]);
    }
    LeftoverPlainly(s, s.runs);
  }

  lemma ForeignId(s: Session, id: string)
    requires id in IdsOf(Flat(AllGroups(s)))
    ensures !IsLiveId(id) && !IsSummaryId(id) && id != HISTORY_START_ID
  {
    hide AllGroups, CountEmitted, Leftover, Flat, CountId, IdsOf;
    CountZero(Flat(AllGroups(s)), id);
    CountAll(s, id);
    if CountEmitted(s, s.messages, id) > 0 {
      EmittedKinds(s, s.messages, id);
    } else {
      LeftoverKinds(s, s.runs, id);
    }
    assert id[0] == 'm' || id[0] == 'r';
    assert LIVE_PREFIX[0] == 'l' && SUMMARY_PREFIX[0] == 's' && HISTORY_START_ID[0] == 'c';
  }

  lemma SuffixIds(a: seq<ContextSource>, b: seq<ContextSource>)
    requires Distinct(IdsOf(a + b))
    ensures Distinct(IdsOf(b)) && forall id | id in IdsOf(b) :: id in IdsOf(a + b)
  {
    assert IdsOf(a + b) == IdsOf(a) + IdsOf(b);
    DistinctConcat(IdsOf(a), IdsOf(b));
  }

  /** With one answer for each run and distinct message ids, any window of the
      history has the distinct, foreign ids the projector relies on and holds
      neither tool calls nor tool results. */
  lemma WindowIsForeign(s: Session, n: nat)
    requires Distinct(s.runs) && OneEach(s) && n <= |AllGroups(s)|
    ensures Foreign(Flat(AllGroups(s)[n..])) && NoTools(MessagesOf(Flat(AllGroups(s)[n..])))
  {
    hide AllGroups, Flat, IdsOf, OneEach, IsLiveId, IsSummaryId;
    var groups := AllGroups(s);
    HistoryIdsDistinctIff(s);
    FlatConcat(groups[..n], groups[n..]);
    assert groups[..n] + groups[n..] == groups;
    SuffixIds(Flat(groups[..n]), Flat(groups[n..]));
    forall id | id in IdsOf(Flat(groups[n..])) ensures !IsLiveId(id) && !IsSummaryId(id) && id != HISTORY_START_ID {
      ForeignId(s, id);
    }
    GroupsPlainly(s);
    FlatPlainly(groups[n..]);
  }
}
