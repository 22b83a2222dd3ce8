/** Adjacent results stay adjacent under cached summaries, so a semantic round
    on a legal journal is accepted as soon as two assistant steps are shown. */
module SemanticProtocol {
  import opened Messages
  import opened ToolProtocol
  import opened Projection
  import opened Tiling
  import opened SummaryCache
  import opened Compaction
  import opened JournalSources
  import opened ProtocolKept
  import opened Alignment

  /** In a legal, adjacent sequence no call outside a balanced slice reaches
      over or into the slice for its result. */
  lemma OwnerAvoidsSlice(ms: seq<Message>, a: nat, b: nat, o: nat, r: nat)
    requires Legal(ms) && a < b <= |ms| && Balanced(ms[a..b])
    requires Owner(ms, o, r) && !(a <= r < b)
    ensures r < a || b <= o
  {
    OwnerRun(ms, o, r);
    var id := ms[r].toolCallId.value;
    if a <= o < b {
      CalledWithin(ms, a, b, o, id);
      var s := AnsweredInside(ms, a, b, id);
      SameAnswer(ms, r, s, id);
    } else if o < a && b <= r {
      var inner := ms[a].toolCallId.value;
      assert Answers(ms[a], ms[o]);
      AnsweredWithin(ms, a, b, a, inner);
      var i := CalledInside(ms, a, b, inner);
    }
  }

  lemma SpliceAt(ms: seq<Message>, a: nat, x: Message, b: nat, k: nat)
    requires a < b <= |ms|
    ensures k < a ==> Splice(ms, a, x, b)[k] == ms[k]
    ensures b <= k < |ms| ==> Splice(ms, a, x, b)[k - b + a + 1] == ms[k]
  {
  }

  lemma OwnerInSplice(ms: seq<Message>, a: nat, x: Message, b: nat, o: nat, r: nat)
    requires a < b <= |ms| && Owner(ms, o, r) && (r < a || b <= o)
    ensures var shift := if r < a then 0 else a + 1 - b;
            0 <= r + shift < |Splice(ms, a, x, b)| && Owner(Splice(ms, a, x, b), o + shift, r + shift)
  {
    var out := Splice(ms, a, x, b);
    var shift := if r < a then 0 else a + 1 - b;
    SpliceAt(ms, a, x, b, o);
    forall k | o + shift < k <= r + shift ensures Answers(out[k], out[o + shift]) {
      SpliceAt(ms, a, x, b, k - shift);
      assert Answers(ms[k - shift], ms[o]);
    }
  }

  lemma SpliceOwner(ms: seq<Message>, a: nat, x: Message, b: nat, r: nat)
    requires Legal(ms) && Adjacent(ms) && a < b <= |ms| && Balanced(ms[a..b])
    requires r < |ms| && !(a <= r < b) && ms[r].role.Tool?
    ensures var k := if r < a then r else r + a + 1 - b;
            0 <= k < |Splice(ms, a, x, b)| && exists i :: Owner(Splice(ms, a, x, b), i, k)
  {
    var o :| Owner(ms, o, r);
    OwnerAvoidsSlice(ms, a, b, o, r);
    OwnerInSplice(ms, a, x, b, o, r);
  }

  lemma SpliceIndex(ms: seq<Message>, a: nat, x: Message, b: nat, k: nat) returns (r: nat)
    requires a < b <= |ms| && k < |Splice(ms, a, x, b)| && Splice(ms, a, x, b)[k] != x
    ensures r < |ms| && !(a <= r < b) && Splice(ms, a, x, b)[k] == ms[r]
    ensures k == if r < a then r else r + a + 1 - b
  {
    r := if k < a then k else k - a - 1 + b;
  }

  lemma SpliceOwnerAt(ms: seq<Message>, a: nat, x: Message, b: nat, k: nat)
    requires Legal(ms) && Adjacent(ms) && a < b <= |ms| && Balanced(ms[a..b]) && x.role.System?
    requires k < |Splice(ms, a, x, b)| && Splice(ms, a, x, b)[k].role.Tool?
    ensures exists i :: Owner(Splice(ms, a, x, b), i, k)
  {
    var r := SpliceIndex(ms, a, x, b, k);
    SpliceOwner(ms, a, x, b, r);
  }

  lemma SpliceAdjacent(ms: seq<Message>, a: nat, x: Message, b: nat)
    requires Legal(ms) && Adjacent(ms) && a < b <= |ms| && Balanced(ms[a..b]) && x.role.System?
    ensures Adjacent(Splice(ms, a, x, b))
  {
    var out := Splice(ms, a, x, b);
    forall k: nat | k < |out| && out[k].role.Tool? ensures exists i :: Owner(out, i, k) {
      SpliceOwnerAt(ms, a, x, b, k);
    }
  }

  lemma ReplaceMiddleAdjacent(d: seq<Message>, s: seq<Message>, t: seq<Message>, x: Message)
    requires Legal(d + s + t) && Adjacent(d + s + t) && s != [] && Balanced(s) && x.role.System?
    ensures Adjacent(d + [x] + t)
  {
    var all := d + s + t;
    var a, b := |d|, |d| + |s|;
    assert all[a..b] == s && all[..a] == d && all[b..] == t;
    SpliceAdjacent(all, a, x, b);
  }

  ghost predicate LegalAndAdjacent(sources: seq<ContextSource>) {
    Legal(MessagesOf(sources)) && Adjacent(MessagesOf(sources))
  }

  lemma TileAdjacent(plan: seq<Tile<ContextSource>>, raw: seq<ContextSource>, done: seq<ContextSource>, i: nat)
    requires BalancedPlan(plan, raw) && i < |raw| && plan[i] != Tile(raw[i], 1)
    requires LegalAndAdjacent(done + raw[i..i + plan[i].width] + raw[i + plan[i].width..])
    ensures Adjacent(MessagesOf(done + [plan[i].item] + raw[i + plan[i].width..]))
  {
    hide AllCallIds, AllResultIds, WellFormed, Adjacent;
    var x, next := plan[i].item, i + plan[i].width;
    MessagesOfThree(done, raw[i..next], raw[next..]);
    MessagesOfThree(done, [x], raw[next..]);
    ReplaceMiddleAdjacent(MessagesOf(done), MessagesOf(raw[i..next]), MessagesOf(raw[next..]), x.message);
    assert MessagesOf([x]) == [x.message];
  }

  lemma SplitRest<T>(done: seq<T>, raw: seq<T>, i: nat, next: nat)
    requires i < next <= |raw|
    ensures done + raw[i..] == done + raw[i..next] + raw[next..]
    ensures next == i + 1 ==> done + raw[i..] == done + [raw[i]] + raw[next..]
  {
  }

  lemma StepAdjacent(plan: seq<Tile<ContextSource>>, raw: seq<ContextSource>, done: seq<ContextSource>, i: nat)
    requires BalancedPlan(plan, raw) && i < |raw|
    requires LegalAndAdjacent(done + raw[i..])
    ensures LegalAndAdjacent(done + [plan[i].item] + raw[i + plan[i].width..])
  {
    hide AllCallIds, AllResultIds, WellFormed, Adjacent;
    var x, next := plan[i].item, i + plan[i].width;
    StepLegal(plan, raw, done, i);
    SplitRest(done, raw, i, next);
    if plan[i] != Tile(raw[i], 1) {
      TileAdjacent(plan, raw, done, i);
    }
  }

  /** Showing cached summaries keeps a journal legal and its results adjacent. */
  lemma AppliedAdjacent(codec: Codec, st: State, raw: seq<ContextSource>)
    requires ValidCache(st) && BalancedCaches(codec, st, raw) && LegalAndAdjacent(raw)
    ensures LegalAndAdjacent(Applied(codec, st.cached, raw))
  {
    hide AllCallIds, AllResultIds, WellFormed, Adjacent;
    var plan := Plan(codec, st.cached, raw);
    PlanIsBalanced(codec, st, raw);
    var keep := (s: seq<ContextSource>) => LegalAndAdjacent(s);
    forall d: seq<ContextSource>, k | 0 <= k < |plan| && keep(d + raw[k..])
      ensures keep(d + [plan[k].item] + raw[k + plan[k].width..])
    {
      StepAdjacent(plan, raw, d, k);
    }
    assert [] + raw[0..] == raw;
    WalkKeeps(keep, plan, raw, [], 0);
    assert [] + Shown(plan, 0) == Shown(plan, 0);
  }

  lemma AdjacentSameShape(p: seq<Message>, q: seq<Message>)
    requires SameShape(p, q) && Adjacent(p)
    ensures Adjacent(q)
  {
    forall r | 0 <= r < |q| && q[r].role.Tool? ensures exists i :: Owner(q, i, r) {
      assert Shape(p[r]) == Shape(q[r]);
      var o :| Owner(p, o, r);
      assert Shape(p[o]) == Shape(q[o]);
      forall k | o < k <= r ensures Answers(q[k], q[o]) {
        assert Shape(p[k]) == Shape(q[k]) && Answers(p[k], p[o]);
      }
      assert Owner(q, o, r);
    }
  }

  lemma PreparedLegal(codec: Codec, limits: Limits, st: State, raw: seq<ContextSource>)
    requires ValidCache(st) && BalancedCaches(codec, st, raw) && LegalAndAdjacent(raw)
    ensures LegalAndAdjacent(Prepared(codec, limits, st, raw))
  {
    AppliedAdjacent(codec, st, raw);
    PreparedMeaning(codec, limits, st, raw);
    var p, q := MessagesOf(Applied(codec, st.cached, raw)), MessagesOf(Prepared(codec, limits, st, raw));
    AdjacentSameShape(p, q);
    LegalDependsOnShape(p, q);
  }

  /** The projections of a journal that opens with a system contract open with system messages. */
  lemma PreparedFramed(codec: Codec, limits: Limits, st: State, history: seq<ContextSource>, live: seq<Message>)
    requires ValidCache(st) && Foreign(history) && |live| > 0 && live[0].role.System?
    ensures FramedStart(Prepared(codec, limits, st, Normalise(codec, history, live)))
  {
    var raw := Normalise(codec, history, live);
    var plan := Plan(codec, st.cached, raw);
    var shown, prepared := Shown(plan, 0), Prepared(codec, limits, st, raw);
    PreparedMeaning(codec, limits, st, raw);
    assert raw[0] == ContextSource(LiveId(0), live[0]);
    assert Shape(MessagesOf(shown)[0]) == Shape(MessagesOf(prepared)[0]);
    ItemAt(plan, 0, 0);
    if |prepared| > 1 {
      ItemAt(plan, 0, 1);
      MarkerIsSystem(codec, st, history, live, At(plan, 0, 1));
      assert IdsOf(prepared)[1] == IdsOf(shown)[1];
      assert Shape(MessagesOf(shown)[1]) == Shape(MessagesOf(prepared)[1]);
    }
  }

  lemma MarkerIsSystem(codec: Codec, st: State, history: seq<ContextSource>, live: seq<Message>, p: nat)
    requires ValidCache(st) && Foreign(history) && p < |Normalise(codec, history, live)|
    ensures var item := Show(codec, st.cached, Normalise(codec, history, live), p).item;
            item.sourceId == HISTORY_START_ID ==> item.message.role.System?
  {
    var raw := Normalise(codec, history, live);
    var c := Lookup(st.cached, raw[p].sourceId);
    if c.None? || !Matches(codec, c.value, raw, p) {
      RawKinds(codec, history, live, p);
      if p < LeadingSystems(live) {
        LiveIdKind(p);
      } else if p >= LeadingSystems(live) + Offset(codec, history) {
        LiveIdKind(p - Offset(codec, history));
      } else if raw[p] in history {
        var k :| 0 <= k < |history| && history[k] == raw[p];
        assert IdsOf(history)[k] in IdsOf(history);
      }
    }
  }

  /** On a legal journal with adjacent results and two assistant steps in view,
      a semantic round is never refused for its tool calls. */
  lemma SemanticAccepted(
    codec: Codec, limits: Limits, st: State, history: seq<ContextSource>, live: seq<Message>, reply: SummaryReply)
    requires ValidCache(st) && BalancedCaches(codec, st, Normalise(codec, history, live)) && Foreign(history)
    requires LegalAndAdjacent(Normalise(codec, history, live)) && |live| > 0 && live[0].role.System?
    requires TwoSteps(MessagesOf(Prepared(codec, limits, st, Normalise(codec, history, live))))
    ensures Semantic(codec, limits, st, history, live, reply).1 != Err(ProtocolViolation)
  {
    hide AllCallIds, AllResultIds, WellFormed, Adjacent, TwoSteps;
    var raw := Normalise(codec, history, live);
    var prepared := Prepared(codec, limits, st, raw);
    PreparedLegal(codec, limits, st, raw);
    PreparedFramed(codec, limits, st, history, live);
    RoundAccepted(codec, limits, st, history, live, prepared, reply);
  }

  lemma RoundAccepted(
    codec: Codec, limits: Limits, st: State, history: seq<ContextSource>, live: seq<Message>,
    prepared: seq<ContextSource>, reply: SummaryReply)
    requires NonEmptyIds(st.cached) && prepared == Prepared(codec, limits, st, Normalise(codec, history, live))
    requires Legal(MessagesOf(Normalise(codec, history, live)))
    requires LegalAndAdjacent(prepared) && FramedStart(prepared) && TwoSteps(MessagesOf(prepared))
    ensures Semantic(codec, limits, st, history, live, reply).1 != Err(ProtocolViolation)
  {
    hide AllCallIds, AllResultIds, WellFormed, Adjacent, TwoSteps;
    var slice := Candidate(codec, prepared);
    FallbackAccepted(codec, limits, st.(semanticCalls := st.semanticCalls + 1), prepared);
    CandidateError(codec, prepared);
    if slice.Ok? && reply.Summarised? {
      CandidateBalanced(codec, prepared);
      CommitAccepted(codec, limits, st, Normalise(codec, history, live), prepared, slice.value.0, slice.value.1,
        reply.content);
    }
  }

  lemma CandidateError(codec: Codec, prepared: seq<ContextSource>)
    ensures Candidate(codec, prepared) != Err(ProtocolViolation)
  {
    if CandidateRange(prepared).Ok? {
      var (a, stop) := CandidateRange(prepared).value;
      TakeGroupsError(codec, prepared[a..stop], 0);
    }
  }

  lemma {:induction false} TakeGroupsError(codec: Codec, sources: seq<ContextSource>, i: nat)
    requires i <= |sources|
    ensures TakeGroups(codec, sources, i) != Err(ProtocolViolation)
    decreases |sources| - i
  {
    if i < |sources| {
      TakeGroupsError(codec, sources, GroupEnd(sources, i));
    }
  }

  lemma CommitAccepted(
    codec: Codec, limits: Limits, st: State, raw: seq<ContextSource>, prepared: seq<ContextSource>, a: nat, b: nat,
    content: string)
    requires NonEmptyIds(st.cached) && a <= b <= |prepared|
    requires Legal(MessagesOf(raw)) && Legal(MessagesOf(prepared)) && Balanced(MessagesOf(prepared)[a..b])
    ensures Commit(codec, limits, st, raw, prepared, a, b, content).1 != Err(ProtocolViolation)
  {
    FallbackAccepted(codec, limits, st.(semanticCalls := st.semanticCalls + 1), raw);
    SpliceAccepted(prepared, a, SummarySource(st, content), b);
  }

  lemma SpliceAccepted(sources: seq<ContextSource>, a: nat, x: ContextSource, b: nat)
    requires Legal(MessagesOf(sources)) && a <= b <= |sources| && x.message.role.System?
    requires Balanced(MessagesOf(sources)[a..b])
    ensures Legal(MessagesOf(Splice(sources, a, x, b)))
  {
    MessagesOfSplice(sources, a, x, b);
    BalancedSpliceLegal(MessagesOf(sources), a, x.message, b);
  }

  lemma FallbackAccepted(codec: Codec, limits: Limits, st: State, sources: seq<ContextSource>)
    requires Legal(MessagesOf(sources))
    ensures Fallback(codec, limits, st, sources) != Err(ProtocolViolation)
  {
    CompactMeaning(codec, MessagesOf(sources), limits.softChars);
    LegalDependsOnShape(MessagesOf(sources), Compact(codec, MessagesOf(sources), limits.softChars).0);
  }
}
