/** A legal journal stays legal under every cached summary, and under which
    condition a new semantic splice is accepted. */
module ProtocolKept {
  import opened Messages
  import opened ToolProtocol
  import opened Projection
  import opened Tiling
  import opened SummaryCache
  import opened Compaction
  import opened JournalSources
  import opened TaskKept

  /** Wherever a cached summary may be shown, it cuts no call from its result. */
  ghost predicate BalancedCaches(codec: Codec, st: State, raw: seq<ContextSource>) {
    forall c, i: nat | c in st.cached && i <= |raw| && Matches(codec, c, raw, i) ::
      Balanced(MessagesOf(raw[i..i + |c.sourceIds|]))
  }

  /** A plan that shows raw sources one by one, or a system message for a balanced stretch. */
  ghost predicate BalancedPlan(plan: seq<Tile<ContextSource>>, raw: seq<ContextSource>) {
    && Fits(plan) && |plan| == |raw|
    && forall i | 0 <= i < |plan| ::
         || plan[i] == Tile(raw[i], 1)
         || (plan[i].item.message.role.System? && Balanced(MessagesOf(raw[i..i + plan[i].width])))
  }

  lemma PlanIsBalanced(codec: Codec, st: State, raw: seq<ContextSource>)
    requires ValidCache(st) && BalancedCaches(codec, st, raw)
    ensures BalancedPlan(Plan(codec, st.cached, raw), raw)
  {
    hide AllCallIds, AllResultIds, Lookup;
    var plan := Plan(codec, st.cached, raw);
    forall i | 0 <= i < |plan|
      ensures plan[i] == Tile(raw[i], 1)
           || (plan[i].item.message.role.System? && Balanced(MessagesOf(raw[i..i + plan[i].width])))
    {
      var c := Lookup(st.cached, raw[i].sourceId);
      assert c.Some? ==> c.value in st.cached;
    }
  }

  lemma MessagesOfConcat(a: seq<ContextSource>, b: seq<ContextSource>)
    ensures MessagesOf(a + b) == MessagesOf(a) + MessagesOf(b)
  {
  }

  lemma {:induction false} ShownLegal(plan: seq<Tile<ContextSource>>, raw: seq<ContextSource>)
    requires BalancedPlan(plan, raw) && Legal(MessagesOf(raw))
    ensures Legal(MessagesOf(Shown(plan, 0)))
  {
    var legal := (s: seq<ContextSource>) => Legal(MessagesOf(s));
    forall d: seq<ContextSource>, k | 0 <= k < |plan| && legal(d + raw[k..])
      ensures legal(d + [plan[k].item] + raw[k + plan[k].width..])
    {
      StepLegal(plan, raw, d, k);
    }
    assert [] + raw[0..] == raw;
    WalkKeeps(legal, plan, raw, [], 0);
    assert [] + Shown(plan, 0) == Shown(plan, 0);
  }

  lemma StepLegal(plan: seq<Tile<ContextSource>>, raw: seq<ContextSource>, done: seq<ContextSource>, i: nat)
    requires BalancedPlan(plan, raw) && i < |raw|
    requires Legal(MessagesOf(done + raw[i..]))
    ensures Legal(MessagesOf(done + [plan[i].item] + raw[i + plan[i].width..]))
  {
    hide AllCallIds, AllResultIds, WellFormed;
    var x, next := plan[i].item, i + plan[i].width;
    if plan[i] != Tile(raw[i], 1) {
      assert done + raw[i..] == done + raw[i..next] + raw[next..];
      MessagesOfThree(done, raw[i..next], raw[next..]);
      MessagesOfThree(done, [x], raw[next..]);
      ReplaceMiddle(MessagesOf(done), MessagesOf(raw[i..next]), MessagesOf(raw[next..]), x.message);
      assert MessagesOf([x]) == [x.message];
    } else {
      assert done + raw[i..] == done + [x] + raw[next..];
    }
  }

  lemma MessagesOfThree(a: seq<ContextSource>, b: seq<ContextSource>, c: seq<ContextSource>)
    ensures MessagesOf(a + b + c) == MessagesOf(a) + MessagesOf(b) + MessagesOf(c)
  {
    MessagesOfConcat(a + b, c);
    MessagesOfConcat(a, b);
  }

  lemma ReplaceMiddle(d: seq<Message>, s: seq<Message>, t: seq<Message>, x: Message)
    requires Legal(d + s + t) && Balanced(s) && x.role.System?
    ensures Legal(d + [x] + t)
  {
    hide AllCallIds, AllResultIds;
    var all := d + s + t;
    var a, b := |d|, |d| + |s|;
    assert all[a..b] == s && all[..a] == d && all[b..] == t;
    BalancedSpliceLegal(all, a, x, b);
  }

  /** Every cached summary may be shown for a legal journal: the plain
      projection never reports a protocol violation. */
  lemma ProjectAcceptsLegalJournal(codec: Codec, limits: Limits, st: State, history: seq<ContextSource>,
      live: seq<Message>)
    requires ValidCache(st) && BalancedCaches(codec, st, Normalise(codec, history, live))
    requires Legal(MessagesOf(Normalise(codec, history, live)))
    ensures Legal(MessagesOf(Applied(codec, st.cached, Normalise(codec, history, live))))
    ensures Project(codec, limits, st, history, live).Ok?
  {
    var raw := Normalise(codec, history, live);
    var plan := Plan(codec, st.cached, raw);
    PlanIsBalanced(codec, st, raw);
    ShownLegal(plan, raw);
    ProjectSameShape(codec, limits, st, history, live, Applied(codec, st.cached, raw));
  }

  // ---- a balanced slice of what is shown is balanced in the raw sources ----

  ghost predicate SameBut(ids: seq<string>, shown: seq<string>, hidden: set<string>) {
    forall id :: id in ids <==> id in shown || id in hidden
  }

  lemma SameButConcat(a: seq<string>, p: seq<string>, x: set<string>, b: seq<string>, q: seq<string>, y: set<string>)
    requires SameBut(a, p, x) && SameBut(b, q, y)
    ensures SameBut(a + b, p + q, x + y)
  {
  }

  ghost function IdSet(ids: seq<string>): set<string> {
    set id | id in ids
  }

  /** The ids hidden under the summaries of a stretch are called and answered alike. */
  lemma {:induction false} HiddenIds(plan: seq<Tile<ContextSource>>, raw: seq<ContextSource>, i: nat, n: nat)
    returns (hidden: set<string>)
    requires BalancedPlan(plan, raw) && i <= |raw| && n <= |Shown(plan, i)|
    ensures SameBut(AllCallIds(MessagesOf(raw[i..At(plan, i, n)])), AllCallIds(MessagesOf(Shown(plan, i)[..n])), hidden)
    ensures SameBut(AllResultIds(MessagesOf(raw[i..At(plan, i, n)])),
            AllResultIds(MessagesOf(Shown(plan, i)[..n])), hidden)
    decreases n
  {
    hide AllCallIds, AllResultIds;
    if n == 0 {
      hidden := {};
      assert raw[i..i] == [] == Shown(plan, i)[..0];
    } else {
      var x, next, end := plan[i].item, i + plan[i].width, At(plan, i, n);
      var under := HiddenIds(plan, raw, next, n - 1);
      var own := TileIds(plan, raw, i);
      hidden := own + under;
      var rest := Shown(plan, next)[..n - 1];
      assert Shown(plan, i)[..n] == [x] + rest;
      assert raw[i..end] == raw[i..next] + raw[next..end];
      JoinIds(raw[i..next], raw[next..end]);
      JoinIds([x], rest);
      SameButConcat(AllCallIds(MessagesOf(raw[i..next])), AllCallIds(MessagesOf([x])), own,
                    AllCallIds(MessagesOf(raw[next..end])), AllCallIds(MessagesOf(rest)), under);
      SameButConcat(AllResultIds(MessagesOf(raw[i..next])), AllResultIds(MessagesOf([x])), own,
                    AllResultIds(MessagesOf(raw[next..end])), AllResultIds(MessagesOf(rest)), under);
    }
  }

  lemma JoinIds(a: seq<ContextSource>, b: seq<ContextSource>)
    ensures AllCallIds(MessagesOf(a + b)) == AllCallIds(MessagesOf(a)) + AllCallIds(MessagesOf(b))
    ensures AllResultIds(MessagesOf(a + b)) == AllResultIds(MessagesOf(a)) + AllResultIds(MessagesOf(b))
  {
    hide AllCallIds, AllResultIds;
    MessagesOfConcat(a, b);
    AllIdsConcat(MessagesOf(a), MessagesOf(b));
  }

  lemma TileIds(plan: seq<Tile<ContextSource>>, raw: seq<ContextSource>, i: nat) returns (hidden: set<string>)
    requires BalancedPlan(plan, raw) && i < |raw|
    ensures SameBut(AllCallIds(MessagesOf(raw[i..i + plan[i].width])), AllCallIds(MessagesOf([plan[i].item])), hidden)
    ensures SameBut(AllResultIds(MessagesOf(raw[i..i + plan[i].width])),
            AllResultIds(MessagesOf([plan[i].item])), hidden)
  {
    hide AllCallIds, AllResultIds;
    if plan[i] == Tile(raw[i], 1) {
      hidden := {};
      assert raw[i..i + 1] == [raw[i]];
    } else {
      var under := MessagesOf(raw[i..i + plan[i].width]);
      var one := MessagesOf([plan[i].item]);
      hidden := IdSet(AllCallIds(under));
      assert one == [plan[i].item.message];
      SingleIds(plan[i].item.message);
    }
  }

  lemma {:induction false} RawSliceBalanced(codec: Codec, st: State, raw: seq<ContextSource>, a: nat, b: nat)
    requires ValidCache(st) && BalancedCaches(codec, st, raw)
    requires a < b <= |Applied(codec, st.cached, raw)|
    requires Balanced(MessagesOf(Applied(codec, st.cached, raw)[a..b]))
    ensures var plan := Plan(codec, st.cached, raw);
            At(plan, 0, a) < At(plan, 0, b) <= |raw| && Balanced(MessagesOf(raw[At(plan, 0, a)..At(plan, 0, b)]))
  {
    hide AllCallIds, AllResultIds, Separate;
    var plan := Plan(codec, st.cached, raw);
    PlanIsBalanced(codec, st, raw);
    SliceShown(plan, a, b);
    var hidden := HiddenIds(plan, raw, At(plan, 0, a), b - a);
  }

  lemma HasIdsOnce(raw: seq<ContextSource>, lo: nat, hi: nat, i: nat)
    requires Distinct(IdsOf(raw)) && lo < hi <= |raw| && HasIdsAt(raw, IdsOf(raw[lo..hi]), i)
    ensures i == lo
  {
    var ids := IdsOf(raw[lo..hi]);
    assert IdsOf(raw[i..i + |ids|])[0] == ids[0];
    assert IdsOf(raw)[i] == IdsOf(raw)[lo];
  }

  lemma RecordedBalanced(codec: Codec, limits: Limits, st: State, raw: seq<ContextSource>, a: nat, b: nat,
      content: string, next: State)
    requires ValidCache(st) && RawIds(raw) && BalancedCaches(codec, st, raw)
    requires Recorded'(codec, limits, st, raw, a, b, content, next)
    requires Balanced(MessagesOf(Applied(codec, st.cached, raw)[a..b]))
    ensures BalancedCaches(codec, next, raw)
  {
    hide AllCallIds, AllResultIds, Shown, At, Keep;
    var plan := Plan(codec, st.cached, raw);
    var lo, hi := At(plan, 0, a), At(plan, 0, b);
    RawSliceBalanced(codec, st, raw, a, b);
    RecordedCaches(codec, st.cached, raw, lo, hi, SummarySource(st, content));
    forall c, i: nat | c in next.cached && i <= |raw| && Matches(codec, c, raw, i)
      ensures Balanced(MessagesOf(raw[i..i + |c.sourceIds|]))
    {
      if c !in st.cached {
        assert HasIdsAt(raw, c.sourceIds, i);
        HasIdsOnce(raw, lo, hi, i);
        assert |c.sourceIds| == hi - lo;
      }
    }
  }

  lemma BalancedSameShape(p: seq<Message>, q: seq<Message>, a: nat, b: nat)
    requires SameShape(p, q) && a <= b <= |p|
    ensures Balanced(p[a..b]) <==> Balanced(q[a..b])
  {
    SameShapeSameIds(p[a..b], q[a..b]);
  }

  /** Appending to the journal leaves the cached stretches alone. */
  lemma BalancedAppend(codec: Codec, st: State, history: seq<ContextSource>, live: seq<Message>, m: Message)
    requires ValidCache(st) && InJournal(st, live) && WithinJournal(st, live)
    requires BalancedCaches(codec, st, Normalise(codec, history, live))
    ensures BalancedCaches(codec, st, Normalise(codec, history, live + [m]))
  {
    if FirstUser(live).Some? {
      var raw, x := Normalise(codec, history, live), ContextSource(LiveId(|live|), m);
      NormaliseAppend(codec, history, live, m);
      forall c, i: nat | c in st.cached && i <= |raw + [x]| && Matches(codec, c, raw + [x], i)
        ensures Balanced(MessagesOf((raw + [x])[i..i + |c.sourceIds|]))
      {
        OldStretch(codec, st, raw, live, c, i, x);
      }
    }
  }

  lemma LastIdIncluded(raw: seq<ContextSource>, x: ContextSource, ids: seq<string>, i: nat)
    requires ids != [] && HasIdsAt(raw + [x], ids, i)
    ensures i + |ids| <= |raw| || x.sourceId in ids
  {
    var n := |ids| - 1;
    assert IdsOf((raw + [x])[i..i + |ids|])[n] == (raw + [x])[i + n].sourceId == ids[n];
  }

  lemma OldStretch(
    codec: Codec, st: State, raw: seq<ContextSource>, live: seq<Message>, c: CachedSummary, i: nat, x: ContextSource)
    requires ValidCache(st) && WithinJournal(st, live) && BalancedCaches(codec, st, raw)
    requires c in st.cached && x.sourceId == LiveId(|live|) && i <= |raw + [x]| && Matches(codec, c, raw + [x], i)
    ensures Balanced(MessagesOf((raw + [x])[i..i + |c.sourceIds|]))
  {
    var n := |c.sourceIds|;
    LastIdIncluded(raw, x, c.sourceIds, i);
    assert (raw + [x])[i..i + n] == raw[i..i + n];
    assert Matches(codec, c, raw, i);
  }
}
