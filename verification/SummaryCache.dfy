/** The cache of semantic summaries agrees with the raw sources it replaces. */
module SummaryCache {
  import opened Text
  import opened Messages
  import opened ToolProtocol
  import opened Projection
  import opened Tiling

  ghost predicate IssuedUpTo(generation: nat, id: string) {
    exists g: nat :: 1 <= g <= generation && id == SummaryId(g)
  }

  /** Non-empty pairwise disjoint id lists, each under its own summary id
      issued by an earlier generation: kept whatever the raw sources are. */
  ghost predicate Structured(st: State) {
    && NonEmptyIds(st.cached)
    && Separate(st.cached)
    && forall c | c in st.cached ::
         IssuedUpTo(st.generation, c.summary.sourceId) && c.summary.message.role.System?
  }

  /** The invariant of the cache for distinct raw ids: it only lists raw sources. */
  ghost predicate ValidCache(st: State) {
    && Structured(st)
    && forall c, id | c in st.cached && id in c.sourceIds :: !IsSummaryId(id)
  }

  /** Raw ids are distinct and none of them is a summary id. */
  ghost predicate RawIds(raw: seq<ContextSource>) {
    Distinct(IdsOf(raw)) && forall id | id in IdsOf(raw) :: !IsSummaryId(id)
  }

  lemma IssuedIsSummaryId(generation: nat, id: string)
    requires IssuedUpTo(generation, id)
    ensures IsSummaryId(id)
    ensures id != SummaryId(generation + 1)
  {
    var g: nat :| 1 <= g <= generation && id == SummaryId(g);
    if id == SummaryId(generation + 1) {
      assert id[|SUMMARY_PREFIX|..] == Decimal(g) == Decimal(generation + 1);
      DecimalInjective(g, generation + 1);
    }
  }

  lemma SharedIdSameCache(st: State, c: CachedSummary, d: CachedSummary, id: string)
    requires Structured(st) && c in st.cached && d in st.cached
    requires id in c.sourceIds && id in d.sourceIds
    ensures c == d
  {
    var i :| 0 <= i < |st.cached| && st.cached[i] == c;
    var j :| 0 <= j < |st.cached| && st.cached[j] == d;
    var k :| 0 <= k < |c.sourceIds| && c.sourceIds[k] == id;
    var l :| 0 <= l < |d.sourceIds| && d.sourceIds[l] == id;
    assert i < j ==> Disjoint(c.sourceIds, d.sourceIds);
    assert j < i ==> Disjoint(d.sourceIds, c.sourceIds);
  }

  lemma SharedSummarySameCache(st: State, c: CachedSummary, d: CachedSummary)
    requires Structured(st) && c in st.cached && d in st.cached
    requires c.summary.sourceId == d.summary.sourceId
    ensures c == d
  {
    var i :| 0 <= i < |st.cached| && st.cached[i] == c;
    var j :| 0 <= j < |st.cached| && st.cached[j] == d;
  }

  // ---- expanding summaries gives back the raw ids ----

  lemma {:induction false} ExpandedSnoc(cached: seq<CachedSummary>, ids: seq<string>, id: string)
    ensures Expanded(cached, []) == []
    ensures Expanded(cached, ids + [id]) == Expanded(cached, ids) + ExpandOne(cached, id)
  {
    assert (ids + [id])[..|ids|] == ids;
  }

  lemma {:induction false} ExpandedConcat(cached: seq<CachedSummary>, a: seq<string>, b: seq<string>)
    ensures Expanded(cached, a + b) == Expanded(cached, a) + Expanded(cached, b)
  {
    hide Expanded, ExpandOne;
    if b == [] {
      ExpandedSnoc(cached, [], "");
      assert a + b == a;
    } else {
      var c, id := b[..|b| - 1], b[|b| - 1];
      ExpandedConcat(cached, a, c);
      assert b == c + [id] && a + b == (a + c) + [id];
      ExpandedSnoc(cached, c, id);
      ExpandedSnoc(cached, a + c, id);
    }
  }

  lemma {:induction false} ExpandedCons(cached: seq<CachedSummary>, id: string, ids: seq<string>)
    ensures Expanded(cached, [id] + ids) == ExpandOne(cached, id) + Expanded(cached, ids)
  {
    hide Expanded;
    ExpandedConcat(cached, [id], ids);
    ExpandedSnoc(cached, [], id);
    assert [] + [id] == [id];
  }

  lemma ExpandShown(codec: Codec, st: State, raw: seq<ContextSource>, i: nat)
    requires ValidCache(st) && RawIds(raw) && i < |raw|
    ensures var tile := Show(codec, st.cached, raw, i);
            ExpandOne(st.cached, tile.item.sourceId) == IdsOf(raw[i..i + tile.width])
  {
    var c := Lookup(st.cached, raw[i].sourceId);
    if c.Some? && Matches(codec, c.value, raw, i) {
      var d := SummarisedBy(st.cached, c.value.summary.sourceId);
      SharedSummarySameCache(st, c.value, d.value);
    } else {
      assert IdsOf(raw)[i] == raw[i].sourceId;
      var d := SummarisedBy(st.cached, raw[i].sourceId);
      if d.Some? {
        IssuedIsSummaryId(st.generation, raw[i].sourceId);
      }
      assert IdsOf(raw[i..i + 1]) == [raw[i].sourceId];
    }
  }

  function Unfolding(cached: seq<CachedSummary>): ContextSource -> seq<string> {
    (s: ContextSource) => ExpandOne(cached, s.sourceId)
  }

  lemma {:induction false} FlattenIsExpanded(cached: seq<CachedSummary>, sources: seq<ContextSource>)
    ensures Flatten(Unfolding(cached), sources) == Expanded(cached, IdsOf(sources))
  {
    if sources != [] {
      FlattenIsExpanded(cached, sources[1..]);
      ExpandedCons(cached, sources[0].sourceId, IdsOf(sources[1..]));
      assert IdsOf(sources) == [sources[0].sourceId] + IdsOf(sources[1..]);
    }
  }

  /** Expanding the next `n` shown sources gives the raw ids they stand for. */
  lemma {:induction false} ExpandNext(codec: Codec, st: State, raw: seq<ContextSource>, i: nat, n: nat)
    requires ValidCache(st) && RawIds(raw)
    requires i <= |raw| && n <= |Shown(Plan(codec, st.cached, raw), i)|
    ensures var plan := Plan(codec, st.cached, raw);
            Expanded(st.cached, IdsOf(Shown(plan, i)[..n])) == IdsOf(raw[i..At(plan, i, n)])
  {
    hide Expanded, Shown;
    var plan := Plan(codec, st.cached, raw);
    var f := Unfolding(st.cached);
    forall k | 0 <= k < |plan| ensures f(plan[k].item) == IdsOf(raw)[k..k + plan[k].width] {
      ExpandShown(codec, st, raw, k);
      assert IdsOf(raw[k..k + plan[k].width]) == IdsOf(raw)[k..k + plan[k].width];
    }
    Unfolds(f, plan, IdsOf(raw), i, n);
    FlattenIsExpanded(st.cached, Shown(plan, i)[..n]);
    assert IdsOf(raw[i..At(plan, i, n)]) == IdsOf(raw)[i..At(plan, i, n)];
  }

  /** Replacing each summary by the ids it stands for gives back the raw id sequence. */
  lemma ExpandApplied(codec: Codec, st: State, raw: seq<ContextSource>)
    requires ValidCache(st) && RawIds(raw)
    ensures Expanded(st.cached, IdsOf(Applied(codec, st.cached, raw))) == IdsOf(raw)
  {
    var plan := Plan(codec, st.cached, raw);
    var all := Shown(plan, 0);
    ExpandNext(codec, st, raw, 0, |all|);
    AtEnd(plan, 0);
    assert all[..|all|] == all && raw[0..|raw|] == raw;
  }

  // ---- caching a slice ----

  lemma {:induction false} SliceExpansion(codec: Codec, st: State, raw: seq<ContextSource>, a: nat, b: nat)
    requires ValidCache(st) && RawIds(raw)
    requires a < b <= |Applied(codec, st.cached, raw)|
    ensures var plan := Plan(codec, st.cached, raw);
            At(plan, 0, a) < At(plan, 0, b) <= |raw|
            && Expanded(st.cached, IdsOf(Applied(codec, st.cached, raw)[a..b]))
               == IdsOf(raw[At(plan, 0, a)..At(plan, 0, b)])
  {
    var plan := Plan(codec, st.cached, raw);
    SliceShown(plan, a, b);
    ExpandNext(codec, st, raw, At(plan, 0, a), b - a);
  }

  lemma {:induction false} FindSliceUnique(raw: seq<ContextSource>, lo: nat, hi: nat)
    requires lo < hi <= |raw| && Distinct(IdsOf(raw))
    ensures FindSlice(raw, IdsOf(raw[lo..hi]), 0) == Some(lo)
  {
    var ids := IdsOf(raw[lo..hi]);
    assert HasIdsAt(raw, ids, lo);
    var at := FindSlice(raw, ids, 0);
    assert IdsOf(raw[at.value..at.value + |ids|])[0] == ids[0];
    assert IdsOf(raw)[at.value] == IdsOf(raw)[lo];
  }

  /** The cache list after a slice of raw sources was summarised. */
  function Recorded(codec: Codec, cached: seq<CachedSummary>, raw: seq<ContextSource>, lo: nat, hi: nat,
      summary: ContextSource)
    : seq<CachedSummary>
    requires lo < hi <= |raw|
  {
    CacheSummary(cached, IdsOf(raw[lo..hi]), codec.sourcesDigest(raw[lo..hi]), summary)
  }

  ghost predicate Separate(cached: seq<CachedSummary>) {
    forall i, j | 0 <= i < j < |cached| ::
      Disjoint(cached[i].sourceIds, cached[j].sourceIds)
      && cached[i].summary.sourceId != cached[j].summary.sourceId
  }

  lemma SeparateAppend(older: seq<CachedSummary>, last: CachedSummary)
    requires Separate(older)
    requires forall c | c in older ::
               Disjoint(c.sourceIds, last.sourceIds) && c.summary.sourceId != last.summary.sourceId
    ensures Separate(older + [last])
  {
    var all := older + [last];
    forall i, j | 0 <= i < j < |all|
      ensures Disjoint(all[i].sourceIds, all[j].sourceIds)
      ensures all[i].summary.sourceId != all[j].summary.sourceId
    {
      assert all[i] == older[i] && older[i] in older;
    }
  }

  lemma {:induction false} KeepSeparate(cached: seq<CachedSummary>, ids: seq<string>)
    requires Separate(cached)
    ensures Separate(Keep(cached, ids))
  {
    if cached != [] {
      var n := |cached| - 1;
      var older := Keep(cached[..n], ids);
      KeepSeparate(cached[..n], ids);
      forall c | c in older
        ensures Disjoint(c.sourceIds, cached[n].sourceIds) && c.summary.sourceId != cached[n].summary.sourceId
      {
        var i :| 0 <= i < n && cached[..n][i] == c;
        assert cached[i] == c;
      }
      SeparateAppend(older, cached[n]);
      assert older + [] == older;
    }
  }

  lemma CacheSummaryStructured(st: State, ids: seq<string>, digest: string, content: string)
    requires Structured(st) && ids != []
    ensures Structured(State(st.semanticCalls + 1, st.generation + 1,
                             CacheSummary(st.cached, ids, digest, SummarySource(st, content))))
  {
    var kept := Keep(st.cached, ids);
    var new' := CachedSummary(ids, digest, SummarySource(st, content));
    KeepSeparate(st.cached, ids);
    forall c | c in kept
      ensures Disjoint(c.sourceIds, ids) && c.summary.sourceId != new'.summary.sourceId
      ensures IssuedUpTo(st.generation + 1, c.summary.sourceId)
    {
      IssuedIsSummaryId(st.generation, c.summary.sourceId);
      assert Disjoint(ids, c.sourceIds);
    }
    SeparateAppend(kept, new');
    assert IssuedUpTo(st.generation + 1, new'.summary.sourceId);
  }

  lemma RecordedValid(codec: Codec, st: State, raw: seq<ContextSource>, lo: nat, hi: nat, content: string)
    requires ValidCache(st) && RawIds(raw) && lo < hi <= |raw|
    ensures ValidCache(State(st.semanticCalls + 1, st.generation + 1,
                             Recorded(codec, st.cached, raw, lo, hi, SummarySource(st, content))))
  {
    var ids := IdsOf(raw[lo..hi]);
    CacheSummaryStructured(st, ids, codec.sourcesDigest(raw[lo..hi]), content);
    forall id | id in ids ensures !IsSummaryId(id) {
      var k :| 0 <= k < |ids| && ids[k] == id;
      assert id == IdsOf(raw)[lo + k];
    }
  }

  /** A semantic round keeps the structure for any raw sources at all. */
  lemma RememberStructured(codec: Codec, st: State, raw: seq<ContextSource>, ids: seq<string>, content: string)
    requires Structured(st) && Remember(codec, st, raw, ids, SummarySource(st, content)).Some?
    ensures Structured(Remember(codec, st, raw, ids, SummarySource(st, content)).value)
  {
    hide FindSlice, Keep, Separate;
    var at := FindSlice(raw, ids, 0).value;
    CacheSummaryStructured(st, ids, codec.sourcesDigest(raw[at..at + |ids|]), content);
  }

  lemma SemanticStructured(
    codec: Codec, limits: Limits, st: State, history: seq<ContextSource>, live: seq<Message>, reply: SummaryReply)
    requires Structured(st)
    ensures Structured(Semantic(codec, limits, st, history, live, reply).0)
  {
    hide AllCallIds, AllResultIds, WellFormed, Shown, CompactFrom, TakeGroups, Size, CountSteps, FindSlice, Expanded,
         Keep;
    var raw := Normalise(codec, history, live);
    var prepared := Prepared(codec, limits, st, raw);
    var slice := Candidate(codec, prepared);
    if slice.Ok? && reply.Summarised? {
      var ids := Expanded(st.cached, IdsOf(prepared[slice.value.0..slice.value.1]));
      if Remember(codec, st, raw, ids, SummarySource(st, reply.content)).Some? {
        RememberStructured(codec, st, raw, ids, reply.content);
      }
    }
  }

  lemma IdsOutside(raw: seq<ContextSource>, lo: nat, hi: nat, i: nat)
    requires Distinct(IdsOf(raw)) && lo < hi <= |raw| && i < |raw| && !(lo <= i < hi)
    ensures raw[i].sourceId !in IdsOf(raw[lo..hi])
  {
    var ids := IdsOf(raw[lo..hi]);
    forall k | 0 <= k < |ids| ensures ids[k] != raw[i].sourceId {
      assert ids[k] == IdsOf(raw)[lo + k] && raw[i].sourceId == IdsOf(raw)[i];
    }
  }

  lemma MatchOutside(codec: Codec, raw: seq<ContextSource>, lo: nat, hi: nat, c: CachedSummary, i: nat)
    requires Distinct(IdsOf(raw)) && lo < hi <= |raw| && i < |raw| && Matches(codec, c, raw, i)
    requires i + |c.sourceIds| <= lo || hi <= i
    ensures Disjoint(IdsOf(raw[lo..hi]), c.sourceIds)
  {
    var ids, own := IdsOf(raw[lo..hi]), c.sourceIds;
    forall k | 0 <= k < |ids| ensures ids[k] !in own {
      forall l | 0 <= l < |own| ensures own[l] != ids[k] {
        assert own[l] == IdsOf(raw[i..i + |own|])[l] == IdsOf(raw)[i + l];
        assert ids[k] == IdsOf(raw)[lo + k];
      }
    }
  }

  /** Outside the summarised slice nothing changes what is shown. */
  lemma ShowUnchanged(codec: Codec, st: State, raw: seq<ContextSource>, lo: nat, hi: nat,
      summary: ContextSource, i: nat)
    requires ValidCache(st) && RawIds(raw) && lo < hi <= |raw| && i < |raw|
    requires NonEmptyIds(Recorded(codec, st.cached, raw, lo, hi, summary))
    requires i + Show(codec, st.cached, raw, i).width <= lo || hi <= i
    ensures Show(codec, Recorded(codec, st.cached, raw, lo, hi, summary), raw, i) == Show(codec, st.cached, raw, i)
  {
    hide Keep, Lookup;
    var ids, id := IdsOf(raw[lo..hi]), raw[i].sourceId;
    var after := Recorded(codec, st.cached, raw, lo, hi, summary);
    var c, d := Lookup(st.cached, id), Lookup(after, id);
    IdsOutside(raw, lo, hi, i);
    assert forall e | e in st.cached && Disjoint(ids, e.sourceIds) :: e in after;
    if d.Some? {
      assert d.value in st.cached && id in d.value.sourceIds;
      assert c.Some? && id in c.value.sourceIds;
      SharedIdSameCache(st, c.value, d.value, id);
    } else if c.Some? && Matches(codec, c.value, raw, i) {
      MatchOutside(codec, raw, lo, hi, c.value, i);
    }
  }

  lemma ShowSummary(codec: Codec, st: State, raw: seq<ContextSource>, lo: nat, hi: nat, summary: ContextSource)
    requires ValidCache(st) && RawIds(raw) && lo < hi <= |raw|
    requires NonEmptyIds(Recorded(codec, st.cached, raw, lo, hi, summary))
    ensures Show(codec, Recorded(codec, st.cached, raw, lo, hi, summary), raw, lo) == Tile(summary, hi - lo)
  {
    var ids := IdsOf(raw[lo..hi]);
    var after := Recorded(codec, st.cached, raw, lo, hi, summary);
    var new' := CachedSummary(ids, codec.sourcesDigest(raw[lo..hi]), summary);
    assert new' in after && new'.sourceIds[0] == raw[lo].sourceId;
    var d := Lookup(after, raw[lo].sourceId).value;
    assert d in Keep(st.cached, ids) || d == new';
    forall c | c in Keep(st.cached, ids) ensures c.sourceIds[0] != ids[0] {
      assert ids[0] !in c.sourceIds && c.sourceIds[0] in c.sourceIds;
    }
  }

  lemma RecordedNonEmpty(codec: Codec, cached: seq<CachedSummary>, raw: seq<ContextSource>, lo: nat, hi: nat,
      summary: ContextSource)
    requires NonEmptyIds(cached) && lo < hi <= |raw|
    ensures NonEmptyIds(Recorded(codec, cached, raw, lo, hi, summary))
  {
  }

  /** After caching, the same raw sources show exactly the spliced sequence. */
  lemma {:induction false} AppliedIsSplice(codec: Codec, st: State, raw: seq<ContextSource>, a: nat, b: nat,
      summary: ContextSource)
    requires ValidCache(st) && RawIds(raw)
    requires a < b <= |Applied(codec, st.cached, raw)|
    ensures var plan := Plan(codec, st.cached, raw);
            At(plan, 0, a) < At(plan, 0, b) <= |raw|
            && NonEmptyIds(Recorded(codec, st.cached, raw, At(plan, 0, a), At(plan, 0, b), summary))
            && Applied(codec, Recorded(codec, st.cached, raw, At(plan, 0, a), At(plan, 0, b), summary), raw)
               == Splice(Applied(codec, st.cached, raw), a, summary, b)
  {
    SliceExpansion(codec, st, raw, a, b);
    var p := Plan(codec, st.cached, raw);
    var lo, hi := At(p, 0, a), At(p, 0, b);
    RecordedNonEmpty(codec, st.cached, raw, lo, hi, summary);
    var q := Plan(codec, Recorded(codec, st.cached, raw, lo, hi, summary), raw);
    forall k | 0 <= k < |raw| && (k + p[k].width <= lo || hi <= k) ensures p[k] == q[k] {
      ShowUnchanged(codec, st, raw, lo, hi, summary, k);
    }
    ShowSummary(codec, st, raw, lo, hi, summary);
    PlansSplice(p, q, a, b, summary);
  }

  lemma {:induction false} PlansSplice<T>(p: seq<Tile<T>>, q: seq<Tile<T>>, a: nat, b: nat, x: T)
    requires Fits(p) && Fits(q) && |p| == |q|
    requires a < b <= |Shown(p, 0)| && At(p, 0, a) < At(p, 0, b)
    requires forall k | 0 <= k < |p| && (k + p[k].width <= At(p, 0, a) || At(p, 0, b) <= k) :: p[k] == q[k]
    requires q[At(p, 0, a)] == Tile(x, At(p, 0, b) - At(p, 0, a))
    ensures Shown(q, 0) == Splice(Shown(p, 0), a, x, b)
  {
    var lo, hi := At(p, 0, a), At(p, 0, b);
    SameBefore(p, q, 0, a, lo);
    SameAfter(p, q, hi);
    ShownFrom(p, 0, b);
    assert Shown(q, lo) == [x] + Shown(q, hi);
  }
}
