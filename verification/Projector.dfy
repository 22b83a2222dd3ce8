/** The journal and the projector of src/leanharness/context as objects: every
    loop and every state change of the source, proved against `Projection`. */
module Projector {
  import opened Text
  import opened Messages
  import opened ToolProtocol
  import opened Projection
  import opened Tiling
  import opened SummaryCache

  // ---- helpers of the projector that only compute ----

  method MessageSize(messages: seq<Message>) returns (size: nat)
    ensures size == Size(messages)
  {
    size := 0;
    for n := 0 to |messages|
      invariant size == Size(messages[..n])
    {
      var message := messages[n];
      assert messages[..n + 1][..n] == messages[..n];
      size := size + |message.content| + 64;
      ghost var before := size;
      for k := 0 to |message.toolCalls|
        invariant size == before + CallsSize(message.toolCalls[..k])
      {
        var call := message.toolCalls[k];
        assert message.toolCalls[..k + 1][..k] == message.toolCalls[..k];
        size := size + |call.id| + |call.name| + |call.arguments|;
      }
      assert message.toolCalls[..|message.toolCalls|] == message.toolCalls;
    }
    assert messages[..|messages|] == messages;
  }

  method FindProtectedStart(messages: seq<Message>) returns (start: nat)
    ensures start == ProtectedStart(messages)
  {
    if |messages| <= 1 {
      return |messages|;
    }
    var protected, steps, index := 0, 0, |messages| - 1;
    while index > 0
      invariant 0 <= index < |messages| && 0 <= steps < 2 && protected == 0
      invariant SecondStep(messages, |messages| - 1, 0) == SecondStep(messages, index, steps)
    {
      var message := messages[index];
      if message.role.Assistant? && (message.toolCalls != [] || NonBlank(message.content)) {
        steps := steps + 1;
        if steps >= 2 {
          protected := index;
          break;
        }
      }
      index := index - 1;
    }
    start := if protected != 0 then protected else if |messages| - 10 > 1 then |messages| - 10 else 1;
  }

  /** Overwrites old, long tool results until the target is met. */
  method DeterministicCompact(codec: Codec, messages: seq<Message>, target: nat)
      returns (out: seq<Message>, compressed: nat, steps: nat)
    ensures (out, compressed, steps) == Compact(codec, messages, target)
  {
    out, compressed := messages, 0;
    var stop := FindProtectedStart(messages);
    var index := 0;
    while index < stop
      invariant index <= stop <= |messages| == |out|
      invariant CompactFrom(codec, messages, 0, stop, target)
             == (CompactFrom(codec, out, index, stop, target).0,
                 compressed + CompactFrom(codec, out, index, stop, target).1)
    {
      var size := MessageSize(out);
      if size <= target {
        break;
      }
      var message := out[index];
      if message.role.Tool? && |message.content| > CAPSULE_THRESHOLD {
        out := out[index := Message(Tool, codec.capsule(message), [], message.toolCallId)];
        compressed := compressed + 1;
      }
      index := index + 1;
    }
    steps := if compressed > 0 then CountSteps(out[..stop]) else 0;
  }

  method NormaliseSources(codec: Codec, history: seq<ContextSource>, live: seq<Message>)
      returns (sources: seq<ContextSource>)
    ensures sources == Normalise(codec, history, live)
  {
    sources := [];
    var start := 0;
    while start < |live| && live[start].role.System?
      invariant start <= |live| && start <= LeadingSystems(live)
      invariant sources == LiveSources(live, 0, start)
    {
      sources := sources + [ContextSource(LiveId(start), live[start])];
      start := start + 1;
    }
    assert start == LeadingSystems(live);
    var persisted := exists k | 0 <= k < |history| :: StartsWith(history[k].sourceId, RUN_PREFIX);
    if persisted {
      sources := sources + [ContextSource(HISTORY_START_ID, Plain(System, codec.historyStart))];
    }
    for index := 0 to |history|
      invariant sources == LiveSources(live, 0, start) + HistoryMarker(codec, history) + history[..index]
    {
      sources := sources + [history[index]];
    }
    ghost var head := sources;
    for index := start to |live|
      invariant start <= index
      invariant sources == head + LiveSources(live, start, index)
    {
      sources := sources + [ContextSource(LiveId(index), live[index])];
    }
    assert history[..|history|] == history;
  }

  /** Adds whole groups as long as the summary request stays within its budget. */
  method BoundedSummarySources(codec: Codec, sources: seq<ContextSource>) returns (selected: Result<nat>)
    ensures selected == TakeGroups(codec, sources, 0)
  {
    var taken, index := 0, 0;
    while index < |sources|
      invariant taken == index <= |sources|
      invariant TakeGroups(codec, sources, 0) == TakeGroups(codec, sources, index)
    {
      var message := sources[index].message;
      ghost var start := index;
      index := index + 1;
      if message.role.Assistant? && message.toolCalls != [] {
        var ids := CallIds(message);
        while index < |sources| && Answered(sources[index].message, ids)
          invariant start < index <= |sources|
          invariant ResultsEnd(sources, index, ids) == ResultsEnd(sources, start + 1, ids)
        {
          index := index + 1;
        }
      }
      assert index == GroupEnd(sources, start);
      if PayloadSize(codec, MessagesOf(sources[..index])) > MAX_SUMMARY_INPUT_CHARS {
        return if taken > 0 then Ok(taken) else Err(BudgetExceeded);
      }
      taken := index;
    }
    selected := Ok(taken);
  }

  predicate Answered(m: Message, ids: seq<string>) {
    m.role.Tool? && m.toolCallId.Some? && m.toolCallId.value in ids
  }

  method FindSourceSlice(sources: seq<ContextSource>, ids: seq<string>) returns (at: Option<nat>)
    ensures at == if ids == [] then None else FindSlice(sources, ids, 0)
  {
    if ids == [] {
      return None;
    }
    var start := 0;
    while start + |ids| <= |sources|
      invariant start <= |sources| + 1
      invariant FindSlice(sources, ids, 0) == FindSlice(sources, ids, start)
    {
      if IdsOf(sources[start..start + |ids|]) == ids {
        return Some(start);
      }
      start := start + 1;
    }
    at := None;
  }

  ghost predicate Descending(cached: seq<CachedSummary>) {
    forall i, j | 0 <= i < j < |cached| :: |cached[i].sourceIds| >= |cached[j].sourceIds|
  }

  lemma MultisetInsert<T>(a: seq<T>, x: T, b: seq<T>)
    ensures multiset(a + [x] + b) == multiset(a + b) + multiset{x}
  {
  }

  /** The caches of one length, in order. */
  function OfLength(cached: seq<CachedSummary>, length: nat): seq<CachedSummary> {
    if cached == [] then []
    else
      var last := cached[|cached| - 1];
      OfLength(cached[..|cached| - 1], length) + if |last.sourceIds| == length then [last] else []
  }

  lemma {:induction false} OfLengthConcat(a: seq<CachedSummary>, b: seq<CachedSummary>, length: nat)
    ensures OfLength(a + b, length) == OfLength(a, length) + OfLength(b, length)
  {
    if b == [] {
      assert a + b == a;
    } else {
      OfLengthConcat(a, b[..|b| - 1], length);
      assert (a + b)[..|a + b| - 1] == a + b[..|b| - 1];
    }
  }

  lemma {:induction false} NoneOfLength(cached: seq<CachedSummary>, length: nat)
    requires forall k | 0 <= k < |cached| :: |cached[k].sourceIds| != length
    ensures OfLength(cached, length) == []
  {
    if cached != [] {
      NoneOfLength(cached[..|cached| - 1], length);
    }
  }

  /** A cache set before shorter ones only is the last of its length. */
  lemma {:induction false} InsertedStable(sorted: seq<CachedSummary>, cache: CachedSummary, at: nat, length: nat)
    requires at <= |sorted| && forall k | at <= k < |sorted| :: |sorted[k].sourceIds| < |cache.sourceIds|
    ensures OfLength(sorted[..at] + [cache] + sorted[at..], length)
            == OfLength(sorted, length) + if |cache.sourceIds| == length then [cache] else []
  {
    hide OfLength;
    var a, b := sorted[..at], sorted[at..];
    assert sorted == a + b;
    OfLengthConcat(a, b, length);
    OfLengthConcat(a + [cache], b, length);
    OfLengthConcat(a, [cache], length);
    OneOfLength(cache, length);
    if |cache.sourceIds| == length {
      NoneOfLength(b, length);
    }
  }

  lemma {:induction false} OneOfLength(cache: CachedSummary, length: nat)
    ensures OfLength([cache], length) == if |cache.sourceIds| == length then [cache] else []
  {
    assert [cache][..0] == [];
  }

  /** Puts a cache behind those that are at least as long. */
  method InsertByLength(sorted: seq<CachedSummary>, cache: CachedSummary) returns (out: seq<CachedSummary>)
    requires Descending(sorted)
    ensures Descending(out) && multiset(out) == multiset(sorted) + multiset{cache}
    ensures forall length: nat ::
              OfLength(out, length) == OfLength(sorted, length) + if |cache.sourceIds| == length then [cache] else []
  {
    hide Descending, OfLength;
    var at := |sorted|;
    while at > 0 && |sorted[at - 1].sourceIds| < |cache.sourceIds|
      invariant 0 <= at <= |sorted|
      invariant forall k | at <= k < |sorted| :: |sorted[k].sourceIds| < |cache.sourceIds|
    {
      at := at - 1;
    }
    out := sorted[..at] + [cache] + sorted[at..];
    DescendingInsert(sorted, cache, at);
    MultisetInsertAt(sorted, cache, at);
    forall length: nat
      ensures OfLength(out, length) == OfLength(sorted, length) + if |cache.sourceIds| == length then [cache] else []
    {
      InsertedStable(sorted, cache, at, length);
    }
  }

  lemma MultisetInsertAt<T>(s: seq<T>, x: T, at: nat)
    requires at <= |s|
    ensures multiset(s[..at] + [x] + s[at..]) == multiset(s) + multiset{x}
  {
    assert s == s[..at] + s[at..];
    MultisetInsert(s[..at], x, s[at..]);
  }

  lemma InsertedAt<T>(s: seq<T>, x: T, at: nat, k: nat)
    requires at <= |s| && k <= |s|
    ensures (s[..at] + [x] + s[at..])[k] == if k < at then s[k] else if k == at then x else s[k - 1]
  {
  }

  lemma DescendingInsert(sorted: seq<CachedSummary>, cache: CachedSummary, at: nat)
    requires Descending(sorted) && at <= |sorted|
    requires at > 0 ==> |sorted[at - 1].sourceIds| >= |cache.sourceIds|
    requires forall k | at <= k < |sorted| :: |sorted[k].sourceIds| < |cache.sourceIds|
    ensures Descending(sorted[..at] + [cache] + sorted[at..])
  {
    var out := sorted[..at] + [cache] + sorted[at..];
    forall i, j | 0 <= i < j < |out| ensures |out[i].sourceIds| >= |out[j].sourceIds| {
      InsertedAt(sorted, cache, at, i);
      InsertedAt(sorted, cache, at, j);
    }
  }

  /** The caches, longest id list first, equal lengths in their own order. */
  method LongestFirst(cached: seq<CachedSummary>) returns (sorted: seq<CachedSummary>)
    ensures multiset(sorted) == multiset(cached) && Descending(sorted)
    ensures forall length: nat :: OfLength(sorted, length) == OfLength(cached, length)
  {
    hide OfLength;
    sorted := [];
    for n := 0 to |cached|
      invariant multiset(sorted) == multiset(cached[..n]) && Descending(sorted)
      invariant forall length: nat :: OfLength(sorted, length) == OfLength(cached[..n], length)
    {
      assert cached[..n + 1] == cached[..n] + [cached[n]];
      forall length: nat
        ensures OfLength(cached[..n + 1], length)
                == OfLength(cached[..n], length) + if |cached[n].sourceIds| == length then [cached[n]] else []
      {
        OfLengthConcat(cached[..n], [cached[n]], length);
        OneOfLength(cached[n], length);
      }
      sorted := InsertByLength(sorted, cached[n]);
    }
    assert cached[..|cached|] == cached;
  }

  /** What `compact` reports. */
  datatype Compression = Compression(compressedMessages: nat, savedChars: nat)

  class ContextJournal {
    var messages: seq<Message>
    var generation: nat

    constructor ()
      ensures messages == [] && generation == 0
    {
      messages, generation := [], 0;
    }

    method Append(message: Message)
      modifies this
      ensures messages == old(messages) + [message]
      ensures generation == old(generation) + 1
    {
      messages := messages + [message];
      generation := generation + 1;
    }

    method Replace(replacement: seq<Message>)
      modifies this
      ensures messages == replacement
      ensures generation == old(generation) + 1
    {
      messages := replacement;
      generation := generation + 1;
    }

    /** `ContextStore.compact`: capsules in place, outside the recent messages.
        A journal that stays too large keeps the capsules made so far. */
    method CompactInPlace(codec: Codec, maxChars: nat, preserveRecent: nat) returns (result: Result<Compression>)
      modifies this
      ensures var stop := if |old(messages)| > preserveRecent then |old(messages)| - preserveRecent else 0;
              var spec := CompactFrom(codec, old(messages), 0, stop, maxChars);
              && messages == spec.0
              && (result.Ok? <==> Size(spec.0) <= maxChars)
              && (result.Ok? ==> result.value.compressedMessages == spec.1
                                 && result.value.savedChars == if Size(old(messages)) > Size(spec.0)
                                    then Size(old(messages)) - Size(spec.0) else 0)
              && generation == old(generation) + (if result.Ok? && spec.1 > 0 then 1 else 0)
      ensures result.Err? ==> result.error == BudgetExceeded
    {
      var before := MessageSize(messages);
      var compressed := 0;
      var stop := if |messages| > preserveRecent then |messages| - preserveRecent else 0;
      var index := 0;
      while index < stop
        invariant index <= stop <= |old(messages)| == |messages| && generation == old(generation)
        invariant CompactFrom(codec, old(messages), 0, stop, maxChars)
               == (CompactFrom(codec, messages, index, stop, maxChars).0,
                   compressed + CompactFrom(codec, messages, index, stop, maxChars).1)
      {
        var size := MessageSize(messages);
        if size <= maxChars {
          break;
        }
        var message := messages[index];
        if message.role.Tool? && |message.content| > CAPSULE_THRESHOLD {
          messages := messages[index := Message(Tool, codec.capsule(message), [], message.toolCallId)];
          compressed := compressed + 1;
        }
        index := index + 1;
      }
      var after := MessageSize(messages);
      if after > maxChars {
        return Err(BudgetExceeded);
      }
      if compressed > 0 {
        generation := generation + 1;
      }
      result := Ok(Compression(compressed, if before > after then before - after else 0));
    }
  }

  class ContextProjector {
    const codec: Codec
    const limits: Limits
    var semanticCalls: nat
    var generation: nat
    var cached: seq<CachedSummary>

    ghost function State(): Projection.State
      reads this
    {
      Projection.State(semanticCalls, generation, cached)
    }

    ghost predicate Valid()
      reads this
    {
      Structured(State())
    }

    constructor (codec: Codec, limits: Limits)
      ensures Valid() && State() == Projection.State(0, 0, [])
      ensures this.codec == codec && this.limits == limits
    {
      this.codec, this.limits := codec, limits;
      semanticCalls, generation, cached := 0, 0, [];
    }

    /** The dictionary of caches by their first id, the longest one first. */
    method CachesByFirstId() returns (byFirst: map<string, CachedSummary>)
      requires Valid()
      ensures forall id :: id in byFirst <==> Lookup(cached, id).Some?
      ensures forall id | id in byFirst :: Lookup(cached, id) == Some(byFirst[id])
    {
      hide Lookup, Descending;
      byFirst := map[];
      var sorted := LongestFirst(cached);
      SameElements(sorted, cached);
      for n := 0 to |sorted|
        invariant forall id | id in byFirst :: byFirst[id] in cached && byFirst[id].sourceIds[0] == id
        invariant forall k | 0 <= k < n :: sorted[k].sourceIds[0] in byFirst
      {
        assert sorted[n] in cached;
        if sorted[n].sourceIds[0] !in byFirst {
          byFirst := byFirst[sorted[n].sourceIds[0] := sorted[n]];
        }
      }
      forall id ensures id in byFirst <==> Lookup(cached, id).Some?
                ensures id in byFirst ==> Lookup(cached, id) == Some(byFirst[id])
      {
        var c := Lookup(cached, id);
        if c.Some? {
          assert c.value in sorted;
          var k :| 0 <= k < |sorted| && sorted[k] == c.value;
          assert byFirst[id].sourceIds[0] in byFirst[id].sourceIds && c.value.sourceIds[0] in c.value.sourceIds;
          SharedIdSameCache(State(), c.value, byFirst[id], id);
        }
      }
    }

    /** The cached summary of the slice that starts at `index`, or the source itself. */
    method ShowAt(byFirst: map<string, CachedSummary>, sources: seq<ContextSource>, index: nat)
        returns (tile: Tile<ContextSource>)
      requires Valid() && index < |sources|
      requires forall id :: id in byFirst <==> Lookup(cached, id).Some?
      requires forall id | id in byFirst :: Lookup(cached, id) == Some(byFirst[id])
      ensures tile == Show(codec, cached, sources, index)
    {
      hide Lookup, Separate;
      var id := sources[index].sourceId;
      if id in byFirst {
        var cache := byFirst[id];
        var width := |cache.sourceIds|;
        if index + width <= |sources| {
          var candidate := sources[index..index + width];
          if IdsOf(candidate) == cache.sourceIds && codec.sourcesDigest(candidate) == cache.sourceDigest {
            return Tile(cache.summary, width);
          }
        }
      }
      tile := Tile(sources[index], 1);
    }

    /** Replaces every slice whose ids and digest match a cache by its summary. */
    method ApplyCachedSummaries(sources: seq<ContextSource>) returns (projected: seq<ContextSource>)
      requires Valid()
      ensures projected == Applied(codec, cached, sources)
    {
      hide Separate, Lookup, Show;
      ghost var plan := Plan(codec, cached, sources);
      if cached == [] || sources == [] {
        NoCacheNoChange(codec, cached, sources, 0);
        assert sources[0..] == sources;
        return sources;
      }
      projected := [];
      var index := 0;
      var byFirst := CachesByFirstId();
      while index < |sources|
        invariant index <= |sources|
        invariant projected + Shown(plan, index) == Shown(plan, 0)
        decreases |sources| - index
      {
        var tile := ShowAt(byFirst, sources, index);
        assert tile == plan[index];
        NextShown(plan, projected, index);
        projected := projected + [tile.item];
        index := index + tile.width;
      }
    }

    /** Replaces each summary by the ids it stands for; the newest cache of an id wins. */
    method ExpandedSourceIds(ids: seq<string>) returns (expanded: seq<string>)
      ensures expanded == Expanded(cached, ids)
    {
      var bySummary: map<string, CachedSummary> := map[];
      for n := 0 to |cached|
        invariant forall id :: id in bySummary <==> SummarisedBy(cached[..n], id).Some?
        invariant forall id | id in bySummary :: SummarisedBy(cached[..n], id) == Some(bySummary[id])
      {
        assert cached[..n + 1][..n] == cached[..n] && cached[..n + 1][n] == cached[n];
        bySummary := bySummary[cached[n].summary.sourceId := cached[n]];
      }
      assert cached[..|cached|] == cached;
      expanded := [];
      for n := 0 to |ids|
        invariant expanded == Expanded(cached, ids[..n])
      {
        assert ids[..n + 1][..n] == ids[..n];
        if ids[n] in bySummary {
          expanded := expanded + bySummary[ids[n]].sourceIds;
        } else {
          expanded := expanded + [ids[n]];
        }
      }
      assert ids[..|ids|] == ids;
    }

    method Project(history: seq<ContextSource>, journal: ContextJournal) returns (result: Result<View>)
      requires Valid()
      ensures result == Projection.Project(codec, limits, State(), history, journal.messages)
    {
      var raw := NormaliseSources(codec, history, journal.messages);
      var sources := ApplyCachedSummaries(raw);
      var messages, compressed, steps := DeterministicCompact(codec, MessagesOf(sources), limits.softChars);
      var legal := ValidateToolProtocol(messages);
      if !legal {
        return Err(ProtocolViolation);
      }
      var after := MessageSize(messages);
      result := Ok(View(messages, IdsOf(sources), after, compressed, steps, false, false, generation,
        codec.messagesDigest(messages)));
    }

    method FallbackProjection(sources: seq<ContextSource>) returns (result: Result<View>)
      ensures result == Fallback(codec, limits, State(), sources)
    {
      var messages, compressed, steps := DeterministicCompact(codec, MessagesOf(sources), limits.softChars);
      var legal := ValidateToolProtocol(messages);
      if !legal {
        return Err(ProtocolViolation);
      }
      var size := MessageSize(messages);
      if size > limits.maxChars {
        return Err(BudgetExceeded);
      }
      result := Ok(View(messages, IdsOf(sources), size, compressed, steps, false, true, generation,
        codec.messagesDigest(messages)));
    }

    /** The slice to summarise, or the budget error of its selection. */
    method SelectCandidate(sources: seq<ContextSource>) returns (slice: Result<(nat, nat)>)
      ensures slice == Candidate(codec, sources)
    {
      hide CandidateRange, RecordsSize, TakeGroups, Contains;
      var range := CandidateRange(sources);
      if range.Err? {
        return Err(range.error);
      }
      var (a, stop) := range.value;
      var taken := BoundedSummarySources(codec, sources[a..stop]);
      if taken.Err? {
        return Err(taken.error);
      }
      if taken.value == 0 {
        return Err(BudgetExceeded);
      }
      var asked := AllForSummary(codec, MessagesOf(sources[a..a + taken.value]));
      if PayloadSize(codec, asked) > MAX_SUMMARY_INPUT_CHARS {
        return Err(BudgetExceeded);
      }
      slice := Ok((a, a + taken.value));
    }

    method CacheSummaryOf(ids: seq<string>, digest: string, summary: ContextSource)
      modifies this`cached
      ensures cached == CacheSummary(old(cached), ids, digest, summary)
    {
      var kept: seq<CachedSummary> := [];
      for n := 0 to |cached|
        invariant cached == old(cached) && kept == Keep(cached[..n], ids)
      {
        assert cached[..n + 1][..n] == cached[..n];
        if forall k | 0 <= k < |ids| :: ids[k] !in cached[n].sourceIds {
          kept := kept + [cached[n]];
        }
      }
      assert cached[..|cached|] == cached;
      cached := kept + [CachedSummary(ids, digest, summary)];
    }

    method PrepareSources(raw: seq<ContextSource>) returns (sources: seq<ContextSource>)
      requires Valid()
      ensures sources == Prepared(codec, limits, State(), raw)
    {
      var shown := ApplyCachedSummaries(raw);
      var target := if limits.softChars <= MAX_SUMMARY_INPUT_CHARS then limits.softChars else MAX_SUMMARY_INPUT_CHARS;
      var messages, _, _ := DeterministicCompact(codec, MessagesOf(shown), target);
      sources := WithMessages(shown, messages);
    }

    method SemanticProject(history: seq<ContextSource>, journal: ContextJournal, reply: SummaryReply)
        returns (result: Result<View>)
      requires Valid()
      modifies this
      ensures Valid()
      ensures (State(), result) == Semantic(codec, limits, old(State()), history, journal.messages, reply)
    {
      hide AllCallIds, AllResultIds, WellFormed, CompactFrom, Size, CountSteps, FindSlice, Expanded, Keep, Candidate,
           Prepared, Normalise;
      ghost var before := State();
      SemanticStructured(codec, limits, before, history, journal.messages, reply);
      var raw := NormaliseSources(codec, history, journal.messages);
      var sources := PrepareSources(raw);
      var slice := SelectCandidate(sources);
      if slice.Err? {
        return Err(slice.error);
      }
      semanticCalls := semanticCalls + 1;
      if reply.Failed? {
        result := FallbackProjection(sources);
        return;
      }
      result := Commit(raw, sources, slice.value.0, slice.value.1, reply.content, before);
    }

    method Commit(raw: seq<ContextSource>, sources: seq<ContextSource>, a: nat, b: nat, content: string,
        ghost before: Projection.State)
      returns (result: Result<View>)
      requires a <= b <= |sources| && NonEmptyIds(before.cached)
      requires State() == before.(semanticCalls := before.semanticCalls + 1)
      modifies this
      ensures (State(), result) == Projection.Commit(codec, limits, before, raw, sources, a, b, content)
    {
      hide AllCallIds, AllResultIds, WellFormed, CompactFrom, Size, CountSteps, FindSlice, Expanded, Keep;
      var summary := ContextSource(SummaryId(generation + 1), Plain(System, content));
      var projected := Splice(sources, a, summary, b);
      var legal := ValidateToolProtocol(MessagesOf(projected));
      if !legal {
        return Err(ProtocolViolation);
      }
      var ids := ExpandedSourceIds(IdsOf(sources[a..b]));
      var at := FindSourceSlice(raw, ids);
      if at.None? {
        result := FallbackProjection(raw);
        return;
      }
      CacheSummaryOf(ids, codec.sourcesDigest(raw[at.value..at.value + |ids|]), summary);
      generation := generation + 1;
      var asked := AllForSummary(codec, MessagesOf(sources[a..b]));
      var messages := MessagesOf(projected);
      var size := MessageSize(messages);
      result := Ok(View(messages, IdsOf(projected), size, |asked|, CountSteps(asked), true, false, generation,
        codec.messagesDigest(messages)));
    }

    /** Asks the model for summaries only while the projection does not fit. */
    method ProjectAsync(
      history: seq<ContextSource>, journal: ContextJournal, client: Option<nat -> SummaryReply>, forceSemantic: bool)
      returns (result: Result<View>)
      requires Valid()
      modifies this
      ensures Valid()
      ensures (State(), result)
           == Projection.ProjectAsync(codec, limits, old(State()), history, journal.messages, client, forceSemantic)
    {
      hide AllCallIds, AllResultIds, WellFormed, CompactFrom, Size, CountSteps, Semantic, Normalise;
      result := Project(history, journal);
      if result.Err? || (result.value.projectedChars <= limits.maxChars && !forceSemantic) {
        return;
      }
      if !limits.semanticCompaction || client.None? {
        return Err(BudgetExceeded);
      }
      var view, requireOne := result.value, forceSemantic;
      while view.projectedChars > limits.maxChars || requireOne
        invariant Valid()
        invariant Rounds(codec, limits, old(State()), history, journal.messages, client.value, result.value,
                  forceSemantic)
               == Rounds(codec, limits, State(), history, journal.messages, client.value, view, requireOne)
        decreases limits.maxSemanticCompactions - semanticCalls
      {
        if semanticCalls >= limits.maxSemanticCompactions {
          return Err(BudgetExceeded);
        }
        SemanticKeepsNonEmptyIds(codec, limits, State(), history, journal.messages, client.value(semanticCalls));
        var next := SemanticProject(history, journal, client.value(semanticCalls));
        if next.Err? || next.value.semanticFallback {
          return next;
        }
        if next.value.digest == view.digest {
          return Err(BudgetExceeded);
        }
        view, requireOne := next.value, false;
      }
      result := Ok(view);
    }
  }

  lemma NextShown<T>(plan: seq<Tile<T>>, done: seq<T>, i: nat)
    requires Fits(plan) && i < |plan|
    ensures done + Shown(plan, i) == done + [plan[i].item] + Shown(plan, i + plan[i].width)
  {
  }

  lemma SameElements<T>(a: seq<T>, b: seq<T>)
    requires multiset(a) == multiset(b)
    ensures forall x :: x in a <==> x in b
  {
    forall x ensures x in a <==> x in b {
      assert x in multiset(a) <==> x in multiset(b);
    }
  }

  lemma {:induction false} NoCacheNoChange(codec: Codec, cached: seq<CachedSummary>, raw: seq<ContextSource>, i: nat)
    requires NonEmptyIds(cached) && (cached == [] || raw == []) && i <= |raw|
    ensures Shown(Plan(codec, cached, raw), i) == raw[i..]
    decreases |raw| - i
  {
    if i < |raw| {
      NoCacheNoChange(codec, cached, raw, i + 1);
    }
  }
}
