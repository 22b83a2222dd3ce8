/** What src/leanharness/context/projection.py computes, as functions of the
    projector's state, the public history, the live journal and the replies of
    the summary model. Hashes and JSON texts come from a `Codec`. */
module Projection {
  import opened Text
  import opened Messages
  import opened ToolProtocol
  import opened Tiling

  const MAX_SUMMARY_INPUT_CHARS := 96_000
  const CAPSULE_THRESHOLD := 160
  const SUMMARY_HEADER := "Summarize these old public context records as facts:\n"
  const LIVE_PREFIX := "live:"
  const SUMMARY_PREFIX := "semantic-summary:"
  const RUN_PREFIX := "run:"
  const HISTORY_START_ID := "context:history-start"

  datatype ContextSource = ContextSource(sourceId: string, message: Message)

  /** One semantic capsule and the contiguous raw sources it replaces. */
  datatype CachedSummary = CachedSummary(sourceIds: seq<string>, sourceDigest: string, summary: ContextSource)

  datatype ContextError = BudgetExceeded | ProtocolViolation

  datatype Result<+T> = Ok(value: T) | Err(error: ContextError)

  /** `record` is the JSON line of one message in a summary request. */
  datatype Codec = Codec(
    sourcesDigest: seq<ContextSource> -> string,
    messagesDigest: seq<Message> -> string,
    capsule: Message -> string,
    record: Message -> string,
    historyStart: string)

  datatype Limits = Limits(maxChars: nat, softChars: nat, semanticCompaction: bool, maxSemanticCompactions: nat)

  datatype View = View(
    messages: seq<Message>,
    sourceIds: seq<string>,
    projectedChars: nat,
    compressedMessages: nat,
    compressedSteps: nat,
    semanticCompacted: bool,
    semanticFallback: bool,
    generation: nat,
    digest: string)

  datatype State = State(semanticCalls: nat, generation: nat, cached: seq<CachedSummary>)

  /** The summary model's answer: the serialised summary, or any failure of the
      call or of its validation. */
  datatype SummaryReply = Failed | Summarised(content: string)

  function LiveId(index: nat): string { LIVE_PREFIX + Decimal(index) }
  function SummaryId(generation: nat): string { SUMMARY_PREFIX + Decimal(generation) }
  predicate IsLiveId(id: string) { StartsWith(id, LIVE_PREFIX) }
  predicate IsSummaryId(id: string) { StartsWith(id, SUMMARY_PREFIX) }

  function MessagesOf(sources: seq<ContextSource>): (ms: seq<Message>)
    ensures |ms| == |sources|
    ensures forall k | 0 <= k < |sources| :: ms[k] == sources[k].message
  {
    seq(|sources|, k requires 0 <= k < |sources| => sources[k].message)
  }

  function IdsOf(sources: seq<ContextSource>): (ids: seq<string>)
    ensures |ids| == |sources|
    ensures forall k | 0 <= k < |sources| :: ids[k] == sources[k].sourceId
  {
    seq(|sources|, k requires 0 <= k < |sources| => sources[k].sourceId)
  }

  function WithMessages(sources: seq<ContextSource>, ms: seq<Message>): (out: seq<ContextSource>)
    requires |sources| == |ms|
    ensures |out| == |sources| && MessagesOf(out) == ms && IdsOf(out) == IdsOf(sources)
  {
    seq(|sources|, k requires 0 <= k < |sources| => ContextSource(sources[k].sourceId, ms[k]))
  }

  // ---- sizes ----

  function CallsSize(calls: seq<ToolCall>): nat {
    if calls == [] then 0
    else
      var last := calls[|calls| - 1];
      CallsSize(calls[..|calls| - 1]) + |last.id| + |last.name| + |last.arguments|
  }

  function Size(ms: seq<Message>): nat {
    if ms == [] then 0
    else
      var last := ms[|ms| - 1];
      Size(ms[..|ms| - 1]) + |last.content| + 64 + CallsSize(last.toolCalls)
  }

  function CountSteps(ms: seq<Message>): nat {
    if ms == [] then 0
    else
      var last := ms[|ms| - 1];
      CountSteps(ms[..|ms| - 1]) + if last.role.Assistant? && last.toolCalls != [] then 1 else 0
  }

  // ---- raw sources ----

  function LeadingSystems(live: seq<Message>): (n: nat)
    ensures n <= |live|
    ensures forall k | 0 <= k < n :: live[k].role.System?
    ensures n < |live| ==> !live[n].role.System?
  {
    if live == [] || !live[0].role.System? then 0 else 1 + LeadingSystems(live[1..])
  }

  function LiveSources(live: seq<Message>, lo: nat, hi: nat): (out: seq<ContextSource>)
    requires lo <= hi <= |live|
    ensures |out| == hi - lo
    ensures forall k | 0 <= k < hi - lo :: out[k] == ContextSource(LiveId(lo + k), live[lo + k])
  {
    seq(hi - lo, k requires 0 <= k < hi - lo => ContextSource(LiveId(lo + k), live[lo + k]))
  }

  function HistoryMarker(codec: Codec, history: seq<ContextSource>): seq<ContextSource> {
    if exists k | 0 <= k < |history| :: StartsWith(history[k].sourceId, RUN_PREFIX)
    then [ContextSource(HISTORY_START_ID, Plain(System, codec.historyStart))]
    else []
  }

  function Normalise(codec: Codec, history: seq<ContextSource>, live: seq<Message>): seq<ContextSource> {
    var n := LeadingSystems(live);
    LiveSources(live, 0, n) + HistoryMarker(codec, history) + history + LiveSources(live, n, |live|)
  }

  // ---- cached summaries ----

  predicate NonEmptyIds(cached: seq<CachedSummary>) {
    forall c | c in cached :: c.sourceIds != []
  }

  /** The longest cache that starts with an id, the oldest one among equals. */
  function Lookup(cached: seq<CachedSummary>, id: string): (c: Option<CachedSummary>)
    requires NonEmptyIds(cached)
    ensures c.Some? ==> c.value in cached && c.value.sourceIds[0] == id
    ensures c.None? ==> forall d | d in cached :: d.sourceIds[0] != id
  {
    if cached == [] then None
    else
      var newest := cached[|cached| - 1];
      var older := Lookup(cached[..|cached| - 1], id);
      if newest.sourceIds[0] == id && (older.None? || |newest.sourceIds| > |older.value.sourceIds|) then Some(newest)
        else older
  }

  predicate Matches(codec: Codec, cache: CachedSummary, raw: seq<ContextSource>, i: nat)
    requires i <= |raw|
  {
    && i + |cache.sourceIds| <= |raw|
    && IdsOf(raw[i..i + |cache.sourceIds|]) == cache.sourceIds
    && codec.sourcesDigest(raw[i..i + |cache.sourceIds|]) == cache.sourceDigest
  }

  /** The source shown for position `i`, and how many raw sources it stands for. */
  function Show(codec: Codec, cached: seq<CachedSummary>, raw: seq<ContextSource>, i: nat): (out: Tile<ContextSource>)
    requires NonEmptyIds(cached) && i < |raw|
    ensures 0 < out.width <= |raw| - i
  {
    var c := Lookup(cached, raw[i].sourceId);
    if c.Some? && Matches(codec, c.value, raw, i) then Tile(c.value.summary, |c.value.sourceIds|) else Tile(raw[i], 1)
  }

  ghost function Plan(codec: Codec, cached: seq<CachedSummary>,
      raw: seq<ContextSource>): (plan: seq<Tile<ContextSource>>)
    requires NonEmptyIds(cached)
    ensures |plan| == |raw| && Fits(plan)
    ensures forall k | 0 <= k < |raw| :: plan[k] == Show(codec, cached, raw, k)
  {
    seq(|raw|, k requires 0 <= k < |raw| => Show(codec, cached, raw, k))
  }

  /** The raw sources with every matching slice replaced by its cached summary. */
  ghost function Applied(codec: Codec, cached: seq<CachedSummary>, raw: seq<ContextSource>): seq<ContextSource>
    requires NonEmptyIds(cached)
  {
    Shown(Plan(codec, cached, raw), 0)
  }

  /** The newest cache whose summary carries an id. */
  function SummarisedBy(cached: seq<CachedSummary>, id: string): (c: Option<CachedSummary>)
    ensures c.Some? ==> c.value in cached && c.value.summary.sourceId == id
    ensures c.None? ==> forall d | d in cached :: d.summary.sourceId != id
  {
    if cached == [] then None
    else if cached[|cached| - 1].summary.sourceId == id then Some(cached[|cached| - 1])
    else SummarisedBy(cached[..|cached| - 1], id)
  }

  function ExpandOne(cached: seq<CachedSummary>, id: string): seq<string> {
    var c := SummarisedBy(cached, id);
    if c.Some? then c.value.sourceIds else [id]
  }

  function Expanded(cached: seq<CachedSummary>, ids: seq<string>): seq<string> {
    if ids == [] then []
    else Expanded(cached, ids[..|ids| - 1]) + ExpandOne(cached, ids[|ids| - 1])
  }

  predicate Disjoint(a: seq<string>, b: seq<string>) {
    forall k | 0 <= k < |a| :: a[k] !in b
  }

  function Keep(cached: seq<CachedSummary>, ids: seq<string>): (kept: seq<CachedSummary>)
    ensures forall c :: c in kept <==> c in cached && Disjoint(ids, c.sourceIds)
  {
    if cached == [] then []
    else
      var last := cached[|cached| - 1];
      Keep(cached[..|cached| - 1], ids) + if Disjoint(ids, last.sourceIds) then [last] else []
  }

  predicate HasIdsAt(raw: seq<ContextSource>, ids: seq<string>, k: nat) {
    k + |ids| <= |raw| && IdsOf(raw[k..k + |ids|]) == ids
  }

  /** The first place where a list of ids occurs. */
  function FindSlice(raw: seq<ContextSource>, ids: seq<string>, start: nat): (at: Option<nat>)
    requires ids != []
    ensures at.Some? ==> start <= at.value && HasIdsAt(raw, ids, at.value)
    ensures forall k: nat | start <= k && (at.Some? ==> k < at.value) :: !HasIdsAt(raw, ids, k)
    decreases |raw| + 1 - start
  {
    if start + |ids| > |raw| then None
    else if HasIdsAt(raw, ids, start) then Some(start)
    else FindSlice(raw, ids, start + 1)
  }

  // ---- deterministic capsules ----

  predicate Substantive(m: Message) {
    m.role.Assistant? && (m.toolCalls != [] || NonBlank(m.content))
  }

  /** The index of the second substantive assistant message counted from `i`
      downwards, 0 when there is none above index 0. */
  function SecondStep(ms: seq<Message>, i: nat, steps: nat): (p: nat)
    requires i < |ms| && steps < 2
    ensures p <= i
  {
    if i == 0 then 0
    else if Substantive(ms[i]) then if steps == 1 then i else SecondStep(ms, i - 1, 1)
    else SecondStep(ms, i - 1, steps)
  }

  function ProtectedStart(ms: seq<Message>): (p: nat)
    ensures p <= |ms|
  {
    if |ms| <= 1 then |ms|
    else
      var p := SecondStep(ms, |ms| - 1, 0);
      if p != 0 then p else if |ms| > 11 then |ms| - 10 else 1
  }

  function Capsule(codec: Codec, m: Message): Message {
    Message(Tool, codec.capsule(m), [], m.toolCallId)
  }

  predicate Compressible(m: Message) {
    m.role.Tool? && |m.content| > CAPSULE_THRESHOLD
  }

  function CompactFrom(codec: Codec, ms: seq<Message>, i: nat, stop: nat, target: nat): (out: (seq<Message>, nat))
    requires i <= stop <= |ms|
    ensures |out.0| == |ms|
    decreases stop - i
  {
    if i == stop || Size(ms) <= target then (ms, 0)
    else if Compressible(ms[i]) then
      var rest := CompactFrom(codec, ms[i := Capsule(codec, ms[i])], i + 1, stop, target);
      (rest.0, rest.1 + 1)
    else CompactFrom(codec, ms, i + 1, stop, target)
  }

  /** The compacted messages, how many were replaced, and the steps they cover. */
  function Compact(codec: Codec, ms: seq<Message>, target: nat): (out: (seq<Message>, nat, nat))
    ensures |out.0| == |ms|
  {
    var stop := ProtectedStart(ms);
    var c := CompactFrom(codec, ms, 0, stop, target);
    (c.0, c.1, if c.1 > 0 then CountSteps(c.0[..stop]) else 0)
  }

  // ---- semantic range ----

  function TaskIndex(sources: seq<ContextSource>, i: nat): (t: Option<nat>)
    requires i <= |sources|
    ensures t.Some? ==>
              i <= t.value < |sources| && IsLiveId(sources[t.value].sourceId) && sources[t.value].message.role.User?
    ensures forall k | i <= k < (if t.Some? then t.value else |sources|) ::
              !(IsLiveId(sources[k].sourceId) && sources[k].message.role.User?)
    decreases |sources| - i
  {
    if i == |sources| then None
    else if IsLiveId(sources[i].sourceId) && sources[i].message.role.User? then Some(i)
    else TaskIndex(sources, i + 1)
  }

  predicate HasUnsummarised(sources: seq<ContextSource>, lo: nat, hi: nat) {
    exists k | 0 <= k < |sources| :: lo <= k < hi && !IsSummaryId(sources[k].sourceId)
  }

  function HistoryStart(sources: seq<ContextSource>): nat {
    if |sources| > 1 && sources[1].sourceId == HISTORY_START_ID then 2 else 1
  }

  /** Old context between the system contract and the task, else between the
      task and the protected steps; an empty range when neither has raw sources. */
  function CandidateRange(sources: seq<ContextSource>): (r: Result<(nat, nat)>)
    ensures r.Ok? ==> r.value.0 <= r.value.1 <= |sources|
  {
    var task := TaskIndex(sources, 0);
    if task.None? then Err(BudgetExceeded)
    else
      var t := task.value;
      var p := ProtectedStart(MessagesOf(sources));
      var stop := if p > t + 1 then p else t + 1;
      var start := HistoryStart(sources);
      if HasUnsummarised(sources, start, t) then Ok((start, t))
      else if HasUnsummarised(sources, t + 1, stop) then Ok((t + 1, stop))
      else Ok((0, 0))
  }

  /** The length of a summary request. */
  function PayloadSize(codec: Codec, ms: seq<Message>): nat {
    |SUMMARY_HEADER| + RecordsSize(codec, ms)
  }

  function RecordsSize(codec: Codec, ms: seq<Message>): nat {
    if ms == [] then 0
    else RecordsSize(codec, ms[..|ms| - 1]) + |codec.record(ms[|ms| - 1])| + if |ms| > 1 then 1 else 0
  }

  function ResultsEnd(sources: seq<ContextSource>, i: nat, ids: seq<string>): (e: nat)
    requires i <= |sources|
    ensures i <= e <= |sources|
    ensures forall k | i <= k < e ::
              sources[k].message.role.Tool? && sources[k].message.toolCallId.Some?
              && sources[k].message.toolCallId.value in ids
    ensures e < |sources| ==>
              !(sources[e].message.role.Tool? && sources[e].message.toolCallId.Some?
                && sources[e].message.toolCallId.value in ids)
    decreases |sources| - i
  {
    if i < |sources| && sources[i].message.role.Tool? && sources[i].message.toolCallId.Some?
       && sources[i].message.toolCallId.value in ids
    then ResultsEnd(sources, i + 1, ids)
    else i
  }

  /** The end of the group at `i`: an assistant message with calls takes its results along. */
  function GroupEnd(sources: seq<ContextSource>, i: nat): (e: nat)
    requires i < |sources|
    ensures i < e <= |sources|
  {
    if sources[i].message.role.Assistant? && sources[i].message.toolCalls != []
    then ResultsEnd(sources, i + 1, CallIds(sources[i].message))
    else i + 1
  }

  /** The longest prefix of whole groups, from `i` on, that fits a summary request. */
  function TakeGroups(codec: Codec, sources: seq<ContextSource>, i: nat): (r: Result<nat>)
    requires i <= |sources|
    ensures r.Ok? ==> i <= r.value <= |sources|
    decreases |sources| - i
  {
    if i == |sources| then Ok(i)
    else
      var e := GroupEnd(sources, i);
      if PayloadSize(codec, MessagesOf(sources[..e])) <= MAX_SUMMARY_INPUT_CHARS then TakeGroups(codec, sources, e)
      else if i > 0 then Ok(i)
      else Err(BudgetExceeded)
  }

  const CAPSULE_MARK := "evidence_capsule"

  predicate Contains(s: string, part: string) {
    exists k | 0 <= k <= |s| :: part <= s[k..]
  }

  function ForSummary(codec: Codec, m: Message): Message {
    if m.role.Tool? && !Contains(m.content, CAPSULE_MARK) then Capsule(codec, m) else m
  }

  function AllForSummary(codec: Codec, ms: seq<Message>): (out: seq<Message>)
    ensures |out| == |ms|
  {
    seq(|ms|, k requires 0 <= k < |ms| => ForSummary(codec, ms[k]))
  }

  // ---- projections ----

  ghost function Project(codec: Codec, limits: Limits, st: State, history: seq<ContextSource>,
      live: seq<Message>): Result<View>
    requires NonEmptyIds(st.cached)
  {
    var sources := Applied(codec, st.cached, Normalise(codec, history, live));
    var c := Compact(codec, MessagesOf(sources), limits.softChars);
    if !Legal(c.0) then Err(ProtocolViolation)
    else Ok(View(c.0, IdsOf(sources), Size(c.0), c.1, c.2, false, false, st.generation, codec.messagesDigest(c.0)))
  }

  ghost function Fallback(codec: Codec, limits: Limits, st: State, sources: seq<ContextSource>): Result<View> {
    var c := Compact(codec, MessagesOf(sources), limits.softChars);
    if !Legal(c.0) then Err(ProtocolViolation)
    else if Size(c.0) > limits.maxChars then Err(BudgetExceeded)
    else Ok(View(c.0, IdsOf(sources), Size(c.0), c.1, c.2, false, true, st.generation, codec.messagesDigest(c.0)))
  }

  /** The sources a semantic compaction works on: cached summaries applied and
      old tool results turned into capsules. */
  ghost function Prepared(codec: Codec, limits: Limits, st: State, raw: seq<ContextSource>): (out: seq<ContextSource>)
    requires NonEmptyIds(st.cached)
    ensures IdsOf(out) == IdsOf(Applied(codec, st.cached, raw))
  {
    var sources := Applied(codec, st.cached, raw);
    var target := if limits.softChars <= MAX_SUMMARY_INPUT_CHARS then limits.softChars else MAX_SUMMARY_INPUT_CHARS;
    WithMessages(sources, Compact(codec, MessagesOf(sources), target).0)
  }

  /** The slice of the prepared sources that the model is asked to summarise. */
  function Candidate(codec: Codec, prepared: seq<ContextSource>): (r: Result<(nat, nat)>)
    ensures r.Ok? ==> r.value.0 < r.value.1 <= |prepared|
  {
    var range := CandidateRange(prepared);
    if range.Err? then Err(range.error)
    else
      var (a, stop) := range.value;
      var n := TakeGroups(codec, prepared[a..stop], 0);
      if n.Err? then Err(n.error)
      else if n.value == 0 then Err(BudgetExceeded)
      else if PayloadSize(codec, AllForSummary(codec, MessagesOf(prepared[a..a + n.value]))) > MAX_SUMMARY_INPUT_CHARS
      then Err(BudgetExceeded)
      else Ok((a, a + n.value))
  }

  function SummarySource(st: State, content: string): ContextSource {
    ContextSource(SummaryId(st.generation + 1), Plain(System, content))
  }

  /** One round with the summary model: the state it leaves and the projection it yields. */
  ghost function Semantic(
    codec: Codec, limits: Limits, st: State, history: seq<ContextSource>, live: seq<Message>, reply: SummaryReply)
    : (State, Result<View>)
    requires NonEmptyIds(st.cached)
  {
    var raw := Normalise(codec, history, live);
    var prepared := Prepared(codec, limits, st, raw);
    var slice := Candidate(codec, prepared);
    if slice.Err? then (st, Err(slice.error))
    else
      var asked := st.(semanticCalls := st.semanticCalls + 1);
      if reply.Failed? then (asked, Fallback(codec, limits, asked, prepared))
      else Commit(codec, limits, st, raw, prepared, slice.value.0, slice.value.1, reply.content)
  }

  /** Splices a summary in and records the raw slice it replaces. */
  ghost function Commit(
    codec: Codec, limits: Limits, st: State, raw: seq<ContextSource>, prepared: seq<ContextSource>,
    a: nat, b: nat, content: string)
    : (State, Result<View>)
    requires NonEmptyIds(st.cached) && a <= b <= |prepared|
  {
    var asked := st.(semanticCalls := st.semanticCalls + 1);
    var projected := Splice(prepared, a, SummarySource(st, content), b);
    if !Legal(MessagesOf(projected)) then (asked, Err(ProtocolViolation))
    else
      var next := Remember(codec, st, raw, Expanded(st.cached, IdsOf(prepared[a..b])), SummarySource(st, content));
      if next.None? then (asked, Fallback(codec, limits, asked, raw))
      else (next.value, Ok(SemanticView(codec, st, prepared, a, b, projected)))
  }

  /** The state after a summary was cached; none when its ids are not a slice of the raw sources. */
  function Remember(codec: Codec, st: State, raw: seq<ContextSource>, ids: seq<string>,
      summary: ContextSource): (next: Option<State>)
    requires NonEmptyIds(st.cached)
    ensures next.Some? ==>
              NonEmptyIds(next.value.cached) && next.value.semanticCalls == st.semanticCalls + 1
              && next.value.generation == st.generation + 1
  {
    var at := if ids == [] then None else FindSlice(raw, ids, 0);
    if at.None? then None
    else
      var replaced := raw[at.value..at.value + |ids|];
      Some(State(st.semanticCalls + 1, st.generation + 1,
                 CacheSummary(st.cached, ids, codec.sourcesDigest(replaced), summary)))
  }

  /** Drops the caches that share a source with the new one. */
  function CacheSummary(cached: seq<CachedSummary>, ids: seq<string>, digest: string,
      summary: ContextSource): (out: seq<CachedSummary>)
    ensures NonEmptyIds(cached) && ids != [] ==> NonEmptyIds(out)
  {
    Keep(cached, ids) + [CachedSummary(ids, digest, summary)]
  }

  function SemanticView(
    codec: Codec, st: State, prepared: seq<ContextSource>, a: nat, b: nat, projected: seq<ContextSource>): View
    requires a <= b <= |prepared|
  {
    var asked := AllForSummary(codec, MessagesOf(prepared[a..b]));
    var ms := MessagesOf(projected);
    View(ms, IdsOf(projected), Size(ms), b - a, CountSteps(asked), true, false, st.generation + 1,
         codec.messagesDigest(ms))
  }

  /** Rounds until the projection fits; `force` asks for at least one round. */
  ghost function Rounds(
    codec: Codec, limits: Limits, st: State, history: seq<ContextSource>, live: seq<Message>,
    replies: nat -> SummaryReply, view: View, force: bool)
    : (State, Result<View>)
    requires NonEmptyIds(st.cached)
    decreases limits.maxSemanticCompactions - st.semanticCalls
  {
    if view.projectedChars <= limits.maxChars && !force then (st, Ok(view))
    else if st.semanticCalls >= limits.maxSemanticCompactions then (st, Err(BudgetExceeded))
    else
      var (next, result) := Semantic(codec, limits, st, history, live, replies(st.semanticCalls));
      if result.Err? || result.value.semanticFallback then (next, result)
      else if result.value.digest == view.digest then (next, Err(BudgetExceeded))
      else
        SemanticKeepsNonEmptyIds(codec, limits, st, history, live, replies(st.semanticCalls));
        Rounds(codec, limits, next, history, live, replies, result.value, false)
  }

  ghost function ProjectAsync(
    codec: Codec, limits: Limits, st: State, history: seq<ContextSource>, live: seq<Message>,
    client: Option<nat -> SummaryReply>, force: bool)
    : (State, Result<View>)
    requires NonEmptyIds(st.cached)
  {
    var view := Project(codec, limits, st, history, live);
    if view.Err? then (st, view)
    else if view.value.projectedChars <= limits.maxChars && !force then (st, view)
    else if !limits.semanticCompaction || client.None? then (st, Err(BudgetExceeded))
    else Rounds(codec, limits, st, history, live, client.value, view.value, force)
  }

  lemma SemanticKeepsNonEmptyIds(
    codec: Codec, limits: Limits, st: State, history: seq<ContextSource>, live: seq<Message>, reply: SummaryReply)
    requires NonEmptyIds(st.cached)
    ensures NonEmptyIds(Semantic(codec, limits, st, history, live, reply).0.cached)
    ensures st.semanticCalls
            <= Semantic(codec, limits, st, history, live, reply).0.semanticCalls
            <= st.semanticCalls + 1
    ensures Semantic(codec, limits, st, history, live, reply).1.Ok? ==>
              Semantic(codec, limits, st, history, live, reply).0.semanticCalls == st.semanticCalls + 1
  {
    hide AllCallIds, AllResultIds, WellFormed, Shown, CompactFrom, TakeGroups, Size, CountSteps, FindSlice, Expanded,
         Keep;
  }
}
