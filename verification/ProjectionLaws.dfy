/** What each part of a projection is, said without the functions that compute it. */
module ProjectionLaws {
  import opened Text
  import opened Messages
  import opened Projection
  import opened Compaction

  // ---- sizes ----

  /** The size of one message: its text, 64 more, and the texts of its calls. */
  function Weight(m: Message): nat {
    |m.content| + 64 + CallsWeight(m.toolCalls)
  }

  function CallsWeight(calls: seq<ToolCall>): nat {
    if calls == [] then 0
    else |calls[0].id| + |calls[0].name| + |calls[0].arguments| + CallsWeight(calls[1..])
  }

  lemma {:induction false} CallsWeigh(calls: seq<ToolCall>)
    ensures CallsSize(calls) == CallsWeight(calls)
  {
    if |calls| > 1 {
      var n := |calls| - 1;
      CallsWeigh(calls[..n]);
      CallsWeigh(calls[1..]);
      CallsWeigh(calls[1..n]);
      assert calls[..n][1..] == calls[1..n] && calls[1..][..n - 1] == calls[1..n];
    }
  }

  /** A size is the sum over the messages, each with its own weight. */
  lemma {:induction false} SizeJoins(a: seq<Message>, b: seq<Message>)
    ensures Size([]) == 0 && Size(a + b) == Size(a) + Size(b)
    ensures forall m :: Size([m]) == Weight(m)
  {
    forall m: Message ensures Size([m]) == Weight(m) {
      CallsWeigh(m.toolCalls);
      assert [m][..0] == [];
    }
    if b == [] {
      assert a + b == a;
    } else {
      var n := |b| - 1;
      SizeJoins(a, b[..n]);
      assert (a + b)[..|a + b| - 1] == a + b[..n];
    }
  }

  /** Where assistant messages call tools. */
  function CallingAt(ms: seq<Message>): set<nat> {
    set k | 0 <= k < |ms| && ms[k].role.Assistant? && ms[k].toolCalls != []
  }

  lemma {:induction false} StepsCounted(ms: seq<Message>)
    ensures CountSteps(ms) == |CallingAt(ms)|
  {
    if ms != [] {
      var n := |ms| - 1;
      StepsCounted(ms[..n]);
      CallingNext(ms[..n], ms[n]);
      assert ms == ms[..n] + [ms[n]];
    }
  }

  lemma CallingNext(older: seq<Message>, m: Message)
    ensures CallingAt(older + [m])
            == CallingAt(older) + if m.role.Assistant? && m.toolCalls != [] then {|older|} else {}
    ensures |older| !in CallingAt(older)
  {
    var all := older + [m];
    forall k | 0 <= k < |older| ensures all[k] == older[k] {
    }
  }

  // ---- the raw sources ----

  lemma MarkerIs(codec: Codec, history: seq<ContextSource>)
    ensures HistoryMarker(codec, history)
            == if exists k :: 0 <= k < |history| && "run:" <= history[k].sourceId
               then [ContextSource("context:history-start", Message(System, codec.historyStart, [], None))] else []
  {
  }

  lemma {:induction false} LiveAre(live: seq<Message>, lo: nat, hi: nat)
    requires lo <= hi <= |live|
    ensures LiveSources(live, lo, hi)
            == seq(hi - lo, k requires 0 <= k < hi - lo => ContextSource("live:" + Decimal(lo + k), live[lo + k]))
  {
  }

  /** The leading system messages, the marker if a persisted run is in the history, the
      history, and then what was said since. */
  lemma NormaliseIs(codec: Codec, history: seq<ContextSource>, live: seq<Message>, n: nat)
    requires n <= |live| && (forall k | 0 <= k < n :: live[k].role.System?)
    requires n < |live| ==> !live[n].role.System?
    ensures Normalise(codec, history, live)
            == LiveSources(live, 0, n)
               + (if exists k :: 0 <= k < |history| && "run:" <= history[k].sourceId
                  then [ContextSource("context:history-start", Message(System, codec.historyStart, [], None))] else [])
               + history + LiveSources(live, n, |live|)
  {
    hide HistoryMarker, LiveSources;
    var l := LeadingSystems(live);
    MarkerIs(codec, history);
  }

  // ---- cached summaries ----

  /** The cache at `i` starts with an id and is the first of the longest that do. */
  ghost predicate FirstLongest(cached: seq<CachedSummary>, id: string, i: nat)
    requires NonEmptyIds(cached)
  {
    && i < |cached| && cached[i].sourceIds[0] == id
    && forall j | 0 <= j < |cached| && cached[j].sourceIds[0] == id ::
         && |cached[j].sourceIds| <= |cached[i].sourceIds|
         && (j < i ==> |cached[j].sourceIds| < |cached[i].sourceIds|)
  }

  lemma FirstLongestOf(older: seq<CachedSummary>, c: CachedSummary, id: string, i: nat)
    requires NonEmptyIds(older + [c]) && NonEmptyIds(older) && FirstLongest(older, id, i)
    ensures c.sourceIds[0] != id || |c.sourceIds| <= |older[i].sourceIds| ==> FirstLongest(older + [c], id, i)
    ensures c.sourceIds[0] == id && |c.sourceIds| > |older[i].sourceIds| ==> FirstLongest(older + [c], id, |older|)
  {
    var all := older + [c];
    assert forall j | 0 <= j < |older| :: all[j] == older[j];
  }

  /** What is found for an id is the first of the longest caches that start with it. */
  lemma {:induction false} LookupIs(cached: seq<CachedSummary>, id: string) returns (i: nat)
    requires NonEmptyIds(cached)
    ensures var c := Lookup(cached, id);
            if c.None? then forall k | 0 <= k < |cached| :: cached[k].sourceIds[0] != id
            else i < |cached| && FirstLongest(cached, id, i) && cached[i] == c.value
  {
    hide FirstLongest;
    i := 0;
    if cached != [] {
      var n := |cached| - 1;
      var older := cached[..n];
      assert cached == older + [cached[n]];
      i := LookupIs(older, id);
      if Lookup(older, id).Some? {
        FirstLongestOf(older, cached[n], id, i);
        i := if Lookup(cached, id) == Lookup(older, id) && FirstLongest(cached, id, i) then i else n;
      } else if cached[n].sourceIds[0] == id {
        OnlyOne(cached, id);
        i := n;
      }
    }
  }

  lemma OnlyOne(cached: seq<CachedSummary>, id: string)
    requires cached != [] && NonEmptyIds(cached) && cached[|cached| - 1].sourceIds[0] == id
    requires forall i | 0 <= i < |cached| - 1 :: cached[i].sourceIds[0] != id
    ensures FirstLongest(cached, id, |cached| - 1)
  {
  }

  // ---- capsules ----

  /** The messages in which every tool result of more than 160 characters ahead of
      `end` is replaced by its capsule. */
  function Shortened(codec: Codec, ms: seq<Message>, end: nat): (out: seq<Message>)
    ensures |out| == |ms|
  {
    seq(|ms|, k requires 0 <= k < |ms| =>
      if k < end && ms[k].role.Tool? && |ms[k].content| > 160
      then Message(Tool, codec.capsule(ms[k]), [], ms[k].toolCallId) else ms[k])
  }

  function LongResults(ms: seq<Message>, end: nat): set<nat> {
    set k: nat | k < |ms| && k < end && ms[k].role.Tool? && |ms[k].content| > 160
  }

  lemma ShortenedIs(codec: Codec, ms: seq<Message>, end: nat)
    ensures CapsuledTo(codec, ms, 0, end) == Shortened(codec, ms, end)
  {
  }

  lemma LongNext(ms: seq<Message>, i: nat, end: nat)
    requires i < end <= |ms|
    ensures var rest := LongResults(ms, end) - LongResults(ms, i + 1);
            && i !in rest
            && LongResults(ms, end) - LongResults(ms, i)
               == if ms[i].role.Tool? && |ms[i].content| > 160 then {i} + rest else rest
  {
  }

  lemma {:induction false} EligibleCounts(ms: seq<Message>, i: nat, end: nat)
    requires i <= end <= |ms|
    ensures Eligible(ms, i, end) == |LongResults(ms, end) - LongResults(ms, i)|
    decreases end - i
  {
    hide LongResults;
    if i < end {
      EligibleCounts(ms, i + 1, end);
      LongNext(ms, i, end);
    } else {
      assert LongResults(ms, end) - LongResults(ms, i) == {};
    }
  }

  /** Compaction shortens results oldest first, up to the first place where the size
      meets the target, or all of them ahead of the protected tail; it reports how many
      it shortened and, if any, the steps it covers. */
  lemma {:induction false} CompactIs(codec: Codec, ms: seq<Message>, target: nat) returns (end: nat)
    ensures end <= ProtectedStart(ms)
    ensures var (out, shortened, steps) := Compact(codec, ms, target);
            && out == Shortened(codec, ms, end) && shortened == |LongResults(ms, end)|
            && steps == (if shortened > 0 then |CallingAt(ms[..ProtectedStart(ms)])| else 0)
            && (end == ProtectedStart(ms) || Size(out) <= target)
    ensures forall k | 0 <= k < end :: Size(Shortened(codec, ms, k)) > target
  {
    var stop := ProtectedStart(ms);
    end := CompactFromMeaning(codec, ms, 0, stop, target);
    ShortenedIs(codec, ms, end);
    EligibleCounts(ms, 0, end);
    assert LongResults(ms, 0) == {} && LongResults(ms, end) - {} == LongResults(ms, end);
    forall k | 0 <= k < end ensures Size(Shortened(codec, ms, k)) > target {
      ShortenedIs(codec, ms, k);
    }
    SameCallSteps(codec, ms, end, stop);
    StepsCounted(Shortened(codec, ms, end)[..stop]);
  }

  lemma SameCallSteps(codec: Codec, ms: seq<Message>, end: nat, stop: nat)
    requires end <= stop <= |ms|
    ensures CallingAt(Shortened(codec, ms, end)[..stop]) == CallingAt(ms[..stop])
  {
  }

  // ---- the range a summary may replace ----

  ghost predicate IsTask(sources: seq<ContextSource>, t: nat) {
    && t < |sources| && "live:" <= sources[t].sourceId && sources[t].message.role.User?
    && forall k | 0 <= k < t :: !("live:" <= sources[k].sourceId && sources[k].message.role.User?)
  }

  /** Some source of a range is no summary yet. */
  ghost predicate HasRaw(sources: seq<ContextSource>, lo: nat, hi: nat) {
    exists k :: 0 <= k < |sources| && lo <= k < hi && !("semantic-summary:" <= sources[k].sourceId)
  }

  /** What lies between the system contract, or the history marker behind it, and the
      task comes first; then what lies between the task and the protected tail; there
      is no range without a task. */
  lemma RangeIs(sources: seq<ContextSource>, t: nat)
    requires IsTask(sources, t) || (t == |sources| && forall k: nat :: !IsTask(sources, k))
    ensures var r := CandidateRange(sources);
            if t == |sources| then r == Err(BudgetExceeded)
            else
              var start := if |sources| > 1 && sources[1].sourceId == "context:history-start" then 2 else 1;
              var stop := ProtectedStart(MessagesOf(sources));
              r == Ok(if HasRaw(sources, start, t) then (start, t)
                      else if HasRaw(sources, t + 1, stop) then (t + 1, if stop > t + 1 then stop else t + 1)
                      else (0, 0))
  {
    hide MessagesOf, ProtectedStart;
    var task := TaskIndex(sources, 0);
    if task.Some? {
      assert IsTask(sources, task.value);
    }
  }

  // ---- the groups a request takes ----

  /** A group ends at `e`: it is one message, or an assistant message with calls and
      every result of them that directly follows. */
  ghost predicate GroupAt(sources: seq<ContextSource>, i: nat, e: nat) {
    && i < e <= |sources|
    && (forall k | i < k < e :: ResultFor(sources, i, k))
    && (e < |sources| ==> !ResultFor(sources, i, e))
  }

  /** Message `k` is a result of a call of message `i`. */
  ghost predicate ResultFor(sources: seq<ContextSource>, i: nat, k: nat)
    requires i < |sources| && k < |sources|
  {
    && sources[i].message.role.Assistant? && sources[k].message.role.Tool?
    && exists c :: 0 <= c < |sources[i].message.toolCalls|
                   && sources[k].message.toolCallId == Some(sources[i].message.toolCalls[c].id)
  }

  lemma GroupIs(sources: seq<ContextSource>, i: nat)
    requires i < |sources|
    ensures GroupAt(sources, i, GroupEnd(sources, i))
  {
    var m := sources[i].message;
    forall k | 0 <= k < |sources| && m.role.Assistant?
      ensures ResultFor(sources, i, k)
              <==> sources[k].message.role.Tool? && sources[k].message.toolCallId.Some?
                   && sources[k].message.toolCallId.value in CallIds(m)
    {
      var id := sources[k].message.toolCallId;
      if id.Some? && id.value in CallIds(m) {
        var c :| 0 <= c < |CallIds(m)| && CallIds(m)[c] == id.value;
        assert m.toolCalls[c].id == id.value;
      }
      if ResultFor(sources, i, k) {
        var c :| 0 <= c < |m.toolCalls| && id == Some(m.toolCalls[c].id);
        assert CallIds(m)[c] == id.value;
      }
    }
  }

  lemma OneGroup(sources: seq<ContextSource>, i: nat, e: nat, f: nat)
    requires GroupAt(sources, i, e) && GroupAt(sources, i, f)
    ensures e == f
  {
    hide ResultFor;
  }

  /** The texts of a request: its header, one record for each message, and a line break
      between two of them. */
  lemma {:induction false} RecordsJoin(codec: Codec, a: seq<Message>, b: seq<Message>)
    ensures RecordsSize(codec, []) == 0 && forall m :: RecordsSize(codec, [m]) == |codec.record(m)|
    ensures RecordsSize(codec, a + b)
            == RecordsSize(codec, a) + RecordsSize(codec, b) + if a != [] && b != [] then 1 else 0
  {
    forall m: Message ensures RecordsSize(codec, [m]) == |codec.record(m)| {
      assert [m][..0] == [];
    }
    if b == [] {
      assert a + b == a;
    } else {
      var n := |b| - 1;
      RecordsJoin(codec, a, b[..n]);
      assert (a + b)[..|a + b| - 1] == a + b[..n];
    }
  }

  /** A request about the first `e` sources is not too long. */
  predicate RequestFits(codec: Codec, sources: seq<ContextSource>, e: nat)
    requires e <= |sources|
  {
    53 + RecordsSize(codec, MessagesOf(sources[..e])) <= 96_000
  }

  /** From `i` on whole groups lead to `e`. */
  ghost predicate Groups(sources: seq<ContextSource>, i: nat, e: nat)
    decreases |sources| - i
  {
    i == e || (i < |sources| && exists g: nat :: GroupAt(sources, i, g) && g <= e && Groups(sources, g, e))
  }

  /** As many whole groups as fit; not even one exactly when the first does not. */
  lemma {:induction false} TakenAre(codec: Codec, sources: seq<ContextSource>, i: nat)
    requires i <= |sources|
    ensures var r := TakeGroups(codec, sources, i);
            && (r.Err? <==> i == 0 && exists g: nat :: GroupAt(sources, 0, g) && !RequestFits(codec, sources, g))
            && (r.Err? ==> r.error.BudgetExceeded?)
            && (r.Ok? ==>
                  && i <= r.value && Groups(sources, i, r.value)
                  && (r.value > i ==> RequestFits(codec, sources, r.value))
                  && forall g: nat | GroupAt(sources, r.value, g) :: !RequestFits(codec, sources, g))
    decreases |sources| - i
  {
    hide MessagesOf, RecordsSize, ResultFor, GroupAt;
    if i < |sources| {
      var e := GroupEnd(sources, i);
      GroupIs(sources, i);
      forall g | GroupAt(sources, i, g) ensures g == e {
        OneGroup(sources, i, e, g);
      }
      TakenAre(codec, sources, e);
    } else {
      NoGroup(sources);
    }
  }

  lemma NoGroup(sources: seq<ContextSource>)
    ensures forall g :: !GroupAt(sources, |sources|, g)
  {
  }
}
