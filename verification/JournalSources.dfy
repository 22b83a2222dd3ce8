/** How the raw sources of a projection are laid out, and what appending to the
    journal does to them. */
module JournalSources {
  import opened Text
  import opened Messages
  import opened Projection
  import opened SummaryCache

  /** What the application hands in: distinct ids, none of them of the
      projector's own kinds. */
  ghost predicate Foreign(history: seq<ContextSource>) {
    && Distinct(IdsOf(history))
    && forall id | id in IdsOf(history) :: !IsLiveId(id) && !IsSummaryId(id) && id != HISTORY_START_ID
  }

  lemma LiveIdInjective(j: nat, k: nat)
    requires LiveId(j) == LiveId(k)
    ensures j == k
  {
    assert LiveId(j)[|LIVE_PREFIX|..] == Decimal(j) && LiveId(k)[|LIVE_PREFIX|..] == Decimal(k);
    DecimalInjective(j, k);
  }

  lemma LiveIdKind(j: nat)
    ensures IsLiveId(LiveId(j)) && !IsSummaryId(LiveId(j)) && LiveId(j) != HISTORY_START_ID
  {
    assert LiveId(j)[0] == 'l' && SUMMARY_PREFIX[0] == 's' && HISTORY_START_ID[0] == 'c';
  }

  function Offset(codec: Codec, history: seq<ContextSource>): nat {
    |HistoryMarker(codec, history)| + |history|
  }

  /** The raw position of a live message. */
  function LivePosition(codec: Codec, history: seq<ContextSource>, live: seq<Message>, j: nat): nat {
    if j < LeadingSystems(live) then j else j + Offset(codec, history)
  }

  lemma LiveAt(codec: Codec, history: seq<ContextSource>, live: seq<Message>, j: nat)
    requires j < |live|
    ensures LivePosition(codec, history, live, j) < |Normalise(codec, history, live)|
    ensures Normalise(codec, history, live)[LivePosition(codec, history, live, j)] == ContextSource(LiveId(j), live[j])
  {
  }

  /** Every raw source is a live message in order, or comes from the history block. */
  lemma {:induction false} RawKinds(codec: Codec, history: seq<ContextSource>, live: seq<Message>, p: nat)
    requires Foreign(history) && p < |Normalise(codec, history, live)|
    ensures var n, m := LeadingSystems(live), Offset(codec, history);
            var source := Normalise(codec, history, live)[p];
            if p < n then source == ContextSource(LiveId(p), live[p])
            else if p >= n + m then p - m < |live| && source == ContextSource(LiveId(p - m), live[p - m])
            else
              && !IsLiveId(source.sourceId) && !IsSummaryId(source.sourceId)
              && (source in HistoryMarker(codec, history) || source in history)
  {
    var n, m, marker := LeadingSystems(live), Offset(codec, history), HistoryMarker(codec, history);
    var raw := Normalise(codec, history, live);
    if n <= p < n + m {
      if p < n + |marker| {
        assert raw[p] == marker[p - n];
        assert HISTORY_START_ID[0] == 'c' && LIVE_PREFIX[0] == 'l' && SUMMARY_PREFIX[0] == 's';
      } else {
        assert raw[p] == history[p - n - |marker|];
        assert raw[p].sourceId == IdsOf(history)[p - n - |marker|];
      }
    }
  }

  /** A live id stands at the position of its message and nowhere else. */
  lemma LiveIdAt(codec: Codec, history: seq<ContextSource>, live: seq<Message>, p: nat, j: nat)
    requires Foreign(history) && p < |Normalise(codec, history, live)|
    requires Normalise(codec, history, live)[p].sourceId == LiveId(j)
    ensures j < |live| && p == LivePosition(codec, history, live, j)
    ensures Normalise(codec, history, live)[p].message == live[j]
  {
    RawKinds(codec, history, live, p);
    LiveIdKind(j);
    var n, m := LeadingSystems(live), Offset(codec, history);
    if p < n {
      LiveIdInjective(p, j);
    } else {
      LiveIdInjective(p - m, j);
    }
  }

  lemma RawIdsDiffer(codec: Codec, history: seq<ContextSource>, live: seq<Message>, p: nat, q: nat)
    requires Foreign(history) && p < q < |Normalise(codec, history, live)|
    ensures Normalise(codec, history, live)[p].sourceId != Normalise(codec, history, live)[q].sourceId
  {
    var raw := Normalise(codec, history, live);
    var n, m := LeadingSystems(live), Offset(codec, history);
    RawKinds(codec, history, live, p);
    RawKinds(codec, history, live, q);
    if p < n {
      LiveIdKind(p);
      if raw[q].sourceId == LiveId(p) {
        LiveIdAt(codec, history, live, q, p);
      }
    } else if p >= n + m {
      if raw[q].sourceId == LiveId(p - m) {
        LiveIdAt(codec, history, live, q, p - m);
      }
    } else if q >= n + m {
      LiveIdKind(q - m);
    } else {
      HistoryBlockIdsDiffer(codec, history, live, p, q);
    }
  }

  lemma {:induction false} HistoryBlockIdsDiffer(codec: Codec, history: seq<ContextSource>, live: seq<Message>,
      p: nat, q: nat)
    requires Foreign(history)
    requires LeadingSystems(live) <= p < q < LeadingSystems(live) + Offset(codec, history)
    requires q < |Normalise(codec, history, live)|
    ensures Normalise(codec, history, live)[p].sourceId != Normalise(codec, history, live)[q].sourceId
  {
    var raw := Normalise(codec, history, live);
    var n, marker := LeadingSystems(live), HistoryMarker(codec, history);
    var l := q - n - |marker|;
    assert raw[q] == history[l] && raw[q].sourceId == IdsOf(history)[l];
    assert IdsOf(history)[l] in IdsOf(history);
    if p < n + |marker| {
      assert raw[p] == marker[p - n];
    } else {
      var k := p - n - |marker|;
      assert raw[p] == history[k] && raw[p].sourceId == IdsOf(history)[k];
    }
  }

  /** Distinct history ids make all raw ids distinct. */
  lemma NormaliseRawIds(codec: Codec, history: seq<ContextSource>, live: seq<Message>)
    requires Foreign(history)
    ensures RawIds(Normalise(codec, history, live))
  {
    var raw := Normalise(codec, history, live);
    forall p, q | 0 <= p < q < |raw| ensures IdsOf(raw)[p] != IdsOf(raw)[q] {
      RawIdsDiffer(codec, history, live, p, q);
    }
    forall id | id in IdsOf(raw) ensures !IsSummaryId(id) {
      var p :| 0 <= p < |raw| && IdsOf(raw)[p] == id;
      RawKinds(codec, history, live, p);
      if p < LeadingSystems(live) {
        LiveIdKind(p);
      } else if p >= LeadingSystems(live) + Offset(codec, history) {
        LiveIdKind(p - Offset(codec, history));
      }
    }
  }

  // ---- appending ----

  /** The active task: the first live user message. */
  function FirstUser(live: seq<Message>): (t: Option<nat>)
    ensures t.Some? ==> t.value < |live| && live[t.value].role.User?
    ensures forall k | 0 <= k < (if t.Some? then t.value else |live|) :: !live[k].role.User?
  {
    if live == [] then None
    else
      var n := |live| - 1;
      var older := FirstUser(live[..n]);
      if older.Some? then older else if live[n].role.User? then Some(n) else None
  }

  lemma {:induction false} FirstUserAppend(live: seq<Message>, m: Message)
    ensures FirstUser(live).Some? ==> FirstUser(live + [m]) == FirstUser(live)
    ensures FirstUser(live).None? ==> FirstUser(live + [m]) in {None, Some(|live|)}
  {
    assert (live + [m])[..|live|] == live;
  }

  lemma {:induction false} LeadingSystemsIs(live: seq<Message>, n: nat)
    requires n < |live| && !live[n].role.System?
    requires forall k | 0 <= k < n :: live[k].role.System?
    ensures LeadingSystems(live) == n
  {
    var l := LeadingSystems(live);
  }

  lemma {:induction false} LeadingSystemsAppend(live: seq<Message>, m: Message)
    requires FirstUser(live).Some?
    ensures LeadingSystems(live + [m]) == LeadingSystems(live) <= FirstUser(live).value
  {
    var t, n := FirstUser(live).value, LeadingSystems(live);
    assert forall k | 0 <= k < |live| :: (live + [m])[k] == live[k];
    LeadingSystemsIs(live + [m], n);
  }

  lemma {:induction false} AllLead(live: seq<Message>, m: Message)
    ensures LeadingSystems(live) < |live| ==> LeadingSystems(live + [m]) == LeadingSystems(live)
    ensures LeadingSystems(live) == |live| ==> LeadingSystems(live + [m]) == |live| + if m.role.System? then 1 else 0
  {
    var n := LeadingSystems(live);
    assert forall k | 0 <= k < |live| :: (live + [m])[k] == live[k];
    if n < |live| || !m.role.System? {
      LeadingSystemsIs(live + [m], n);
    }
  }

  /** A new message is a new last source; only another system message in a journal
      that holds nothing else comes before the history. */
  lemma {:induction false} NormaliseAppend(codec: Codec, history: seq<ContextSource>, live: seq<Message>, m: Message)
    ensures var raw, x := Normalise(codec, history, live), ContextSource(LiveId(|live|), m);
            Normalise(codec, history, live + [m])
            == if LeadingSystems(live) == |live| && m.role.System?
               then LiveSources(live, 0, |live|) + [x] + HistoryMarker(codec, history) + history
               else raw + [x]
    ensures FirstUser(live).Some? ==> LeadingSystems(live) < |live|
  {
    AllLead(live, m);
    var n := LeadingSystems(live);
    LiveSourcesPrefix(live, m, 0, n);
    LiveSourcesPrefix(live, m, n, |live|);
    LiveSourcesLast(live + [m], n);
    if FirstUser(live).Some? {
      LeadingSystemsAppend(live, m);
    }
    var x := ContextSource(LiveId(|live|), m);
    if n == |live| && m.role.System? {
      LiveSourcesLast(live + [m], 0);
      assert LiveSources(live + [m], n + 1, |live + [m]|) == [];
    } else {
      assert LiveSources(live + [m], n, |live| + 1) == LiveSources(live, n, |live|) + [x];
      AppendParts(LiveSources(live, 0, n), HistoryMarker(codec, history), history, LiveSources(live, n, |live|), x);
    }
  }

  lemma AppendParts<T>(a: seq<T>, b: seq<T>, c: seq<T>, d: seq<T>, x: T)
    ensures a + b + c + (d + [x]) == a + b + c + d + [x]
  {
  }

  lemma LiveSourcesPrefix(live: seq<Message>, m: Message, lo: nat, hi: nat)
    requires lo <= hi <= |live|
    ensures LiveSources(live + [m], lo, hi) == LiveSources(live, lo, hi)
  {
  }

  lemma LiveSourcesLast(live: seq<Message>, lo: nat)
    requires lo < |live|
    ensures LiveSources(live, lo, |live|)
            == LiveSources(live, lo, |live| - 1) + [ContextSource(LiveId(|live| - 1), live[|live| - 1])]
  {
  }
}
