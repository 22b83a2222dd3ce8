/** How a run may extend its journal so that the tool protocol stays legal. */
module RunJournal {
  import opened Text
  import opened Messages
  import opened ToolProtocol
  import opened Alignment

  predicate ResultFor(m: Message, call: ToolCall) {
    m.role.Tool? && m.toolCallId == Some(call.id)
  }

  /** Results for the first `n` calls, in order. */
  ghost predicate Results(ms: seq<Message>, calls: seq<ToolCall>, n: nat) {
    n <= |calls| && |ms| == n && forall k | 0 <= k < n :: ResultFor(ms[k], calls[k])
  }

  ghost predicate Users(ms: seq<Message>) {
    forall k | 0 <= k < |ms| :: ms[k].role.User?
  }

  /** One model response with the results of its first `n` calls, then user messages. */
  ghost predicate Answered(suffix: seq<Message>, calls: seq<ToolCall>, n: nat) {
    && |suffix| >= 1 + n && suffix[0].role.Assistant? && suffix[0].toolCalls == calls
    && Results(suffix[1..1 + n], calls, n)
    && Users(suffix[1 + n..])
  }

  /** What a step leaves behind when it leaves no call open. */
  ghost predicate Exchange(suffix: seq<Message>) {
    Users(suffix) || (|suffix| > 0 && Answered(suffix, suffix[0].toolCalls, |suffix[0].toolCalls|))
  }

  function IdsOfCalls(calls: seq<ToolCall>): (ids: seq<string>)
    ensures |ids| == |calls|
    ensures forall k | 0 <= k < |calls| :: ids[k] == calls[k].id
  {
    seq(|calls|, k requires 0 <= k < |calls| => calls[k].id)
  }

  /** The calls an exchange asks for. */
  function CallsOf(suffix: seq<Message>): seq<ToolCall> {
    if suffix != [] && suffix[0].role.Assistant? then suffix[0].toolCalls else []
  }

  // ---- ids of the pieces ----

  lemma {:induction false} UsersIds(ms: seq<Message>)
    requires Users(ms)
    ensures AllCallIds(ms) == [] && AllResultIds(ms) == []
  {
    if ms != [] {
      UsersIds(ms[..|ms| - 1]);
    }
  }

  lemma {:induction false} ResultsIds(ms: seq<Message>, calls: seq<ToolCall>, n: nat)
    requires Results(ms, calls, n)
    ensures AllCallIds(ms) == [] && AllResultIds(ms) == IdsOfCalls(calls[..n])
  {
    if n > 0 {
      var older := ms[..n - 1];
      ResultsIds(older, calls, n - 1);
      assert ResultFor(ms[n - 1], calls[n - 1]);
      assert IdsOfCalls(calls[..n]) == IdsOfCalls(calls[..n - 1]) + [calls[n - 1].id];
    }
  }

  lemma {:induction false} AnsweredParts(suffix: seq<Message>, calls: seq<ToolCall>, n: nat)
    requires Answered(suffix, calls, n)
    ensures AllCallIds(suffix) == IdsOfCalls(calls)
    ensures AllResultIds(suffix) == IdsOfCalls(calls[..n])
  {
    hide AllCallIds, AllResultIds;
    var head, middle, tail := suffix[..1], suffix[1..1 + n], suffix[1 + n..];
    assert head == [suffix[0]] && suffix == head + middle + tail;
    IdsOfThree(head, middle, tail);
    SingleIds(suffix[0]);
    ResultsIds(middle, calls, n);
    UsersIds(tail);
    assert CallIds(suffix[0]) == IdsOfCalls(calls);
  }

  lemma {:induction false} ExchangeIds(suffix: seq<Message>)
    requires Exchange(suffix)
    ensures AllCallIds(suffix) == AllResultIds(suffix) == IdsOfCalls(CallsOf(suffix))
  {
    if Users(suffix) {
      UsersIds(suffix);
    } else {
      var calls := suffix[0].toolCalls;
      AnsweredParts(suffix, calls, |calls|);
      assert calls[..|calls|] == calls;
    }
  }

  // ---- legality is kept ----

  ghost predicate Fresh(ms: seq<Message>, calls: seq<ToolCall>) {
    && "" !in IdsOfCalls(calls) && Distinct(IdsOfCalls(calls))
    && forall id | id in IdsOfCalls(calls) :: id !in AllCallIds(ms)
  }

  ghost predicate Sound(ms: seq<Message>) {
    Legal(ms) && Adjacent(ms)
  }

  lemma WellFormedAssistant(ms: seq<Message>, m: Message, calls: seq<ToolCall>)
    requires WellFormed(ms) && m.role.Assistant? && m.toolCalls == calls && Fresh(ms, calls)
    ensures WellFormed(ms + [m])
  {
    hide AllCallIds, AllResultIds, WellFormed;
    assert CallIds(m) == IdsOfCalls(calls);
    WellFormedPrefix(ms, m);
  }

  lemma WellFormedUser(ms: seq<Message>, m: Message)
    requires WellFormed(ms) && !m.role.Assistant? && !m.role.Tool?
    ensures WellFormed(ms + [m])
  {
    hide AllCallIds, AllResultIds, WellFormed;
    WellFormedPrefix(ms, m);
  }

  lemma {:induction false} WellFormedResult(ms: seq<Message>, m: Message, id: string)
    requires WellFormed(ms) && m.role.Tool? && m.toolCallId == Some(id)
    requires id in AllCallIds(ms) && id !in AllResultIds(ms)
    ensures WellFormed(ms + [m])
  {
    hide AllCallIds, AllResultIds, WellFormed;
    WellFormedPrefix(ms, m);
  }

  lemma {:induction false} WellFormedUsers(ms: seq<Message>, tail: seq<Message>)
    requires WellFormed(ms) && Users(tail)
    ensures WellFormed(ms + tail)
  {
    hide WellFormed;
    if tail == [] {
      assert ms + tail == ms;
    } else {
      var n := |tail| - 1;
      WellFormedUsers(ms, tail[..n]);
      WellFormedUser(ms + tail[..n], tail[n]);
      assert ms + tail == ms + tail[..n] + [tail[n]];
    }
  }

  /** The results of fresh calls may follow one by one. */
  lemma {:induction false} WellFormedResults(ms: seq<Message>, m: Message, calls: seq<ToolCall>,
      results: seq<Message>, n: nat)
    requires Legal(ms) && m.role.Assistant? && m.toolCalls == calls && Fresh(ms, calls)
    requires Results(results, calls, n)
    ensures WellFormed(ms + [m] + results)
    ensures AllCallIds(ms + [m] + results) == AllCallIds(ms) + IdsOfCalls(calls)
    ensures AllResultIds(ms + [m] + results) == AllResultIds(ms) + IdsOfCalls(calls[..n])
    decreases n
  {
    hide AllCallIds, AllResultIds, WellFormed;
    IdsOfThree(ms, [m], results);
    SingleIds(m);
    ResultsIds(results, calls, n);
    assert CallIds(m) == IdsOfCalls(calls);
    if n == 0 {
      WellFormedAssistant(ms, m, calls);
      assert ms + [m] + results == ms + [m];
    } else {
      var older := results[..n - 1];
      WellFormedResults(ms, m, calls, older, n - 1);
      NextResultOpen(ms, calls, n - 1);
      assert ResultFor(results[n - 1], calls[n - 1]);
      WellFormedResult(ms + [m] + older, results[n - 1], calls[n - 1].id);
      assert ms + [m] + results == ms + [m] + older + [results[n - 1]];
    }
  }

  lemma {:induction false} NextResultOpen(ms: seq<Message>, calls: seq<ToolCall>, n: nat)
    requires Legal(ms) && Fresh(ms, calls) && n < |calls|
    ensures calls[n].id in AllCallIds(ms) + IdsOfCalls(calls)
    ensures calls[n].id !in AllResultIds(ms) + IdsOfCalls(calls[..n])
  {
    hide AllCallIds, AllResultIds;
    ResultsAreCalled(ms);
    assert IdsOfCalls(calls)[n] == calls[n].id;
    assert calls[n].id in IdsOfCalls(calls);
    forall k | 0 <= k < n ensures IdsOfCalls(calls[..n])[k] != calls[n].id {
      assert IdsOfCalls(calls)[k] == IdsOfCalls(calls[..n])[k];
    }
  }

  lemma {:induction false} AnsweredWellFormed(ms: seq<Message>, suffix: seq<Message>, calls: seq<ToolCall>, n: nat)
    requires Legal(ms) && Answered(suffix, calls, n) && Fresh(ms, calls)
    ensures WellFormed(ms + suffix)
    ensures AllCallIds(ms + suffix) == AllCallIds(ms) + IdsOfCalls(calls)
    ensures AllResultIds(ms + suffix) == AllResultIds(ms) + IdsOfCalls(calls[..n])
  {
    hide AllCallIds, AllResultIds, WellFormed;
    var middle, tail := suffix[1..1 + n], suffix[1 + n..];
    WellFormedResults(ms, suffix[0], calls, middle, n);
    WellFormedUsers(ms + [suffix[0]] + middle, tail);
    assert ms + suffix == ms + [suffix[0]] + middle + tail;
    AnsweredParts(suffix, calls, n);
    AllIdsConcat(ms, suffix);
  }

  /** A response with some calls unanswered is legal exactly when none is. */
  lemma AnsweredLegalIff(ms: seq<Message>, suffix: seq<Message>, calls: seq<ToolCall>, n: nat)
    requires Legal(ms) && Answered(suffix, calls, n) && Fresh(ms, calls)
    ensures Legal(ms + suffix) <==> n == |calls|
  {
    hide AllCallIds, AllResultIds, WellFormed;
    AnsweredWellFormed(ms, suffix, calls, n);
    var asked, told := AllCallIds(ms) + IdsOfCalls(calls), AllResultIds(ms) + IdsOfCalls(calls[..n]);
    if n == |calls| {
      assert calls[..n] == calls;
    } else {
      NextResultOpen(ms, calls, n);
      assert calls[n].id in asked && calls[n].id !in told;
    }
  }

  lemma {:induction false} OwnerKept(ms: seq<Message>, more: seq<Message>, i: int, r: int)
    requires Owner(ms, i, r)
    ensures Owner(ms + more, i, r)
  {
  }

  lemma AnsweredAdjacent(ms: seq<Message>, suffix: seq<Message>, calls: seq<ToolCall>, n: nat)
    requires Adjacent(ms) && Answered(suffix, calls, n)
    ensures Adjacent(ms + suffix)
  {
    var all := ms + suffix;
    forall r | 0 <= r < |all| && all[r].role.Tool? ensures exists i :: Owner(all, i, r) {
      if r < |ms| {
        var i :| Owner(ms, i, r);
        OwnerKept(ms, suffix, i, r);
      } else {
        ResultOwned(ms, suffix, calls, n, r - |ms|);
      }
    }
  }

  lemma TailIsUsers(suffix: seq<Message>, calls: seq<ToolCall>, n: nat)
    requires Answered(suffix, calls, n)
    ensures forall k | n < k < |suffix| :: suffix[k].role.User?
  {
    forall k | n < k < |suffix| ensures suffix[k].role.User? {
      assert suffix[1 + n..][k - 1 - n] == suffix[k];
    }
  }

  lemma ResultOwned(ms: seq<Message>, suffix: seq<Message>, calls: seq<ToolCall>, n: nat, k: nat)
    requires Answered(suffix, calls, n) && k < |suffix| && suffix[k].role.Tool?
    ensures Owner(ms + suffix, |ms|, |ms| + k)
  {
    var all := ms + suffix;
    TailIsUsers(suffix, calls, n);
    forall j | |ms| < j <= |ms| + k ensures Answers(all[j], all[|ms|]) {
      var l := j - |ms| - 1;
      assert suffix[1..1 + n][l] == all[j];
      assert ResultFor(suffix[1..1 + n][l], calls[l]);
      assert CallIds(all[|ms|])[l] == calls[l].id;
    }
  }

  lemma UsersAdjacent(ms: seq<Message>, tail: seq<Message>)
    requires Adjacent(ms) && forall k | 0 <= k < |tail| :: !tail[k].role.Tool?
    ensures Adjacent(ms + tail)
  {
    var all := ms + tail;
    forall r | 0 <= r < |all| && all[r].role.Tool? ensures exists i :: Owner(all, i, r) {
      assert all[r] == ms[r];
      var i :| Owner(ms, i, r);
      OwnerKept(ms, tail, i, r);
    }
  }

  /** An exchange with fresh ids keeps a journal legal and its results adjacent. */
  lemma {:induction false} ExchangeSound(ms: seq<Message>, suffix: seq<Message>)
    requires Sound(ms) && Exchange(suffix) && Fresh(ms, CallsOf(suffix))
    ensures Sound(ms + suffix)
    ensures AllCallIds(ms + suffix) == AllCallIds(ms) + IdsOfCalls(CallsOf(suffix))
  {
    hide AllCallIds, AllResultIds, WellFormed, Adjacent;
    AllIdsConcat(ms, suffix);
    ExchangeIds(suffix);
    if Users(suffix) {
      WellFormedUsers(ms, suffix);
      UsersAdjacent(ms, suffix);
      UsersIds(suffix);
    } else {
      var calls := suffix[0].toolCalls;
      AnsweredLegalIff(ms, suffix, calls, |calls|);
      AnsweredAdjacent(ms, suffix, calls, |calls|);
    }
  }

  /** A plain message keeps a journal sound. */
  lemma {:induction false} PlainSound(ms: seq<Message>, m: Message)
    requires Sound(ms) && (m.role.System? || m.role.User?)
    ensures Sound(ms + [m]) && AllCallIds(ms + [m]) == AllCallIds(ms)
  {
    hide AllCallIds, AllResultIds, WellFormed, Adjacent;
    WellFormedUser(ms, m);
    UsersAdjacent(ms, [m]);
    IdsSnoc(ms, m);
  }

  /** No call id is empty or used twice. */
  ghost predicate Unique(ms: seq<Message>) {
    "" !in AllCallIds(ms) && Distinct(AllCallIds(ms))
  }

  /** A journal that is legal as soon as its call ids are unique. */
  ghost predicate Kept(ms: seq<Message>) {
    Adjacent(ms) && (Unique(ms) ==> Legal(ms))
  }

  /** A response with results for its first `n` calls, or no response at all. */
  ghost predicate Left(before: seq<Message>, after: seq<Message>, calls: seq<ToolCall>, n: nat) {
    && before <= after
    && (Answered(after[|before|..], calls, n) || (Users(after[|before|..]) && calls == [] && n == 0))
  }

  lemma {:induction false} UniqueParts(ms: seq<Message>, suffix: seq<Message>, calls: seq<ToolCall>)
    requires AllCallIds(suffix) == IdsOfCalls(calls) && Unique(ms + suffix)
    ensures Unique(ms) && Fresh(ms, calls)
  {
    hide AllCallIds;
    AllIdsConcat(ms, suffix);
    var known, added := AllCallIds(ms), IdsOfCalls(calls);
    DistinctConcat(known, added);
    assert "" !in known + added;
    forall id | id in added ensures id !in known {}
  }

  /** What a step leaves is legal exactly when no call of it is left open. */
  lemma LeftKept(before: seq<Message>, after: seq<Message>, calls: seq<ToolCall>, n: nat)
    requires Kept(before) && Left(before, after, calls, n)
    ensures Adjacent(after)
    ensures Unique(after) ==> (Legal(after) <==> n == |calls|)
  {
    hide AllCallIds, AllResultIds, WellFormed, Adjacent, Unique, Fresh;
    var suffix := after[|before|..];
    assert after == before + suffix;
    if Answered(suffix, calls, n) {
      AnsweredAdjacent(before, suffix, calls, n);
      AnsweredParts(suffix, calls, n);
      if Unique(after) {
        UniqueParts(before, suffix, calls);
        AnsweredLegalIff(before, suffix, calls, n);
      }
    } else {
      UsersAdjacent(before, suffix);
      UsersIds(suffix);
      if Unique(after) {
        UniqueParts(before, suffix, []);
        NoCallsFresh(before);
        ExchangeSound(before, suffix);
      }
    }
  }

  lemma NoCallsFresh(ms: seq<Message>)
    ensures Fresh(ms, [])
  {
  }

  /** A plain message keeps what a journal keeps. */
  lemma PlainKept(ms: seq<Message>, m: Message)
    requires Kept(ms) && (m.role.System? || m.role.User?)
    ensures Kept(ms + [m])
  {
    hide AllCallIds, AllResultIds, WellFormed, Adjacent;
    UsersAdjacent(ms, [m]);
    IdsSnoc(ms, m);
    assert CallIds(m) == [];
    assert AllCallIds(ms + [m]) == AllCallIds(ms);
    if Unique(ms + [m]) {
      PlainSound(ms, m);
    }
  }

  /** The system messages of a journal, in order. */
  function Systems(ms: seq<Message>): seq<Message> {
    if ms == [] then []
    else Systems(ms[..|ms| - 1]) + if ms[|ms| - 1].role.System? then [ms[|ms| - 1]] else []
  }

  lemma {:induction false} OnlySystems(ms: seq<Message>)
    ensures forall k | 0 <= k < |Systems(ms)| :: Systems(ms)[k].role.System?
    ensures AllCallIds(Systems(ms)) == [] && AllResultIds(Systems(ms)) == []
  {
    if ms != [] {
      var kept, m := Systems(ms[..|ms| - 1]), ms[|ms| - 1];
      OnlySystems(ms[..|ms| - 1]);
      IdsSnoc(kept, m);
      assert Systems(ms) == if m.role.System? then kept + [m] else kept;
    }
  }

  /** A journal of system messages and one summary is legal. */
  lemma {:induction false} SystemsSound(ms: seq<Message>, summary: string)
    ensures Sound(Systems(ms) + [Plain(User, summary)])
  {
    hide AllCallIds, AllResultIds, WellFormed, Systems;
    OnlySystems(ms);
    var kept := Systems(ms);
    NoToolsWellFormed(kept);
    PlainSound(kept, Plain(User, summary));
  }

  /** Messages that neither ask for tools nor report results: public history. */
  ghost predicate NoTools(ms: seq<Message>) {
    forall k | 0 <= k < |ms| :: !ms[k].role.Tool? && CallIds(ms[k]) == []
  }

  lemma {:induction false} NoToolIds(ms: seq<Message>)
    requires NoTools(ms)
    ensures AllCallIds(ms) == [] && AllResultIds(ms) == []
  {
    if ms != [] {
      NoToolIds(ms[..|ms| - 1]);
    }
  }

  lemma {:induction false} NoToolsWellFormed(ms: seq<Message>)
    requires NoTools(ms)
    ensures WellFormed(ms)
  {
    if ms != [] {
      hide AllCallIds, AllResultIds, WellFormed;
      var n := |ms| - 1;
      NoToolsWellFormed(ms[..n]);
      WellFormedPrefix(ms[..n], ms[n]);
      assert ms == ms[..n] + [ms[n]];
    }
  }

  // ---- growing a journal by results ----

  /** `after` is `before` with the results of these calls behind it. */
  ghost predicate Grown(before: seq<Message>, after: seq<Message>, calls: seq<ToolCall>) {
    && |after| == |before| + |calls|
    && after[..|before|] == before
    && forall k | 0 <= k < |calls| :: ResultFor(after[|before| + k], calls[k])
  }

  /** A response, the results of its first calls and some user messages. */
  lemma GrownAnswered(before: seq<Message>, m: Message, after: seq<Message>, tail: seq<Message>,
      calls: seq<ToolCall>, n: nat)
    requires m.role.Assistant? && m.toolCalls == calls && n <= |calls|
    requires Grown(before + [m], after, calls[..n]) && Users(tail)
    ensures before <= after + tail && Answered((after + tail)[|before|..], calls, n)
  {
    var suffix := (after + tail)[|before|..];
    assert after[..|before| + 1] == before + [m];
    assert suffix[0] == m;
    assert suffix[1 + n..] == tail;
    forall k | 0 <= k < n ensures ResultFor(suffix[1..1 + n][k], calls[k]) {
      assert suffix[1..1 + n][k] == after[|before + [m]| + k];
      assert calls[..n][k] == calls[k];
    }
  }
}
