/** When results directly follow their assistant message, a semantic
    compaction never cuts a call from its result. */
module Alignment {
  import opened Messages
  import opened ToolProtocol
  import opened Projection

  predicate Answers(result: Message, call: Message) {
    result.role.Tool? && result.toolCallId.Some? && result.toolCallId.value in CallIds(call)
  }

  /** Message `r` belongs to the run of results right after the assistant message `i`. */
  ghost predicate Owner(ms: seq<Message>, i: int, r: int) {
    0 <= i < r < |ms| && ms[i].role.Assistant? && forall k | i < k <= r :: Answers(ms[k], ms[i])
  }

  ghost predicate Adjacent(ms: seq<Message>) {
    forall r | 0 <= r < |ms| && ms[r].role.Tool? :: exists i :: Owner(ms, i, r)
  }

  ghost predicate Border(ms: seq<Message>, k: nat) {
    k <= |ms| && (k < |ms| ==> !ms[k].role.Tool?)
  }

  // ---- where an id is called and answered ----

  lemma {:induction false} CalledAt(ms: seq<Message>, id: string)
    ensures id in AllCallIds(ms) <==> exists i :: 0 <= i < |ms| && id in CallIds(ms[i])
  {
    if ms != [] {
      var n := |ms| - 1;
      CalledAt(ms[..n], id);
      if id in AllCallIds(ms[..n]) {
        var i :| 0 <= i < n && id in CallIds(ms[..n][i]);
        assert ms[..n][i] == ms[i];
      } else {
        forall i | 0 <= i < n ensures id !in CallIds(ms[i]) {
          assert ms[..n][i] == ms[i];
        }
      }
    }
  }

  lemma {:induction false} AnsweredAt(ms: seq<Message>, id: string)
    ensures id in AllResultIds(ms) <==> exists r :: 0 <= r < |ms| && id in ResultIds(ms[r])
  {
    if ms != [] {
      var n := |ms| - 1;
      AnsweredAt(ms[..n], id);
      if id in AllResultIds(ms[..n]) {
        var r :| 0 <= r < n && id in ResultIds(ms[..n][r]);
        assert ms[..n][r] == ms[r];
      } else {
        forall r | 0 <= r < n ensures id !in ResultIds(ms[r]) {
          assert ms[..n][r] == ms[r];
        }
      }
    }
  }

  lemma {:induction false} CalledOnce(ms: seq<Message>, i: nat, j: nat, id: string)
    requires Distinct(AllCallIds(ms)) && i < j < |ms|
    ensures !(id in CallIds(ms[i]) && id in CallIds(ms[j]))
    decreases |ms|
  {
    var n := |ms| - 1;
    var older := ms[..n];
    assert AllCallIds(ms) == AllCallIds(older) + CallIds(ms[n]);
    DistinctConcat(AllCallIds(older), CallIds(ms[n]));
    if j == n {
      CalledAt(older, id);
      assert older[i] == ms[i];
    } else {
      assert older[i] == ms[i] && older[j] == ms[j];
      CalledOnce(older, i, j, id);
    }
  }

  lemma {:induction false} AnsweredOnce(ms: seq<Message>, i: nat, j: nat, id: string)
    requires Distinct(AllResultIds(ms)) && i < j < |ms|
    ensures !(id in ResultIds(ms[i]) && id in ResultIds(ms[j]))
    decreases |ms|
  {
    var n := |ms| - 1;
    var older := ms[..n];
    assert AllResultIds(ms) == AllResultIds(older) + ResultIds(ms[n]);
    DistinctConcat(AllResultIds(older), ResultIds(ms[n]));
    if j == n {
      AnsweredAt(older, id);
      assert older[i] == ms[i];
    } else {
      assert older[i] == ms[i] && older[j] == ms[j];
      AnsweredOnce(older, i, j, id);
    }
  }

  lemma {:induction false} SameCaller(ms: seq<Message>, i: nat, j: nat, id: string)
    requires Distinct(AllCallIds(ms)) && i < |ms| && j < |ms|
    ensures id in CallIds(ms[i]) && id in CallIds(ms[j]) ==> i == j
  {
    if i < j {
      CalledOnce(ms, i, j, id);
    } else if j < i {
      CalledOnce(ms, j, i, id);
    }
  }

  lemma {:induction false} SameAnswer(ms: seq<Message>, i: nat, j: nat, id: string)
    requires Distinct(AllResultIds(ms)) && i < |ms| && j < |ms|
    ensures id in ResultIds(ms[i]) && id in ResultIds(ms[j]) ==> i == j
  {
    if i < j {
      AnsweredOnce(ms, i, j, id);
    } else if j < i {
      AnsweredOnce(ms, j, i, id);
    }
  }

  lemma OwnerRun(ms: seq<Message>, o: nat, r: nat)
    requires Owner(ms, o, r)
    ensures forall k | o < k <= r :: ms[k].role.Tool?
    ensures ResultIds(ms[r]) == [ms[r].toolCallId.value] && ms[r].toolCallId.value in CallIds(ms[o])
  {
    forall k | o < k <= r ensures ms[k].role.Tool? {
      assert Answers(ms[k], ms[o]);
    }
    assert Answers(ms[r], ms[o]);
  }

  /** The result of a call stands right behind it. */
  lemma ResultFollows(ms: seq<Message>, i: nat, id: string) returns (r: nat)
    requires Legal(ms) && Adjacent(ms) && i < |ms| && id in CallIds(ms[i])
    ensures Owner(ms, i, r) && id in ResultIds(ms[r])
  {
    CalledAt(ms, id);
    AnsweredAt(ms, id);
    r :| 0 <= r < |ms| && id in ResultIds(ms[r]);
    var o :| Owner(ms, o, r);
    OwnerRun(ms, o, r);
    SameCaller(ms, i, o, id);
  }

  lemma CalledInside(ms: seq<Message>, a: nat, b: nat, id: string) returns (i: nat)
    requires a <= b <= |ms| && id in AllCallIds(ms[a..b])
    ensures a <= i < b && id in CallIds(ms[i])
  {
    CalledAt(ms[a..b], id);
    var k :| 0 <= k < b - a && id in CallIds(ms[a..b][k]);
    assert ms[a..b][k] == ms[a + k];
    i := a + k;
  }

  lemma AnsweredInside(ms: seq<Message>, a: nat, b: nat, id: string) returns (r: nat)
    requires a <= b <= |ms| && id in AllResultIds(ms[a..b])
    ensures a <= r < b && id in ResultIds(ms[r])
  {
    AnsweredAt(ms[a..b], id);
    var k :| 0 <= k < b - a && id in ResultIds(ms[a..b][k]);
    assert ms[a..b][k] == ms[a + k];
    r := a + k;
  }

  lemma CalledWithin(ms: seq<Message>, a: nat, b: nat, i: nat, id: string)
    requires a <= i < b <= |ms| && id in CallIds(ms[i])
    ensures id in AllCallIds(ms[a..b])
  {
    CalledAt(ms[a..b], id);
    assert ms[a..b][i - a] == ms[i];
  }

  lemma AnsweredWithin(ms: seq<Message>, a: nat, b: nat, r: nat, id: string)
    requires a <= r < b <= |ms| && id in ResultIds(ms[r])
    ensures id in AllResultIds(ms[a..b])
  {
    AnsweredAt(ms[a..b], id);
    assert ms[a..b][r - a] == ms[r];
  }

  lemma CalledThenAnswered(ms: seq<Message>, a: nat, b: nat, id: string)
    requires Legal(ms) && Adjacent(ms) && a <= b && Border(ms, a) && Border(ms, b)
    requires id in AllCallIds(ms[a..b])
    ensures id in AllResultIds(ms[a..b])
  {
    var i := CalledInside(ms, a, b, id);
    var r := ResultFollows(ms, i, id);
    OwnerRun(ms, i, r);
    AnsweredWithin(ms, a, b, r, id);
  }

  lemma AnsweredThenCalled(ms: seq<Message>, a: nat, b: nat, id: string)
    requires Adjacent(ms) && a <= b && Border(ms, a) && Border(ms, b)
    requires id in AllResultIds(ms[a..b])
    ensures id in AllCallIds(ms[a..b])
  {
    var r := AnsweredInside(ms, a, b, id);
    var o :| Owner(ms, o, r);
    OwnerRun(ms, o, r);
    CalledWithin(ms, a, b, o, id);
  }

  /** Slices between borders are balanced. */
  lemma AlignedSliceBalanced(ms: seq<Message>, a: nat, b: nat)
    requires Legal(ms) && Adjacent(ms) && a <= b && Border(ms, a) && Border(ms, b)
    ensures Balanced(ms[a..b])
  {
    forall id ensures id in AllCallIds(ms[a..b]) <==> id in AllResultIds(ms[a..b]) {
      if id in AllCallIds(ms[a..b]) {
        CalledThenAnswered(ms, a, b, id);
      }
      if id in AllResultIds(ms[a..b]) {
        AnsweredThenCalled(ms, a, b, id);
      }
    }
  }

  // ---- group borders ----

  lemma GroupEndMeaning(cand: seq<ContextSource>, i: nat)
    requires i < |cand|
    ensures var e := GroupEnd(cand, i);
            (forall k | i < k < e :: cand[k].message.role.Tool?)
            && (e < |cand| ==> !Answers(cand[e].message, cand[i].message))
  {
  }

  lemma NotAnsweredIsBorder(ms: seq<Message>, g: nat, e: nat)
    requires Adjacent(ms) && g < e < |ms| && !ms[g].role.Tool?
    requires forall k | g < k < e :: ms[k].role.Tool?
    requires !Answers(ms[e], ms[g])
    ensures Border(ms, e)
  {
    if ms[e].role.Tool? {
      var o :| Owner(ms, o, e);
      OwnerRun(ms, o, e);
    }
  }

  lemma GroupEndBorder(sources: seq<ContextSource>, a: nat, stop: nat, i: nat)
    requires a <= stop <= |sources| && i < stop - a
    requires Adjacent(MessagesOf(sources))
    requires Border(MessagesOf(sources), a + i) && Border(MessagesOf(sources), stop)
    ensures Border(MessagesOf(sources), a + GroupEnd(sources[a..stop], i))
  {
    hide ResultsEnd, GroupEnd, Adjacent, Answers;
    var ms, cand := MessagesOf(sources), sources[a..stop];
    var e := GroupEnd(cand, i);
    GroupEndMeaning(cand, i);
    if a + e < stop {
      forall k | a + i <= k <= a + e ensures ms[k] == cand[k - a].message {}
      NotAnsweredIsBorder(ms, a + i, a + e);
    }
  }

  lemma {:induction false} TakeGroupsBorder(codec: Codec, sources: seq<ContextSource>, a: nat, stop: nat, i: nat)
    requires a <= stop <= |sources| && i <= stop - a
    requires Adjacent(MessagesOf(sources))
    requires Border(MessagesOf(sources), a + i) && Border(MessagesOf(sources), stop)
    ensures TakeGroups(codec, sources[a..stop], i).Ok? ==>
              Border(MessagesOf(sources), a + TakeGroups(codec, sources[a..stop], i).value)
    decreases stop - a - i
  {
    hide ResultsEnd, GroupEnd, RecordsSize;
    if i < stop - a {
      GroupEndBorder(sources, a, stop, i);
      TakeGroupsBorder(codec, sources, a, stop, GroupEnd(sources[a..stop], i));
    }
  }

  ghost predicate TwoSteps(ms: seq<Message>) {
    exists i, j :: 1 <= i < j < |ms| && Substantive(ms[i]) && Substantive(ms[j])
  }

  lemma {:induction false} SecondStepFound(ms: seq<Message>, top: nat, steps: nat, i: nat)
    requires top < |ms| && steps < 2 && 1 <= i <= top && Substantive(ms[i])
    requires steps == 1 || exists j :: i < j <= top && Substantive(ms[j])
    ensures 1 <= SecondStep(ms, top, steps) && Substantive(ms[SecondStep(ms, top, steps)])
    decreases top
  {
    if steps == 0 {
      var j :| i < j <= top && Substantive(ms[j]);
      if Substantive(ms[top]) {
        SecondStepFound(ms, top - 1, 1, i);
      } else {
        assert j <= top - 1;
        SecondStepFound(ms, top - 1, 0, i);
      }
    } else if !Substantive(ms[top]) {
      SecondStepFound(ms, top - 1, 1, i);
    }
  }

  lemma ProtectedIsStep(ms: seq<Message>)
    requires TwoSteps(ms)
    ensures ProtectedStart(ms) < |ms| && ms[ProtectedStart(ms)].role.Assistant?
  {
    var i, j :| 1 <= i < j < |ms| && Substantive(ms[i]) && Substantive(ms[j]);
    SecondStepFound(ms, |ms| - 1, 0, i);
  }

  /** How the sources start: a message that asks for nothing, and a history marker that is a system message. */
  ghost predicate FramedStart(sources: seq<ContextSource>) {
    && (|sources| > 0 ==> !sources[0].message.role.Assistant?)
    && (|sources| > 1 && sources[1].sourceId == HISTORY_START_ID ==> sources[1].message.role.System?)
  }

  lemma AfterPlainIsBorder(ms: seq<Message>, k: nat)
    requires Adjacent(ms) && k < |ms| && !ms[k].role.Assistant? && !ms[k].role.Tool?
    ensures Border(ms, k + 1)
  {
    if k + 1 < |ms| && ms[k + 1].role.Tool? {
      var o :| Owner(ms, o, k + 1);
      OwnerRun(ms, o, k + 1);
    }
  }

  lemma FirstIsNoTool(ms: seq<Message>)
    requires Adjacent(ms) && |ms| > 0
    ensures !ms[0].role.Tool?
  {
    assert forall o :: !Owner(ms, o, 0);
  }

  lemma RangeBorders(sources: seq<ContextSource>)
    requires Adjacent(MessagesOf(sources)) && TwoSteps(MessagesOf(sources)) && FramedStart(sources)
    requires CandidateRange(sources).Ok?
    ensures var (a, stop) := CandidateRange(sources).value;
            a == stop || (Border(MessagesOf(sources), a) && Border(MessagesOf(sources), stop))
  {
    var ms := MessagesOf(sources);
    var t := TaskIndex(sources, 0).value;
    assert ms[t] == sources[t].message;
    ProtectedIsStep(ms);
    AfterPlainIsBorder(ms, t);
    FirstIsNoTool(ms);
    assert ms[0] == sources[0].message;
    AfterPlainIsBorder(ms, 0);
    if HistoryStart(sources) == 2 {
      assert ms[1] == sources[1].message;
      AfterPlainIsBorder(ms, 1);
    }
  }

  /** The slice chosen for a summary is balanced. */
  lemma CandidateBalanced(codec: Codec, sources: seq<ContextSource>)
    requires Legal(MessagesOf(sources)) && Adjacent(MessagesOf(sources))
    requires TwoSteps(MessagesOf(sources)) && FramedStart(sources)
    requires Candidate(codec, sources).Ok?
    ensures var (a, b) := Candidate(codec, sources).value; Balanced(MessagesOf(sources)[a..b])
  {
    hide ResultsEnd, GroupEnd, RecordsSize, AllCallIds, AllResultIds, TakeGroups, WellFormed, CandidateRange, TaskIndex;
    var (a, stop) := CandidateRange(sources).value;
    var (a', b) := Candidate(codec, sources).value;
    RangeBorders(sources);
    TakeGroupsBorder(codec, sources, a, stop, 0);
    AlignedSliceBalanced(MessagesOf(sources), a, b);
  }
}
