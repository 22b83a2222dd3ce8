/** The tool-call protocol check of src/leanharness/context/projection.py. */
module ToolProtocol {
  import opened Messages

  /** Call ids are distinct and not empty, every result answers an earlier call,
      and no call is answered twice. */
  ghost predicate WellFormed(ms: seq<Message>) {
    && "" !in AllCallIds(ms)
    && Distinct(AllCallIds(ms))
    && Distinct(AllResultIds(ms))
    && ResultsAfterCalls(ms)
  }

  /** A legal sequence also leaves no call unanswered: calls and later results
      match one to one. */
  ghost predicate Legal(ms: seq<Message>) {
    WellFormed(ms) && forall id | id in AllCallIds(ms) :: id in AllResultIds(ms)
  }

  lemma {:induction false} WellFormedPrefix(ms: seq<Message>, m: Message)
    ensures WellFormed(ms + [m]) <==>
      && WellFormed(ms)
      && "" !in CallIds(m) && Distinct(CallIds(m))
      && (forall id | id in CallIds(m) :: id !in AllCallIds(ms))
      && (m.role.Tool? ==>
            m.toolCallId.Some? && m.toolCallId.value in AllCallIds(ms) && m.toolCallId.value !in AllResultIds(ms))
  {
    hide AllCallIds, AllResultIds, CallIds;
    IdsSnoc(ms, m);
    DistinctConcat(AllCallIds(ms), CallIds(m));
    DistinctConcat(AllResultIds(ms), ResultIds(m));
    ResultsCalledSnoc(ms, m);
  }

  /** The last clause of `WellFormed`. */
  ghost predicate ResultsAfterCalls(ms: seq<Message>) {
    forall r {:trigger ms[r]} | 0 <= r < |ms| && ms[r].role.Tool? ::
      ms[r].toolCallId.Some? && ms[r].toolCallId.value in AllCallIds(ms[..r])
  }

  lemma {:induction false} ResultsCalledSnoc(ms: seq<Message>, m: Message)
    ensures ResultsAfterCalls(ms + [m]) <==>
              ResultsAfterCalls(ms)
              && (m.role.Tool? ==> m.toolCallId.Some? && m.toolCallId.value in AllCallIds(ms))
  {
    hide AllCallIds;
    var all := ms + [m];
    assert all[..|ms|] == ms && all[|ms|] == m;
    forall r | 0 <= r < |ms| ensures all[r] == ms[r] && all[..r] == ms[..r] {}
    if ResultsAfterCalls(all) {
      forall r | 0 <= r < |ms| && ms[r].role.Tool?
        ensures ms[r].toolCallId.Some? && ms[r].toolCallId.value in AllCallIds(ms[..r])
      {
        assert all[r].role.Tool?;
      }
    }
  }

  /** Every result of a well-formed sequence answers one of its calls. */
  lemma {:induction false} ResultsAreCalled(ms: seq<Message>)
    requires WellFormed(ms)
    ensures forall id | id in AllResultIds(ms) :: id in AllCallIds(ms)
  {
    hide AllCallIds, AllResultIds;
    if ms == [] {
      IdsSnoc([], Plain(System, ""));
    } else {
      var older, m := ms[..|ms| - 1], ms[|ms| - 1];
      assert ms == older + [m];
      WellFormedPrefix(older, m);
      ResultsAreCalled(older);
      IdsSnoc(older, m);
    }
  }

  /** The open and the answered calls of a well-formed prefix. */
  ghost predicate Tracks(ms: seq<Message>, pending: set<string>, completed: set<string>) {
    && WellFormed(ms)
    && (forall id :: id in completed <==> id in AllResultIds(ms))
    && (forall id :: id in pending <==> id in AllCallIds(ms) && id !in completed)
  }

  lemma TracksResult(ms: seq<Message>, m: Message, pending: set<string>, completed: set<string>)
    requires Tracks(ms, pending, completed) && m.role.Tool?
    ensures WellFormed(ms + [m]) <==> m.toolCallId.Some? && m.toolCallId.value in pending
    ensures WellFormed(ms + [m]) ==>
              Tracks(ms + [m], pending - {m.toolCallId.value}, completed + {m.toolCallId.value})
  {
    hide AllCallIds, AllResultIds;
    WellFormedPrefix(ms, m);
    IdsSnoc(ms, m);
    ResultsAreCalled(ms);
  }

  lemma {:induction false} TracksCalls(ms: seq<Message>, m: Message, pending: set<string>, completed: set<string>,
      pending': set<string>)
    requires Tracks(ms, pending, completed) && m.role.Assistant?
    requires "" !in CallIds(m) && Distinct(CallIds(m))
    requires forall id | id in CallIds(m) :: id !in AllCallIds(ms)
    requires forall id :: id in pending' <==> id in pending || id in CallIds(m)
    ensures Tracks(ms + [m], pending', completed)
  {
    hide AllCallIds, AllResultIds, CallIds;
    WellFormedPrefix(ms, m);
    ResultsAreCalled(ms);
    IdsSnoc(ms, m);
  }

  /** One assistant message: its call ids must be fresh, distinct and not empty. */
  method OpenCalls(ghost ms: seq<Message>, message: Message, pending: map<string, string>, completed: set<string>)
    returns (ok: bool, pending': map<string, string>)
    requires message.role.Assistant? && Tracks(ms, pending.Keys, completed)
    ensures ok <==> WellFormed(ms + [message])
    ensures ok ==> Tracks(ms + [message], pending'.Keys, completed)
  {
    hide AllCallIds, AllResultIds;
    ghost var ids := CallIds(message);
    pending' := pending;
    ResultsAreCalled(ms);
    WellFormedPrefix(ms, message);
    for k := 0 to |message.toolCalls|
      invariant "" !in ids[..k] && Distinct(ids[..k])
      invariant forall id | id in ids[..k] :: id !in AllCallIds(ms)
      invariant forall id :: id in pending' <==> id in pending || id in ids[..k]
    {
      var call := message.toolCalls[k];
      assert ids[k] == call.id && ids[..k + 1] == ids[..k] + [ids[k]];
      if call.id == "" || call.id in pending' || call.id in completed {
        if call.id in ids[..k] {
          var j :| 0 <= j < k && ids[..k][j] == ids[k];
          assert ids[j] == ids[k];
        }
        return false, pending';
      }
      DistinctConcat(ids[..k], [ids[k]]);
      pending' := pending'[call.id := call.name];
    }
    assert ids[..|message.toolCalls|] == ids;
    TracksCalls(ms, message, pending.Keys, completed, pending'.Keys);
    ok := true;
  }

  /** The scan keeps the open calls and the answered ones, and stops at the first offence. */
  method ValidateToolProtocol(messages: seq<Message>) returns (ok: bool)
    ensures ok <==> Legal(messages)
  {
    var pending: map<string, string> := map[];
    var completed: set<string> := {};
    for n := 0 to |messages|
      invariant Tracks(messages[..n], pending.Keys, completed)
    {
      var message := messages[n];
      assert messages[..n + 1] == messages[..n] + [message];
      var fine := true;
      if message.role.Assistant? {
        fine, pending := OpenCalls(messages[..n], message, pending, completed);
      } else if message.role.Tool? {
        TracksResult(messages[..n], message, pending.Keys, completed);
        fine := !(message.toolCallId.None? || message.toolCallId.value == ""
                  || message.toolCallId.value !in pending || message.toolCallId.value in completed);
        if fine {
          completed := completed + {message.toolCallId.value};
          pending := pending - {message.toolCallId.value};
        }
      } else {
        WellFormedPrefix(messages[..n], message);
      }
      if !fine {
        NotWellFormedAfter(messages, n);
        return false;
      }
    }
    assert messages[..|messages|] == messages;
    ok := pending == map[];
    if !ok {
      var id :| id in pending;
      assert id in AllCallIds(messages) && id !in AllResultIds(messages);
    }
  }

  lemma {:induction false} NotWellFormedAfter(ms: seq<Message>, n: nat)
    requires n < |ms| && !WellFormed(ms[..n + 1])
    ensures !WellFormed(ms)
    decreases |ms|
  {
    hide AllCallIds, AllResultIds;
    if n + 1 == |ms| {
      assert ms[..n + 1] == ms;
    } else {
      var k := |ms| - 1;
      assert ms == ms[..k] + [ms[k]];
      assert ms[..k][..n + 1] == ms[..n + 1];
      NotWellFormedAfter(ms[..k], n);
      WellFormedPrefix(ms[..k], ms[k]);
    }
  }

  /** The protocol depends on roles, calls and ids only, never on contents. */
  lemma {:induction false} LegalDependsOnShape(a: seq<Message>, b: seq<Message>)
    requires SameShape(a, b) && Legal(a)
    ensures Legal(b)
  {
    SameShapeSameIds(a, b);
    forall r | 0 <= r < |b| && b[r].role.Tool?
      ensures b[r].toolCallId.Some? && b[r].toolCallId.value in AllCallIds(b[..r])
    {
      assert Shape(a[r]) == Shape(b[r]);
      SameShapeSameIds(a[..r], b[..r]);
    }
  }

  /** No call is separated from its result by the borders of a slice. */
  ghost predicate Balanced(slice: seq<Message>) {
    forall id :: id in AllCallIds(slice) <==> id in AllResultIds(slice)
  }

  function Splice<T>(s: seq<T>, a: nat, x: T, b: nat): seq<T>
    requires a <= b <= |s|
  {
    s[..a] + [x] + s[b..]
  }

  lemma {:induction false} IdsOfThree(a: seq<Message>, b: seq<Message>, c: seq<Message>)
    ensures AllCallIds(a + b + c) == AllCallIds(a) + AllCallIds(b) + AllCallIds(c)
    ensures AllResultIds(a + b + c) == AllResultIds(a) + AllResultIds(b) + AllResultIds(c)
  {
    hide AllCallIds, AllResultIds;
    AllIdsConcat(a + b, c);
    AllIdsConcat(a, b);
  }

  lemma {:induction false} ThreeParts(ms: seq<Message>, a: nat, b: nat)
    requires a <= b <= |ms|
    ensures AllCallIds(ms) == AllCallIds(ms[..a]) + AllCallIds(ms[a..b]) + AllCallIds(ms[b..])
    ensures AllResultIds(ms) == AllResultIds(ms[..a]) + AllResultIds(ms[a..b]) + AllResultIds(ms[b..])
  {
    hide AllCallIds, AllResultIds;
    CutThree(ms, a, b);
    IdsOfThree(ms[..a], ms[a..b], ms[b..]);
  }

  lemma CutThree<T>(s: seq<T>, a: nat, b: nat)
    requires a <= b <= |s|
    ensures s == s[..a] + s[a..b] + s[b..]
  {
  }

  lemma SpliceIds(ms: seq<Message>, a: nat, x: Message, b: nat)
    requires a <= b <= |ms| && !x.role.Tool? && !x.role.Assistant?
    ensures AllCallIds(Splice(ms, a, x, b)) == AllCallIds(ms[..a]) + AllCallIds(ms[b..])
    ensures AllResultIds(Splice(ms, a, x, b)) == AllResultIds(ms[..a]) + AllResultIds(ms[b..])
  {
    hide AllCallIds, AllResultIds;
    IdsOfThree(ms[..a], [x], ms[b..]);
    SingleIds(x);
  }

  lemma SingleIds(x: Message)
    ensures AllCallIds([x]) == CallIds(x) && AllResultIds([x]) == ResultIds(x)
  {
    assert [x][..0] == [];
  }

  /** Replacing a slice of a legal sequence by a plain message is legal exactly
      when the slice is balanced. */
  lemma SpliceLegalIff(ms: seq<Message>, a: nat, x: Message, b: nat)
    requires Legal(ms) && a <= b <= |ms|
    requires !x.role.Tool? && !x.role.Assistant?
    ensures Legal(Splice(ms, a, x, b)) <==> Balanced(ms[a..b])
  {
    if Balanced(ms[a..b]) {
      BalancedSpliceLegal(ms, a, x, b);
    }
    if Legal(Splice(ms, a, x, b)) {
      LegalSpliceBalanced(ms, a, x, b);
    }
  }

  lemma DistinctThree<T>(a: seq<T>, b: seq<T>, c: seq<T>)
    requires Distinct(a + b + c)
    ensures Distinct(a + c)
    ensures forall x | x in b :: x !in a && x !in c
    ensures forall x | x in a :: x !in c
  {
    DistinctConcat(a + b, c);
    DistinctConcat(a, b);
    DistinctConcat(a, c);
    forall x | x in b ensures x !in c {
      assert x in a + b;
    }
    forall x | x in a ensures x !in c {
      assert x in a + b;
    }
  }

  /** The counting core of `SpliceLegalIff`: ids called (c) and answered (r)
      before, inside and after the slice. */
  lemma OutsideAnswered(cA: seq<string>, cS: seq<string>, cB: seq<string>, rA: seq<string>, rS: seq<string>,
      rB: seq<string>)
    requires Distinct(cA + cS + cB)
    requires forall id | id in cA + cS + cB :: id in rA + rS + rB
    requires forall id :: id in cS <==> id in rS
    ensures forall id | id in cA + cB :: id in rA + rB
  {
    DistinctThree(cA, cS, cB);
    forall id | id in cA + cB ensures id in rA + rB {
      assert id in cA + cS + cB;
      assert id !in cS;
    }
  }

  lemma InsideAnswered(cA: seq<string>, cS: seq<string>, cB: seq<string>, rA: seq<string>, rS: seq<string>,
      rB: seq<string>)
    requires Distinct(cA + cS + cB) && Distinct(rA + rS + rB)
    requires forall id :: id in cA + cS + cB <==> id in rA + rS + rB
    requires forall id :: id in cA + cB <==> id in rA + rB
    ensures forall id :: id in cS <==> id in rS
  {
    DistinctThree(cA, cS, cB);
    DistinctThree(rA, rS, rB);
    forall id ensures id in cS <==> id in rS {
      assert id in cA + cB <==> id in rA + rB;
      assert id in cA + cS + cB <==> id in cA + cB || id in cS;
      assert id in rA + rS + rB <==> id in rA + rB || id in rS;
      assert id in cS ==> id !in cA + cB;
      assert id in rS ==> id !in rA + rB;
    }
  }

  lemma BalancedSpliceLegal(ms: seq<Message>, a: nat, x: Message, b: nat)
    requires Legal(ms) && a <= b <= |ms|
    requires !x.role.Tool? && !x.role.Assistant?
    requires Balanced(ms[a..b])
    ensures Legal(Splice(ms, a, x, b))
  {
    hide AllCallIds, AllResultIds;
    var out := Splice(ms, a, x, b);
    forall r | 0 <= r < |out| && out[r].role.Tool?
      ensures out[r].toolCallId.Some? && out[r].toolCallId.value in AllCallIds(out[..r])
    {
      SpliceResultCalled(ms, a, x, b, r);
    }
    SpliceIdsDistinct(ms, a, x, b);
  }

  lemma SpliceIdsDistinct(ms: seq<Message>, a: nat, x: Message, b: nat)
    requires Legal(ms) && a <= b <= |ms|
    requires !x.role.Tool? && !x.role.Assistant?
    requires Balanced(ms[a..b])
    ensures "" !in AllCallIds(Splice(ms, a, x, b))
    ensures Distinct(AllCallIds(Splice(ms, a, x, b))) && Distinct(AllResultIds(Splice(ms, a, x, b)))
    ensures forall id | id in AllCallIds(Splice(ms, a, x, b)) :: id in AllResultIds(Splice(ms, a, x, b))
  {
    hide AllCallIds, AllResultIds;
    ThreeParts(ms, a, b);
    SpliceIds(ms, a, x, b);
    var cA, cS, cB := AllCallIds(ms[..a]), AllCallIds(ms[a..b]), AllCallIds(ms[b..]);
    var rA, rS, rB := AllResultIds(ms[..a]), AllResultIds(ms[a..b]), AllResultIds(ms[b..]);
    assert "" !in cA + cS + cB ==> "" !in cA + cB;
    DistinctThree(cA, cS, cB);
    DistinctThree(rA, rS, rB);
    OutsideAnswered(cA, cS, cB, rA, rS, rB);
  }

  lemma SpliceResultCalled(ms: seq<Message>, a: nat, x: Message, b: nat, r: nat)
    requires Legal(ms) && a <= b <= |ms|
    requires !x.role.Tool? && !x.role.Assistant?
    requires Balanced(ms[a..b])
    requires r < |Splice(ms, a, x, b)| && Splice(ms, a, x, b)[r].role.Tool?
    ensures Splice(ms, a, x, b)[r].toolCallId.Some?
    ensures Splice(ms, a, x, b)[r].toolCallId.value in AllCallIds(Splice(ms, a, x, b)[..r])
  {
    hide AllCallIds, AllResultIds;
    var out := Splice(ms, a, x, b);
    if r < a {
      assert out[r] == ms[r] && out[..r] == ms[..r];
    } else {
      assert r != a;
      var s := b + (r - a - 1);
      SplicePrefix(ms, a, x, b, s);
      LateResultCalled(ms, a, b, s);
      SpliceIds(ms[..s], a, x, b);
    }
  }

  lemma SplicePrefix<T>(s: seq<T>, a: nat, x: T, b: nat, end: nat)
    requires a <= b <= end < |s|
    ensures Splice(s, a, x, b)[..a + 1 + end - b] == Splice(s[..end], a, x, b)
    ensures Splice(s, a, x, b)[a + 1 + end - b] == s[end]
  {
  }

  lemma LateResultCalled(ms: seq<Message>, a: nat, b: nat, s: nat)
    requires Legal(ms) && a <= b <= s < |ms|
    requires Balanced(ms[a..b]) && ms[s].role.Tool?
    ensures ms[s].toolCallId.Some?
    ensures ms[s].toolCallId.value in AllCallIds(ms[..s][..a]) + AllCallIds(ms[..s][b..])
  {
    hide AllCallIds, AllResultIds;
    var id := ms[s].toolCallId.value;
    ThreeParts(ms[..s], a, b);
    assert ms[..s][a..b] == ms[a..b];
    assert id !in AllCallIds(ms[a..b]) by {
      ResultInSuffix(ms, b, s);
      ThreeParts(ms, a, b);
      DistinctThree(AllResultIds(ms[..a]), AllResultIds(ms[a..b]), AllResultIds(ms[b..]));
    }
  }

  lemma ResultInSuffix(ms: seq<Message>, b: nat, s: nat)
    requires b <= s < |ms| && ms[s].role.Tool? && ms[s].toolCallId.Some?
    ensures ms[s].toolCallId.value in AllResultIds(ms[b..])
  {
    hide AllCallIds, AllResultIds;
    var tail := ms[b..];
    var k := s - b;
    assert tail == tail[..k] + [tail[k]] + tail[k + 1..];
    IdsOfThree(tail[..k], [tail[k]], tail[k + 1..]);
    SingleIds(tail[k]);
  }

  lemma LegalSpliceBalanced(ms: seq<Message>, a: nat, x: Message, b: nat)
    requires Legal(ms) && a <= b <= |ms|
    requires !x.role.Tool? && !x.role.Assistant?
    requires Legal(Splice(ms, a, x, b))
    ensures Balanced(ms[a..b])
  {
    hide AllCallIds, AllResultIds;
    ResultsAreCalled(ms);
    ResultsAreCalled(Splice(ms, a, x, b));
    ThreeParts(ms, a, b);
    SpliceIds(ms, a, x, b);
    InsideAnswered(AllCallIds(ms[..a]), AllCallIds(ms[a..b]), AllCallIds(ms[b..]),
                   AllResultIds(ms[..a]), AllResultIds(ms[a..b]), AllResultIds(ms[b..]));
  }
}
