/** Provider-neutral messages (src/leanharness/models/contracts.py). */
module Messages {
  import opened Text

  datatype Role = System | User | Assistant | Tool

  /** `arguments` is the compact JSON text of the argument object. */
  datatype ToolCall = ToolCall(id: string, name: string, arguments: string)

  datatype Message = Message(
    role: Role,
    content: string,
    toolCalls: seq<ToolCall>,
    toolCallId: Option<string>)

  function Plain(role: Role, content: string): Message {
    Message(role, content, [], None)
  }

  function ToolMessage(content: string, id: string): Message {
    Message(Tool, content, [], Some(id))
  }

  /** The ids an assistant message asks for; other roles ask for nothing. */
  function CallIds(m: Message): (ids: seq<string>)
    ensures |ids| == if m.role.Assistant? then |m.toolCalls| else 0
  {
    if m.role.Assistant? then seq(|m.toolCalls|, k requires 0 <= k < |m.toolCalls| => m.toolCalls[k].id) else []
  }

  /** The id a tool message answers; an absent id reads as the empty one. */
  function ResultIds(m: Message): seq<string> {
    if m.role.Tool? then [if m.toolCallId.Some? then m.toolCallId.value else ""] else []
  }

  function AllCallIds(ms: seq<Message>): seq<string> {
    if ms == [] then [] else AllCallIds(ms[..|ms| - 1]) + CallIds(ms[|ms| - 1])
  }

  function AllResultIds(ms: seq<Message>): seq<string> {
    if ms == [] then [] else AllResultIds(ms[..|ms| - 1]) + ResultIds(ms[|ms| - 1])
  }

  lemma {:induction false} IdsSnoc(ms: seq<Message>, m: Message)
    ensures AllCallIds([]) == [] && AllCallIds(ms + [m]) == AllCallIds(ms) + CallIds(m)
    ensures AllResultIds([]) == [] && AllResultIds(ms + [m]) == AllResultIds(ms) + ResultIds(m)
  {
    assert (ms + [m])[..|ms|] == ms;
  }

  lemma {:induction false} AllIdsConcat(a: seq<Message>, b: seq<Message>)
    ensures AllCallIds(a + b) == AllCallIds(a) + AllCallIds(b)
    ensures AllResultIds(a + b) == AllResultIds(a) + AllResultIds(b)
  {
    hide AllCallIds, AllResultIds, CallIds, ResultIds;
    if b == [] {
      IdsSnoc([], Plain(System, ""));
      assert a + b == a;
    } else {
      var c, m := b[..|b| - 1], b[|b| - 1];
      AllIdsConcat(a, c);
      assert b == c + [m] && a + b == (a + c) + [m];
      IdsSnoc(c, m);
      IdsSnoc(a + c, m);
    }
  }

  /** What the tool-call protocol can see of a message. */
  function Shape(m: Message): (Role, seq<string>, Option<string>) {
    (m.role, CallIds(m), m.toolCallId)
  }

  ghost predicate SameShape(a: seq<Message>, b: seq<Message>) {
    |a| == |b| && forall k | 0 <= k < |a| :: Shape(a[k]) == Shape(b[k])
  }

  lemma {:induction false} SameShapeSameIds(a: seq<Message>, b: seq<Message>)
    requires SameShape(a, b)
    ensures AllCallIds(a) == AllCallIds(b)
    ensures AllResultIds(a) == AllResultIds(b)
  {
    if a != [] {
      var n := |a| - 1;
      SameShapeSameIds(a[..n], b[..n]);
      assert Shape(a[n]) == Shape(b[n]);
      assert CallIds(a[n]) == CallIds(b[n]);
    }
  }

  predicate Distinct<T(==)>(s: seq<T>) {
    forall i, j | 0 <= i < j < |s| :: s[i] != s[j]
  }

  lemma DistinctConcat<T>(a: seq<T>, b: seq<T>)
    ensures Distinct(a + b) <==> Distinct(a) && Distinct(b) && forall x | x in a :: x !in b
  {
    var c := a + b;
    if Distinct(c) {
      forall i, j | 0 <= i < j < |a| ensures a[i] != a[j] {
        assert c[i] == a[i] && c[j] == a[j];
      }
      forall i, j | 0 <= i < j < |b| ensures b[i] != b[j] {
        assert c[|a| + i] == b[i] && c[|a| + j] == b[j];
      }
      forall i, j | 0 <= i < |a| && 0 <= j < |b| ensures a[i] != b[j] {
        assert c[i] == a[i] && c[|a| + j] == b[j];
      }
    } else {
      var i, j :| 0 <= i < j < |c| && c[i] == c[j];
      if j < |a| {
        assert a[i] == a[j];
      } else if i >= |a| {
        assert b[i - |a|] == b[j - |a|];
      } else {
        assert a[i] in b;
      }
    }
  }
}
