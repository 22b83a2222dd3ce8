/** Where the protected tail of a projection starts: the system contract aside, the
    last two assistant steps are never rewritten. */
module ProtectedTail {
  import opened Text
  import opened Messages
  import opened Projection

  /** An assistant message that calls tools or says something. */
  predicate IsStep(m: Message) {
    m.role.Assistant? && !(m.toolCalls == [] && forall k | 0 <= k < |m.content| :: IsSpace(m.content[k]))
  }

  /** The steps of a journal behind its first message, in order. */
  function StepsOf(ms: seq<Message>): (steps: seq<nat>)
    ensures forall k | 0 <= k < |steps| :: 1 <= steps[k] < |ms| && IsStep(ms[steps[k]])
  {
    if |ms| <= 1 then []
    else StepsOf(ms[..|ms| - 1]) + if IsStep(ms[|ms| - 1]) then [|ms| - 1] else []
  }

  lemma StepIs(m: Message)
    ensures Substantive(m) <==> IsStep(m)
  {
  }

  /** `StepsOf` lists exactly the steps, in their order. */
  lemma {:induction false} StepsAre(ms: seq<Message>)
    ensures forall i | 1 <= i < |ms| && IsStep(ms[i]) :: i in StepsOf(ms)
    ensures forall k, l | 0 <= k < l < |StepsOf(ms)| :: StepsOf(ms)[k] < StepsOf(ms)[l]
  {
    if |ms| > 1 {
      var n := |ms| - 1;
      StepsAre(ms[..n]);
      forall i | 1 <= i < |ms| && IsStep(ms[i]) ensures i in StepsOf(ms) {
        if i < n {
          assert ms[..n][i] == ms[i];
        }
      }
    }
  }

  /** The backward scan that has met `steps` steps stops at the one they leave. */
  lemma {:induction false} SecondStepIs(ms: seq<Message>, i: nat, steps: nat)
    requires i < |ms| && steps < 2
    ensures var found := StepsOf(ms[..i + 1]);
            SecondStep(ms, i, steps) == if |found| >= 2 - steps then found[|found| - (2 - steps)] else 0
    decreases i
  {
    hide IsStep;
    if i > 0 {
      var head := ms[..i + 1];
      assert head[..|head| - 1] == ms[..i] && head[i] == ms[i];
      StepIs(ms[i]);
      if IsStep(ms[i]) {
        if steps == 0 {
          SecondStepIs(ms, i - 1, 1);
        }
      } else {
        SecondStepIs(ms, i - 1, steps);
      }
    }
  }

  /** The tail starts at the last but one of two or more steps; otherwise ten messages,
      or all but the first, are protected. */
  lemma {:induction false} ProtectedStartIs(ms: seq<Message>)
    ensures var steps, p := StepsOf(ms), ProtectedStart(ms);
            if |ms| <= 1 then p == |ms|
            else if |steps| >= 2 then p == steps[|steps| - 2]
            else p == if |ms| - 10 > 1 then |ms| - 10 else 1
  {
    if |ms| > 1 {
      SecondStepIs(ms, |ms| - 1, 0);
      assert ms[..|ms|] == ms;
    }
  }

  lemma TwoPlaces(places: seq<nat>, i: nat, j: nat)
    requires i in places && j in places && i != j
    ensures |places| >= 2
  {
    var k :| 0 <= k < |places| && places[k] == i;
    var l :| 0 <= l < |places| && places[l] == j;
  }

  lemma OnlyLast(places: seq<nat>, k: nat)
    requires |places| >= 2 && k in places && places[|places| - 2] < k
    requires forall a, b | 0 <= a < b < |places| :: places[a] < places[b]
    ensures k == places[|places| - 1]
  {
  }

  /** A step with exactly one more behind it. */
  ghost predicate LastButOne(ms: seq<Message>, p: nat) {
    && 1 <= p < |ms| && IsStep(ms[p])
    && exists q | p < q < |ms| :: IsStep(ms[q]) && forall k | p < k < |ms| && k != q :: !IsStep(ms[k])
  }

  lemma {:induction false} StepBeforeLast(ms: seq<Message>)
    requires |StepsOf(ms)| >= 2
    ensures LastButOne(ms, StepsOf(ms)[|StepsOf(ms)| - 2])
  {
    StepsAre(ms);
    hide IsStep, StepsOf;
    var steps := StepsOf(ms);
    var p, q := steps[|steps| - 2], steps[|steps| - 1];
    forall k: nat | k in steps && p < k ensures k == q {
      OnlyLast(steps, k);
    }
    assert p < q < |ms| && IsStep(ms[q]);
  }

  /** If there are two steps behind the first message, the tail starts with a step and
      holds exactly one more. */
  lemma {:induction false} LastTwoSteps(ms: seq<Message>, i: nat, j: nat)
    requires 1 <= i < j < |ms| && IsStep(ms[i]) && IsStep(ms[j])
    ensures LastButOne(ms, ProtectedStart(ms))
  {
    hide IsStep, LastButOne, ProtectedStart;
    StepsAre(ms);
    TwoPlaces(StepsOf(ms), i, j);
    ProtectedStartIs(ms);
    StepBeforeLast(ms);
  }
}
