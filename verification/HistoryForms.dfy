/** What one message and one run put into the history, and how the history is cut off,
    said without the functions that compute it. */
module HistoryForms {
  import opened Text
  import opened Messages
  import opened Projection
  import H = SessionHistory
  import PlanLines

  // ---- messages ----

  /** A text without the space around it. */
  ghost predicate Bare(text: string, bare: string) {
    && (exists a, b :: PlanLines.Gap(a) && PlanLines.Gap(b) && text == a + bare + b)
    && (bare != "" ==> !IsSpace(bare[0]) && !IsSpace(bare[|bare| - 1]))
  }

  lemma StripIs(text: string)
    ensures Bare(text, Strip(text))
  {
    hide IsSpace;
    var left := StripLeft(text);
    var a := PlanLines.StripLeftIs(text);
    var b := PlanLines.StripRightIs(left);
    var bare := Strip(text);
    assert text == a + (bare + b) == a + bare + b;
    assert bare != "" ==> bare[0] == left[0];
  }

  /** A message is shown if it is the user's or an answer, says something and is not of
      the run that is left out; an answer is cut at 8,000 characters, and has the evidence
      of its run ahead of it. */
  lemma ShownIs(s: H.Session, m: H.Posted, bare: string)
    requires bare == Strip(m.content)
    ensures Bare(m.content, bare)
    ensures H.Emitted(s, m)
            == if bare == "" || m.role.System? || m.role.Tool? || m.runId == s.exclude then []
               else
                 (if m.role.Assistant? && m.runId.Some? && m.runId.value in s.evidence
                  then [ContextSource("run:" + m.runId.value + ":evidence",
                                      Message(System, s.evidence[m.runId.value], [], None))]
                  else [])
                 + [ContextSource("message:" + m.id,
                                  Message(m.role, if m.role.Assistant? && |bare| > 8_000 then bare[..8_000] else bare,
                                          [], None))]
  {
    hide Strip;
    StripIs(m.content);
  }

  /** Messages are in one group exactly if they are of one run, or are the same message
      of none. */
  lemma SameGroup(a: H.Posted, b: H.Posted)
    ensures H.KeyOf(a) == H.KeyOf(b)
            <==> a.runId == b.runId && (a.runId.None? ==> a.id == b.id)
  {
    assert RUN_PREFIX[0] == 'r' && H.MESSAGE_PREFIX[0] == 'm';
    if H.KeyOf(a) == H.KeyOf(b) {
      assert H.KeyOf(a)[0] == H.KeyOf(b)[0];
      if a.runId.Some? {
        H.PrefixInjective(RUN_PREFIX, a.runId.value, b.runId.value);
      } else {
        H.PrefixInjective(H.MESSAGE_PREFIX, a.id, b.id);
      }
    }
  }

  /** A finished run that no shown answer speaks of has a group of its own. */
  lemma {:induction false} LeftoverNext(s: H.Session, runs: seq<string>, run: string)
    ensures H.Leftover(s, []) == []
    ensures H.Leftover(s, runs + [run])
            == H.Leftover(s, runs)
               + if run in s.evidence
                    && forall k | 0 <= k < |s.messages| ::
                         H.Emitted(s, s.messages[k]) == [] || !s.messages[k].role.Assistant?
                         || s.messages[k].runId != Some(run)
                 then [[ContextSource("run:" + run + ":evidence", Message(System, s.evidence[run], [], None))]] else []
  {
    assert (runs + [run])[..|runs|] == runs;
    assert H.Leftover(s, runs) + [] == H.Leftover(s, runs);
    if run in s.evidence {
      forall k | 0 <= k < |s.messages|
        ensures H.Answers(s, s.messages[k], run)
                <==> H.Emitted(s, s.messages[k]) != [] && s.messages[k].role.Assistant?
                     && s.messages[k].runId == Some(run) {
      }
    }
  }

  // ---- the window ----

  /** The characters of a list of groups, with 64 more for each source. */
  function Volume(groups: seq<seq<ContextSource>>): nat {
    if groups == [] then 0 else Volume(groups[..|groups| - 1]) + GroupVolume(groups[|groups| - 1])
  }

  function GroupVolume(group: seq<ContextSource>): nat {
    if group == [] then 0 else |group[0].message.content| + 64 + GroupVolume(group[1..])
  }

  lemma {:induction false} VolumeLast(group: seq<ContextSource>, x: ContextSource)
    ensures GroupVolume(group + [x]) == GroupVolume(group) + |x.message.content| + 64
  {
    if group == [] {
      assert [] + [x] == [x] && [x][1..] == [];
    } else {
      VolumeLast(group[1..], x);
      assert (group + [x])[1..] == group[1..] + [x] && (group + [x])[0] == group[0];
    }
  }

  lemma {:induction false} CostIs(group: seq<ContextSource>)
    ensures H.Cost(group) == GroupVolume(group)
  {
    if group != [] {
      var n := |group| - 1;
      CostIs(group[..n]);
      VolumeLast(group[..n], group[n]);
      assert group == group[..n] + [group[n]];
    }
  }

  lemma {:induction false} VolumeFirst(group: seq<ContextSource>, groups: seq<seq<ContextSource>>)
    ensures Volume([group] + groups) == GroupVolume(group) + Volume(groups)
  {
    hide GroupVolume;
    if groups == [] {
      assert [group] + [] == [group] && [group][..0] == [];
    } else {
      var n := |groups| - 1;
      VolumeFirst(group, groups[..n]);
      assert ([group] + groups)[..n + 1] == [group] + groups[..n] && ([group] + groups)[n + 1] == groups[n];
    }
  }

  lemma {:induction false} TotalIs(groups: seq<seq<ContextSource>>)
    ensures H.TotalCost(groups) == Volume(groups)
  {
    hide GroupVolume, H.Cost;
    if groups != [] {
      TotalIs(groups[1..]);
      CostIs(groups[0]);
      VolumeFirst(groups[0], groups[1..]);
      assert groups == [groups[0]] + groups[1..];
    }
  }

  /** The window holds at most 64,000 characters, and one group more would be too many. */
  lemma {:induction false} WindowIs(groups: seq<seq<ContextSource>>, n: nat)
    ensures H.Window(groups, n)
            <==> n <= |groups| && Volume(groups[n..]) <= 64_000 && (n > 0 ==> Volume(groups[n - 1..]) > 64_000)
  {
    hide H.TotalCost, Volume;
    if n <= |groups| {
      TotalIs(groups[n..]);
      if n > 0 {
        TotalIs(groups[n - 1..]);
        forall m: nat | m < n ensures H.TotalCost(groups[m..]) >= H.TotalCost(groups[n - 1..]) {
          H.CostGrows(groups, m, n - 1);
        }
      }
    }
  }
}
