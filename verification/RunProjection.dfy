/** The journal a run leaves is one the projector accepts and compacts. */
module RunProjection {
  import opened Text
  import opened Messages
  import opened ToolProtocol
  import opened Alignment
  import opened RunJournal
  import opened Projection
  import opened JournalSources
  import opened SemanticProtocol
  import opened ProjectionLife
  import RunMachine
  import RunEvents
  import RunSafety
  import opened RunOutcomes

  /** Tool-free messages before a journal change nothing for the protocol. */
  lemma {:induction false} PrefixedWellFormed(front: seq<Message>, ms: seq<Message>)
    requires NoTools(front)
    ensures WellFormed(front + ms) <==> WellFormed(ms)
    ensures AllCallIds(front + ms) == AllCallIds(ms) && AllResultIds(front + ms) == AllResultIds(ms)
  {
    hide AllCallIds, AllResultIds, WellFormed;
    NoToolIds(front);
    AllIdsConcat(front, ms);
    if ms == [] {
      assert front + ms == front;
      NoToolsWellFormed(front);
      NoToolsWellFormed(ms);
    } else {
      var older, m := ms[..|ms| - 1], ms[|ms| - 1];
      PrefixedWellFormed(front, older);
      WellFormedPrefix(front + older, m);
      WellFormedPrefix(older, m);
      assert ms == older + [m] && front + ms == front + older + [m];
    }
  }

  lemma PrefixedAdjacent(front: seq<Message>, ms: seq<Message>)
    requires NoTools(front) && Adjacent(ms)
    ensures Adjacent(front + ms)
  {
    var all := front + ms;
    forall r | 0 <= r < |all| && all[r].role.Tool? ensures exists i :: Owner(all, i, r) {
      assert all[r] == ms[r - |front|];
      var i :| Owner(ms, i, r - |front|);
      assert Owner(all, i + |front|, r) by {
        forall k | i + |front| < k <= r ensures Answers(all[k], all[i + |front|]) {
          assert Answers(ms[k - |front|], ms[i]);
        }
      }
    }
  }

  lemma SuffixAdjacent(front: seq<Message>, ms: seq<Message>)
    requires NoTools(front) && Adjacent(front + ms)
    ensures Adjacent(ms)
  {
    var all := front + ms;
    forall r | 0 <= r < |ms| && ms[r].role.Tool? ensures exists i :: Owner(ms, i, r) {
      assert all[r + |front|] == ms[r];
      var i :| Owner(all, i, r + |front|);
      assert Answers(all[r + |front|], all[i]);
      assert Owner(ms, i - |front|, r) by {
        forall k | i - |front| < k <= r ensures Answers(ms[k], ms[i - |front|]) {
          assert Answers(all[k + |front|], all[i]);
        }
      }
    }
  }

  lemma {:induction false} NormalisedMessages(codec: Codec, history: seq<ContextSource>, live: seq<Message>)
    ensures var n := LeadingSystems(live);
            MessagesOf(Normalise(codec, history, live))
            == live[..n] + (MessagesOf(HistoryMarker(codec, history)) + MessagesOf(history)) + live[n..]
  {
  }

  /** A sound journal stays sound when tool-free public history is set between
      its leading system messages and the rest. */
  lemma SoundJournalProjects(codec: Codec, history: seq<ContextSource>, live: seq<Message>)
    requires Sound(live) && NoTools(MessagesOf(history))
    ensures LegalAndAdjacent(Normalise(codec, history, live))
  {
    hide AllCallIds, AllResultIds, WellFormed, Adjacent, Normalise;
    var n := LeadingSystems(live);
    var front, rest := live[..n], live[n..];
    var middle := MessagesOf(HistoryMarker(codec, history)) + MessagesOf(history);
    assert live == front + rest && NoTools(front);
    HistoryNoTools(codec, history);
    assert NoTools(front + middle) by {
      forall k | 0 <= k < |front + middle|
        ensures !(front + middle)[k].role.Tool? && CallIds((front + middle)[k]) == [] {
        assert (front + middle)[k] == if k < n then front[k] else middle[k - n];
      }
    }
    PrefixedWellFormed(front, rest);
    PrefixedWellFormed(front + middle, rest);
    SuffixAdjacent(front, rest);
    PrefixedAdjacent(front + middle, rest);
    NormalisedMessages(codec, history, live);
  }

  lemma HistoryNoTools(codec: Codec, history: seq<ContextSource>)
    requires NoTools(MessagesOf(history))
    ensures NoTools(MessagesOf(HistoryMarker(codec, history)) + MessagesOf(history))
  {
    var marker := MessagesOf(HistoryMarker(codec, history));
    forall k | 0 <= k < |marker + MessagesOf(history)|
      ensures !(marker + MessagesOf(history))[k].role.Tool? && CallIds((marker + MessagesOf(history))[k]) == []
    {
      assert (marker + MessagesOf(history))[k] == if k < |marker| then marker[k] else MessagesOf(history)[k - |marker|];
    }
  }

  // ---- the task behind the system messages ----

  /** A message that is no system message comes behind both. */
  lemma LeadsNext(front: seq<Message>, m: Message)
    requires !m.role.System?
    ensures SystemsLead(front) ==> SystemsLead(front + [m])
  {
    assert (front + [m])[..|front|] == front;
  }

  lemma {:induction false} LeadsOn(front: seq<Message>, rest: seq<Message>)
    requires NoSystems(rest) && SystemsLead(front)
    ensures SystemsLead(front + rest)
    decreases |rest|
  {
    hide SystemsLead;
    if rest == [] {
      assert front + rest == front;
    } else {
      var n := |rest| - 1;
      LeadsOn(front, rest[..n]);
      LeadsNext(front + rest[..n], rest[n]);
      assert front + rest == (front + rest[..n]) + [rest[n]];
    }
  }

  lemma {:induction false} SystemsOfSystems(ms: seq<Message>)
    requires forall k | 0 <= k < |ms| :: ms[k].role.System?
    ensures Systems(ms) == ms && FirstUser(ms) == None
  {
    if ms != [] {
      SystemsOfSystems(ms[..|ms| - 1]);
    }
  }

  /** System messages and then a user's: the task stands right behind them. */
  lemma {:induction false} TaskBehindSystems(ms: seq<Message>, task: Message)
    requires task.role.User? && forall k | 0 <= k < |ms| :: ms[k].role.System?
    ensures SystemsLead(ms + [task])
  {
    SystemsOfSystems(ms);
    assert (ms + [task])[..|ms|] == ms;
  }

  /** A checkpoint leaves the task right behind the system messages. */
  lemma CheckpointLeads(live: seq<Message>, summary: string)
    ensures SystemsLead(Checkpoint(live, summary))
  {
    OnlySystems(live);
    TaskBehindSystems(Systems(live), Plain(User, summary));
  }

  /** The opening of a task: on a new journal, or on one where the task stands there. */
  lemma OpeningLeads(cfg: RunMachine.Config, opening: Option<Message>, ms: seq<Message>, task: string, initialize: bool)
    requires opening.Some? ==> opening.value.role.User?
    requires if initialize then ms == [] else SystemsLead(ms)
    ensures SystemsLead(ms + RunMachine.Opening(cfg, opening, task, initialize))
  {
    hide SystemsLead;
    var added := RunMachine.Opening(cfg, opening, task, initialize);
    if initialize {
      TaskBehindSystems([added[0]], added[1]);
      assert ms + added == [added[0]] + [added[1]];
    } else {
      LeadsNext(ms, added[0]);
    }
  }

  lemma GrownLeads(start: seq<Message>, journal: seq<Message>, calls: seq<ToolCall>, n: nat)
    requires SystemsLead(start) && Consistent(start, journal, calls, n)
    ensures SystemsLead(journal)
  {
    hide SystemsLead, Kept, Adjacent, Unique, Legal, NoSystems;
    LeadsOn(start, journal[|start|..]);
    assert start + journal[|start|..] == journal;
  }

  /** So does every run: of a new agent, or on a journal where it stands there. */
  lemma {:induction false} RunLeads(
    cfg: RunMachine.Config, r: RunMachine.Run, task: string, initialize: bool, script: seq<RunMachine.StepInput>)
    requires RunSafety.Ready(cfg, r) && !RunMachine.TaskRun(cfg, r, task, initialize, script).outcome.Rejected?
    requires if initialize then r.journal == [] else SystemsLead(r.journal)
    ensures SystemsLead(RunMachine.TaskRun(cfg, r, task, initialize, script).run.journal)
  {
    hide RunMachine.TaskRun, RunSafety.Ran, SystemsLead, Consistent, RunMachine.Opening, RunEvents.Requested,
         RunEvents.Completed, CountsRun, LastCalls, LeavesOpen, OpenIds;
    OpeningLeads(cfg, r.opening, r.journal, task, initialize);
    TaskRuns(cfg, r, task, initialize, script);
    var result := RunMachine.TaskRun(cfg, r, task, initialize, script);
    GrownLeads(r.journal + RunMachine.Opening(cfg, r.opening, task, initialize), result.run.journal,
               LastCalls(script, result.outcome, result.steps), result.answered);
  }

  /** The journal of a run that left no call open is legal, once its ids are unique. */
  lemma RunIsSound(
    cfg: RunMachine.Config, r: RunMachine.Run, task: string, initialize: bool, script: seq<RunMachine.StepInput>)
    requires RunSafety.Ready(cfg, r) && Kept(r.journal)
    requires var result := RunMachine.TaskRun(cfg, r, task, initialize, script);
             && !result.outcome.Rejected? && Unique(result.run.journal)
             && result.answered == |LastCalls(script, result.outcome, result.steps)|
    ensures Sound(RunMachine.TaskRun(cfg, r, task, initialize, script).run.journal)
  {
    hide RunMachine.TaskRun, RunMachine.Opening, Kept, Unique, LastCalls, RunSafety.Ran, CountsRun;
    TaskRuns(cfg, r, task, initialize, script);
    OpeningKept(cfg, r.opening, r.journal, task, initialize);
  }

  /** What a run that left no call open hands on: whatever the projector did before,
      also across checkpoints, its next projection of this journal is accepted, and
      with two assistant steps in view a semantic round is not refused either. */
  lemma {:induction false} RunProjects(
    codec: Codec, limits: Limits, foreign: seq<ContextSource>, ops: seq<Op>, st: State, cfg: RunMachine.Config,
    r: RunMachine.Run, task: string, initialize: bool, script: seq<RunMachine.StepInput>, reply: SummaryReply)
    requires RunSafety.Ready(cfg, r) && Kept(r.journal)
    requires var result := RunMachine.TaskRun(cfg, r, task, initialize, script);
             && !result.outcome.Rejected? && Unique(result.run.journal)
             && result.answered == |LastCalls(script, result.outcome, result.steps)|
             && NoTools(MessagesOf(result.run.history))
             && Reaches(codec, limits, foreign, ops, Place(st, result.run.history, result.run.journal))
    requires Foreign(foreign) && Traceable(codec, ops)
    ensures var run := RunMachine.TaskRun(cfg, r, task, initialize, script).run;
            && NonEmptyIds(st.cached)
            && Project(codec, limits, st, run.history, run.journal).Ok?
            && (|run.journal| > 0 && run.journal[0].role.System?
                && TwoSteps(MessagesOf(Prepared(codec, limits, st, Normalise(codec, run.history, run.journal))))
                ==> Semantic(codec, limits, st, run.history, run.journal, reply).1 != Err(ProtocolViolation))
  {
    hide RunMachine.TaskRun, Legal, Adjacent, Unique, Kept, Normalise, Project, Semantic, Prepared, Reaches, Traceable,
         TwoSteps, Expanded, Applied, LastCalls;
    var run := RunMachine.TaskRun(cfg, r, task, initialize, script).run;
    RunIsSound(cfg, r, task, initialize, script);
    SoundJournalProjects(codec, run.history, run.journal);
    ReachableProjection(codec, limits, foreign, ops, Place(st, run.history, run.journal), reply);
  }
}
