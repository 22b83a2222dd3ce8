/** What the ledger holds after a trace of results, counted on the trace itself, and
    which refusal it gives. */
module CompletionLaws {
  import opened Text
  import opened Messages
  import opened Completion

  // ---- kinds of results ----

  predicate Looks(e: Entry) {
    e.result.ok && e.tool in {"workspace_list", "workspace_read", "workspace_search", "git_inspect",
      "delegate_analysis"}
  }

  predicate Writes(tool: string) {
    tool in {"workspace_mkdir", "workspace_patch", "workspace_write", "workspace_edit"}
  }

  /** Every call of a writing tool, and every result of a plugin. */
  predicate TriesToWrite(e: Entry) {
    Writes(e.tool) || e.result.plugin
  }

  predicate Wrote(e: Entry) {
    e.result.ok && !Looks(e) && TriesToWrite(e)
  }

  predicate RunsCommand(e: Entry) {
    e.tool == "workspace_command" && !e.result.plugin
  }

  predicate Passed(e: Entry) {
    e.result.ok && RunsCommand(e)
  }

  predicate Failed(e: Entry) {
    !e.result.ok && e.result.error.Some?
  }

  predicate Denied(e: Entry) {
    Failed(e) && e.tool == "workspace_command" && e.result.error == Some("COMMAND_ARGUMENT_DENIED")
  }

  /** The files a successful write reports. */
  function Files(e: Entry): set<string> {
    if e.tool == "workspace_mkdir" then set p | p in e.result.createdPaths
    else if e.tool == "workspace_write" || e.tool == "workspace_edit" || e.result.plugin then
      match e.result.path
      case Some(p) => {p}
      case None => {}
    else set p | p in e.result.files
  }

  // ---- counts ----

  /** How many results of a trace are of a kind. */
  function Count(trace: seq<Entry>, p: Entry -> bool): nat {
    if trace == [] then 0 else (if p(trace[0]) then 1 else 0) + Count(trace[1..], p)
  }

  lemma {:induction false} CountLast(trace: seq<Entry>, e: Entry, p: Entry -> bool)
    ensures Count(trace + [e], p) == Count(trace, p) + if p(e) then 1 else 0
  {
    if trace == [] {
      assert [] + [e] == [e] && [e][1..] == [];
    } else {
      CountLast(trace[1..], e, p);
      assert (trace + [e])[1..] == trace[1..] + [e] && (trace + [e])[0] == trace[0];
    }
  }


  lemma KindsAre(e: Entry)
    ensures (Observes(e) <==> Looks(e)) && (AttemptsMutation(e) <==> TriesToWrite(e)) && (Mutates(e) <==> Wrote(e))
    ensures (AttemptsVerification(e) <==> RunsCommand(e)) && (Verifies(e) <==> Passed(e))
    ensures FailsMutation(e) <==> Failed(e) && TriesToWrite(e)
    ensures (set p | p in ChangedPaths(e)) == Files(e)
  {
  }

  /** The counts of the ledger are those of its trace. */
  ghost predicate Counts(trace: seq<Entry>, ledger: Ledger) {
    && ledger.successfulObservations == Count(trace, Looks)
    && ledger.mutationAttempts == Count(trace, TriesToWrite) && ledger.successfulMutations == Count(trace, Wrote)
    && ledger.verificationAttempts == Count(trace, RunsCommand)
    && ledger.successfulVerifications == Count(trace, Passed)
    && ledger.argumentDenials == Count(trace, Denied)
    && ledger.recoveries <= ledger.argumentDenials && ledger.recoveries <= ledger.successfulVerifications
  }

  /** The lists of the ledger are those of its trace: the files written, the profiles
      that passed, the failures of commands, and the codes of failed writes behind the
      last one that succeeded. */
  ghost predicate Lists(trace: seq<Entry>, ledger: Ledger) {
    && (forall p :: p in ledger.changedFiles <==> Written(trace, p))
    && (forall p :: p in ledger.verificationProfiles <==> HasPassed(trace, p))
    && (forall f :: f in ledger.verificationFailures <==> HasFailed(trace, f))
    && (forall code :: code in ledger.unresolvedMutationErrors <==> Lasts(trace, code))
    && Distinct(ledger.verificationFailures) && Distinct(ledger.unresolvedMutationErrors)
  }

  ghost predicate WroteAt(trace: seq<Entry>, path: string, k: int) {
    0 <= k < |trace| && Wrote(trace[k]) && path in Files(trace[k])
  }

  ghost predicate PassedAt(trace: seq<Entry>, profile: string, k: int) {
    0 <= k < |trace| && Passed(trace[k]) && trace[k].result.profile == Some(profile)
  }

  ghost predicate FailedAt(trace: seq<Entry>, f: VerificationFailure, k: int) {
    0 <= k < |trace| && FailsAs(trace[k], f)
  }

  ghost predicate Written(trace: seq<Entry>, path: string) {
    exists k :: WroteAt(trace, path, k)
  }

  ghost predicate HasPassed(trace: seq<Entry>, profile: string) {
    exists k :: PassedAt(trace, profile, k)
  }

  ghost predicate HasFailed(trace: seq<Entry>, f: VerificationFailure) {
    exists k :: FailedAt(trace, f, k)
  }

  ghost predicate Lasts(trace: seq<Entry>, code: string) {
    exists k :: LastingAt(trace, code, k)
  }

  predicate FailsAs(e: Entry, f: VerificationFailure) {
    Failed(e) && e.tool == "workspace_command" && f == VerificationFailure(e.result.error.value, e.result.profile)
  }

  ghost predicate LastingAt(trace: seq<Entry>, code: string, k: int) {
    && 0 <= k < |trace| && Failed(trace[k]) && TriesToWrite(trace[k]) && trace[k].result.error == Some(code)
    && forall l | k < l < |trace| :: !Wrote(trace[l])
  }

  lemma {:induction false} CountsNext(trace: seq<Entry>, e: Entry, ledger: Ledger)
    requires Counts(trace, ledger)
    ensures Counts(trace + [e], Recorded(ledger, e))
  {
    hide Count, ChangedPaths, ClearedAll, Cleared, Added;
    CountLast(trace, e, Looks);
    CountLast(trace, e, TriesToWrite);
    CountLast(trace, e, Wrote);
    CountLast(trace, e, RunsCommand);
    CountLast(trace, e, Passed);
    CountLast(trace, e, Denied);
  }

  /** What is found in a longer trace: what was found before, or the new result. */
  lemma WroteNext(trace: seq<Entry>, e: Entry, path: string)
    ensures Written(trace + [e], path)
            <==> Written(trace, path) || (Wrote(e) && path in Files(e))
  {
    hide Wrote, Files;
    forall k ensures WroteAt(trace + [e], path, k)
                     <==> WroteAt(trace, path, k) || (k == |trace| && Wrote(e) && path in Files(e)) {}
    assert WroteAt(trace + [e], path, |trace|) <==> Wrote(e) && path in Files(e);
  }

  lemma PassedNext(trace: seq<Entry>, e: Entry, profile: string)
    ensures HasPassed(trace + [e], profile)
            <==> HasPassed(trace, profile) || (Passed(e) && e.result.profile == Some(profile))
  {
    hide Passed;
    forall k ensures PassedAt(trace + [e], profile, k)
                     <==> PassedAt(trace, profile, k)
                          || (k == |trace| && Passed(e) && e.result.profile == Some(profile)) {}
    assert PassedAt(trace + [e], profile, |trace|) <==> Passed(e) && e.result.profile == Some(profile);
  }

  lemma FailedNext(trace: seq<Entry>, e: Entry, f: VerificationFailure)
    ensures HasFailed(trace + [e], f) <==> HasFailed(trace, f) || FailsAs(e, f)
  {
    hide FailsAs;
    forall k ensures FailedAt(trace + [e], f, k) <==> FailedAt(trace, f, k) || (k == |trace| && FailsAs(e, f)) {}
    assert FailedAt(trace + [e], f, |trace|) <==> FailsAs(e, f);
  }

  lemma LastingNext(trace: seq<Entry>, e: Entry, code: string)
    ensures Lasts(trace + [e], code)
            <==> (!Wrote(e) && Lasts(trace, code))
                 || (Failed(e) && TriesToWrite(e) && e.result.error == Some(code))
  {
    hide Wrote, Failed, TriesToWrite;
    var all := trace + [e];
    forall k ensures LastingAt(all, code, k)
                     <==> (LastingAt(trace, code, k) && !Wrote(e))
                          || (k == |trace| && Failed(e) && TriesToWrite(e) && e.result.error == Some(code)) {
      if 0 <= k < |trace| {
        assert all[k] == trace[k] && all[|trace|] == e;
        if LastingAt(trace, code, k) && !Wrote(e) {
          forall l | k < l < |all| ensures !Wrote(all[l]) {
            assert l < |trace| ==> all[l] == trace[l];
          }
        }
        if LastingAt(all, code, k) {
          forall l | k < l < |trace| ensures !Wrote(trace[l]) {
            assert all[l] == trace[l];
          }
        }
      }
    }
    assert LastingAt(all, code, |trace|) <==> Failed(e) && TriesToWrite(e) && e.result.error == Some(code);
  }

  lemma AddedIs<T>(items: seq<T>, item: T)
    ensures forall x :: x in Added(items, item) <==> x in items || x == item
    ensures Distinct(items) ==> Distinct(Added(items, item))
  {
    if item !in items {
      DistinctConcat(items, [item]);
    }
  }

  /** What one result adds to the lists. */
  lemma {:induction false} ListsAfter(ledger: Ledger, e: Entry)
    requires Distinct(ledger.verificationFailures) && Distinct(ledger.unresolvedMutationErrors)
    ensures var next := Recorded(ledger, e);
            && (forall p :: p in next.changedFiles <==> p in ledger.changedFiles || (Wrote(e) && p in Files(e)))
            && (forall p :: p in next.verificationProfiles
                            <==> p in ledger.verificationProfiles || (Passed(e) && e.result.profile == Some(p)))
            && (forall f :: f in next.verificationFailures <==> f in ledger.verificationFailures || FailsAs(e, f))
            && (forall code :: code in next.unresolvedMutationErrors
                               <==> (!Wrote(e) && code in ledger.unresolvedMutationErrors)
                                    || (Failed(e) && TriesToWrite(e) && e.result.error == Some(code)))
            && Distinct(next.verificationFailures) && Distinct(next.unresolvedMutationErrors)
  {
    hide ClearedAll, Cleared, Added, Distinct;
    KindsAre(e);
    if Failed(e) {
      AddedIs(ledger.verificationFailures, VerificationFailure(e.result.error.value, e.result.profile));
      AddedIs(ledger.unresolvedMutationErrors, e.result.error.value);
    }
    NoneDistinct<string>();
  }

  lemma NoneDistinct<T>()
    ensures Distinct<T>([])
  {
  }

  lemma {:induction false} ListsNext(trace: seq<Entry>, e: Entry, ledger: Ledger)
    requires Lists(trace, ledger)
    ensures Lists(trace + [e], Recorded(ledger, e))
  {
    hide Recorded, Written, HasPassed, HasFailed, Lasts, Wrote, Passed, FailsAs, Failed, TriesToWrite, Files, Distinct;
    ListsAfter(ledger, e);
    forall p ensures Written(trace + [e], p)
                     <==> Written(trace, p) || (Wrote(e) && p in Files(e)) {
      WroteNext(trace, e, p);
    }
    forall p ensures HasPassed(trace + [e], p)
                     <==> HasPassed(trace, p) || (Passed(e) && e.result.profile == Some(p)) {
      PassedNext(trace, e, p);
    }
    forall f ensures HasFailed(trace + [e], f) <==> HasFailed(trace, f) || FailsAs(e, f) {
      FailedNext(trace, e, f);
    }
    forall code ensures Lasts(trace + [e], code)
                        <==> (!Wrote(e) && Lasts(trace, code))
                             || (Failed(e) && TriesToWrite(e) && e.result.error == Some(code)) {
      LastingNext(trace, e, code);
    }
  }

  lemma {:induction false} LedgerIs(trace: seq<Entry>)
    ensures Counts(trace, Replay(trace)) && Lists(trace, Replay(trace))
  {
    hide Recorded, Counts, Lists;
    if trace == [] {
      NothingRecorded();
    } else {
      var older, e := trace[..|trace| - 1], trace[|trace| - 1];
      LedgerIs(older);
      CountsNext(older, e, Replay(older));
      ListsNext(older, e, Replay(older));
      assert trace == older + [e];
    }
  }

  lemma NothingRecorded()
    ensures Counts([], EMPTY_LEDGER) && Lists([], EMPTY_LEDGER)
  {
  }

  /** A command that passes makes up for one denied earlier, as long as there is one. */
  lemma {:induction false} RecoveriesNext(trace: seq<Entry>, e: Entry)
    ensures Replay([]).recoveries == 0
    ensures var known := Replay(trace).recoveries;
            Replay(trace + [e]).recoveries
            == known + if Passed(e) && Count(trace, Denied) > known then 1 else 0
  {
    hide Count, Lists, ClearedAll, Cleared, Added;
    LedgerIs(trace);
    KindsAre(e);
    ReplaySnoc(trace, e);
  }

  // ---- refusals ----

  ghost predicate Has(trace: seq<Entry>, p: Entry -> bool) {
    exists k :: 0 <= k < |trace| && p(trace[k])
  }

  /** A completion is refused for want of an observation; else for writes of which none
      succeeded; else for commands of which none passed; else for a write that failed
      behind the last one that succeeded. */
  lemma {:induction false} DecisionIs(trace: seq<Entry>)
    ensures Validate(Replay(trace))
            == if !Has(trace, Looks) then ObservationRequired
               else if Has(trace, TriesToWrite) && !Has(trace, Wrote) then MutationNotApplied
               else if Has(trace, RunsCommand) && !Has(trace, Passed) then VerificationNotRun
               else if exists code :: Lasts(trace, code) then MutationErrorUnresolved
               else Accepted
  {
    hide Replay, Occurs, FailedSinceMutation, Has, Lasts, Counts;
    ReplayCounts(trace);
    LedgerIs(trace);
    SameKinds(trace);
    var codes := Replay(trace).unresolvedMutationErrors;
    assert codes != [] <==> exists code :: code in codes by {
      assert codes != [] ==> codes[0] in codes;
    }
  }

  lemma SameKinds(trace: seq<Entry>)
    ensures Occurs(trace, Observes) <==> Has(trace, Looks)
    ensures (Occurs(trace, AttemptsMutation) <==> Has(trace, TriesToWrite))
            && (Occurs(trace, Mutates) <==> Has(trace, Wrote))
    ensures Occurs(trace, AttemptsVerification) <==> Has(trace, RunsCommand)
    ensures Occurs(trace, Verifies) <==> Has(trace, Passed)
  {
    hide Observes, AttemptsMutation, Mutates, AttemptsVerification, Verifies, Looks, TriesToWrite, Wrote, RunsCommand,
         Passed, Files;
    forall k | 0 <= k < |trace|
      ensures (Observes(trace[k]) <==> Looks(trace[k])) && (AttemptsMutation(trace[k]) <==> TriesToWrite(trace[k]))
      ensures (Mutates(trace[k]) <==> Wrote(trace[k])) && (Verifies(trace[k]) <==> Passed(trace[k]))
      ensures AttemptsVerification(trace[k]) <==> RunsCommand(trace[k])
    {
      KindsAre(trace[k]);
    }
  }
}
