/** The evidence ledger that decides whether a run may complete
    (src/leanharness/runtime/completion.py). */
module Completion {
  import opened Text
  import opened Messages

  /** What the runtime reads of a tool result: its public metadata and the text
      handed to the model. `plugin` says that a plugin id is present. */
  datatype ToolResult = ToolResult(
    ok: bool,
    error: Option<string>,
    plugin: bool,
    files: seq<string>,
    createdPaths: seq<string>,
    path: Option<string>,
    profile: Option<string>,
    content: string)

  datatype VerificationFailure = VerificationFailure(code: string, profile: Option<string>)

  datatype Ledger = Ledger(
    successfulObservations: nat,
    mutationAttempts: nat,
    successfulMutations: nat,
    verificationAttempts: nat,
    successfulVerifications: nat,
    changedFiles: set<string>,
    unresolvedErrors: seq<string>,
    unresolvedMutationErrors: seq<string>,
    argumentDenials: nat,
    recoveries: nat,
    verificationFailures: seq<VerificationFailure>,
    verificationProfiles: set<string>)

  const EMPTY_LEDGER := Ledger(0, 0, 0, 0, 0, {}, [], [], 0, 0, [], {})

  predicate IsObservationTool(tool: string) {
    tool in {"workspace_list", "workspace_read", "workspace_search", "git_inspect", "delegate_analysis"}
  }

  predicate IsMutationTool(tool: string) {
    tool in {"workspace_mkdir", "workspace_patch", "workspace_write", "workspace_edit"}
  }

  predicate IsCommandTool(tool: string) {
    tool == "workspace_command"
  }

  const MUTATION_PREFIXES: seq<string> := ["PATCH_", "WRITE_", "EDIT_", "DIRECTORY_", "PATH_", "PLUGIN_"]
  const COMMAND_PREFIX := "COMMAND_"

  datatype Entry = Entry(tool: string, result: ToolResult)

  // ---- what an entry is ----

  predicate AttemptsMutation(e: Entry) {
    IsMutationTool(e.tool) || e.result.plugin
  }

  predicate AttemptsVerification(e: Entry) {
    IsCommandTool(e.tool) && !e.result.plugin
  }

  predicate Observes(e: Entry) {
    e.result.ok && IsObservationTool(e.tool)
  }

  predicate Mutates(e: Entry) {
    e.result.ok && !IsObservationTool(e.tool) && AttemptsMutation(e)
  }

  predicate Verifies(e: Entry) {
    e.result.ok && AttemptsVerification(e)
  }

  predicate FailsWith(e: Entry, code: string) {
    !e.result.ok && e.result.error == Some(code)
  }

  predicate FailsMutation(e: Entry) {
    !e.result.ok && e.result.error.Some? && AttemptsMutation(e)
  }

  predicate HasPrefix(code: string, prefixes: seq<string>) {
    exists k | 0 <= k < |prefixes| :: StartsWith(code, prefixes[k])
  }

  /** A later success settles a code. */
  predicate Settles(e: Entry, code: string) {
    || (Mutates(e) && HasPrefix(code, MUTATION_PREFIXES))
    || (Verifies(e) && StartsWith(code, COMMAND_PREFIX))
  }

  // ---- the ledger after one result ----

  function Cleared(codes: seq<string>, prefix: string): (out: seq<string>)
    ensures forall code :: code in out <==> code in codes && !StartsWith(code, prefix)
    ensures Distinct(codes) ==> Distinct(out)
  {
    if codes == [] then []
    else
      var last := codes[|codes| - 1];
      var older := Cleared(codes[..|codes| - 1], prefix);
      if StartsWith(last, prefix) then older else older + [last]
  }

  function ClearedAll(codes: seq<string>, prefixes: seq<string>): (out: seq<string>)
    ensures forall code :: code in out <==> code in codes && !HasPrefix(code, prefixes)
    ensures Distinct(codes) ==> Distinct(out)
  {
    if prefixes == [] then codes
    else
      var n := |prefixes| - 1;
      assert prefixes == prefixes[..n] + [prefixes[n]];
      assert forall code ::
          HasPrefix(code, prefixes) <==> HasPrefix(code, prefixes[..n]) || StartsWith(code, prefixes[n]) by {
        forall code
          ensures HasPrefix(code, prefixes) <==> HasPrefix(code, prefixes[..n]) || StartsWith(code, prefixes[n]) {
          if HasPrefix(code, prefixes[..n]) {
            var k :| 0 <= k < n && StartsWith(code, prefixes[..n][k]);
            assert prefixes[k] == prefixes[..n][k];
          } else {
            forall k | 0 <= k < n ensures !StartsWith(code, prefixes[k]) {
              assert prefixes[..n][k] == prefixes[k];
            }
          }
        }
      }
      Cleared(ClearedAll(codes, prefixes[..n]), prefixes[n])
  }

  function Added<T(==)>(items: seq<T>, item: T): seq<T> {
    if item in items then items else items + [item]
  }

  function ChangedPaths(e: Entry): seq<string> {
    if e.tool == "workspace_mkdir" then e.result.createdPaths
    else if e.tool in {"workspace_write", "workspace_edit"} || e.result.plugin then
      if e.result.path.Some? then [e.result.path.value] else []
    else e.result.files
  }

  function Attempted(ledger: Ledger, e: Entry): Ledger {
    if AttemptsMutation(e) then ledger.(mutationAttempts := ledger.mutationAttempts + 1)
    else if IsCommandTool(e.tool) then ledger.(verificationAttempts := ledger.verificationAttempts + 1)
    else ledger
  }

  function AfterMutation(ledger: Ledger, e: Entry): Ledger {
    ledger.(
      successfulMutations := ledger.successfulMutations + 1,
      changedFiles := ledger.changedFiles + (set p | p in ChangedPaths(e)),
      unresolvedErrors := ClearedAll(ledger.unresolvedErrors, MUTATION_PREFIXES),
      unresolvedMutationErrors := [])
  }

  function AfterVerification(ledger: Ledger, e: Entry): Ledger {
    ledger.(
      successfulVerifications := ledger.successfulVerifications + 1,
      verificationProfiles :=
        ledger.verificationProfiles + if e.result.profile.Some? then {e.result.profile.value} else {},
      recoveries := ledger.recoveries + if ledger.argumentDenials > ledger.recoveries then 1 else 0,
      unresolvedErrors := Cleared(ledger.unresolvedErrors, COMMAND_PREFIX))
  }

  function AfterFailure(ledger: Ledger, e: Entry, code: string): Ledger {
    var command := IsCommandTool(e.tool);
    ledger.(
      unresolvedErrors := Added(ledger.unresolvedErrors, code),
      unresolvedMutationErrors :=
        if AttemptsMutation(e) then Added(ledger.unresolvedMutationErrors, code) else ledger.unresolvedMutationErrors,
      argumentDenials := ledger.argumentDenials + if command && code == "COMMAND_ARGUMENT_DENIED" then 1 else 0,
      verificationFailures :=
        if command then Added(ledger.verificationFailures, VerificationFailure(code, e.result.profile))
        else ledger.verificationFailures)
  }

  function Recorded(ledger: Ledger, e: Entry): Ledger {
    var tried := Attempted(ledger, e);
    if e.result.ok then
      if Observes(e) then tried.(successfulObservations := tried.successfulObservations + 1)
      else if AttemptsMutation(e) then AfterMutation(tried, e)
      else if IsCommandTool(e.tool) then AfterVerification(tried, e)
      else tried
    else if e.result.error.Some? then AfterFailure(tried, e, e.result.error.value)
    else tried
  }

  function Replay(trace: seq<Entry>): Ledger {
    if trace == [] then EMPTY_LEDGER else Recorded(Replay(trace[..|trace| - 1]), trace[|trace| - 1])
  }

  datatype Decision =
    | Accepted
    | ObservationRequired
    | MutationNotApplied
    | VerificationNotRun
    | MutationErrorUnresolved

  function Validate(ledger: Ledger): Decision {
    if ledger.successfulObservations < 1 then ObservationRequired
    else if ledger.mutationAttempts > 0 && ledger.successfulMutations == 0 then MutationNotApplied
    else if ledger.verificationAttempts > 0 && ledger.successfulVerifications == 0 then VerificationNotRun
    else if ledger.unresolvedMutationErrors != [] then MutationErrorUnresolved
    else Accepted
  }

  /** The decision over everything recorded so far. */
  predicate Accepts(trace: seq<Entry>) {
    Validate(Replay(trace)) == Accepted
  }

  // ---- what the decision means for a whole trace ----

  ghost predicate Occurs(trace: seq<Entry>, p: Entry -> bool) {
    exists k :: 0 <= k < |trace| && p(trace[k])
  }

  /** A mutation failed and none succeeded since. */
  ghost predicate FailedSinceMutation(trace: seq<Entry>) {
    exists k :: 0 <= k < |trace| && FailsMutation(trace[k]) && forall l | k < l < |trace| :: !Mutates(trace[l])
  }

  /** The condition a caller can read off the trace of results. */
  ghost predicate Justified(trace: seq<Entry>) {
    && Occurs(trace, Observes)
    && (Occurs(trace, AttemptsMutation) ==> Occurs(trace, Mutates))
    && (Occurs(trace, AttemptsVerification) ==> Occurs(trace, Verifies))
    && !FailedSinceMutation(trace)
  }

  lemma SomeSnoc(trace: seq<Entry>, e: Entry, p: Entry -> bool)
    ensures Occurs(trace + [e], p) <==> Occurs(trace, p) || p(e)
  {
    var all := trace + [e];
    if Occurs(trace, p) {
      var k :| 0 <= k < |trace| && p(trace[k]);
      assert all[k] == trace[k];
    }
    if p(e) {
      assert all[|trace|] == e;
    }
  }

  lemma FailedSnoc(trace: seq<Entry>, e: Entry)
    ensures FailedSinceMutation(trace + [e]) <==> FailsMutation(e) || (FailedSinceMutation(trace) && !Mutates(e))
  {
    var all := trace + [e];
    if FailsMutation(e) {
      assert all[|trace|] == e;
    }
    if FailedSinceMutation(trace) && !Mutates(e) {
      var k :| 0 <= k < |trace| && FailsMutation(trace[k]) && forall l | k < l < |trace| :: !Mutates(trace[l]);
      assert all[k] == trace[k];
    }
    if FailedSinceMutation(all) && !FailsMutation(e) {
      var k :| 0 <= k < |all| && FailsMutation(all[k]) && forall l | k < l < |all| :: !Mutates(all[l]);
      assert all[|trace|] == e && k < |trace|;
      forall l | k < l < |trace| ensures !Mutates(trace[l]) {
        assert all[l] == trace[l];
      }
    }
  }

  ghost predicate CountsAgree(trace: seq<Entry>, ledger: Ledger) {
    && (ledger.successfulObservations > 0 <==> Occurs(trace, Observes))
    && (ledger.mutationAttempts > 0 <==> Occurs(trace, AttemptsMutation))
    && (ledger.successfulMutations > 0 <==> Occurs(trace, Mutates))
    && (ledger.verificationAttempts > 0 <==> Occurs(trace, AttemptsVerification))
    && (ledger.successfulVerifications > 0 <==> Occurs(trace, Verifies))
    && (ledger.unresolvedMutationErrors != [] <==> FailedSinceMutation(trace))
  }

  lemma {:induction false} CountsSnoc(trace: seq<Entry>, e: Entry, ledger: Ledger)
    requires CountsAgree(trace, ledger)
    ensures CountsAgree(trace + [e], Recorded(ledger, e))
  {
    hide IsObservationTool, IsMutationTool, IsCommandTool, ChangedPaths, ClearedAll, Cleared, Occurs,
         FailedSinceMutation;
    CommandIsNoObservation(e.tool);
    SomeSnoc(trace, e, Observes);
    SomeSnoc(trace, e, AttemptsMutation);
    SomeSnoc(trace, e, Mutates);
    SomeSnoc(trace, e, AttemptsVerification);
    SomeSnoc(trace, e, Verifies);
    FailedSnoc(trace, e);
  }

  lemma CommandIsNoObservation(tool: string)
    ensures IsCommandTool(tool) ==> !IsObservationTool(tool) && !IsMutationTool(tool)
  {
  }

  lemma {:induction false} ReplayCounts(trace: seq<Entry>)
    ensures CountsAgree(trace, Replay(trace))
  {
    if trace != [] {
      hide Recorded;
      var older, e := trace[..|trace| - 1], trace[|trace| - 1];
      ReplayCounts(older);
      CountsSnoc(older, e, Replay(older));
      assert trace == older + [e];
    }
  }

  /** Completion is accepted exactly when the trace justifies it. */
  lemma {:induction false} AcceptedIff(trace: seq<Entry>)
    ensures Accepts(trace) <==> Justified(trace)
  {
    ReplayCounts(trace);
  }

  /** A code failed and nothing settled it since. */
  ghost predicate Unsettled(trace: seq<Entry>, code: string) {
    exists k :: 0 <= k < |trace| && FailsWith(trace[k], code) && forall l | k < l < |trace| :: !Settles(trace[l], code)
  }

  lemma UnsettledSnoc(trace: seq<Entry>, e: Entry, code: string)
    ensures Unsettled(trace + [e], code) <==> FailsWith(e, code) || (Unsettled(trace, code) && !Settles(e, code))
  {
    var all := trace + [e];
    assert all[|trace|] == e;
    if Unsettled(trace, code) && !Settles(e, code) {
      var k :| 0 <= k < |trace| && FailsWith(trace[k], code) && forall l | k < l < |trace| :: !Settles(trace[l], code);
      assert all[k] == trace[k];
    }
    if Unsettled(all, code) && !FailsWith(e, code) {
      var k :| 0 <= k < |all| && FailsWith(all[k], code) && forall l | k < l < |all| :: !Settles(all[l], code);
      forall l | k < l < |trace| ensures !Settles(trace[l], code) {
        assert all[l] == trace[l];
      }
    }
  }

  /** The unresolved errors are exactly the codes that failed and were not
      settled since, each listed once. */
  lemma {:induction false} UnresolvedIff(trace: seq<Entry>)
    ensures Distinct(Replay(trace).unresolvedErrors)
    ensures forall code :: code in Replay(trace).unresolvedErrors <==> Unsettled(trace, code)
  {
    if trace != [] {
      var older, e := trace[..|trace| - 1], trace[|trace| - 1];
      assert trace == older + [e];
      UnresolvedIff(older);
      forall code ensures code in Replay(trace).unresolvedErrors <==> Unsettled(trace, code) {
        UnsettledSnoc(older, e, code);
      }
    }
  }

  lemma {:induction false} ReplaySnoc(trace: seq<Entry>, e: Entry)
    ensures Replay(trace + [e]) == Recorded(Replay(trace), e)
  {
    hide Recorded;
    assert (trace + [e])[..|trace|] == trace;
  }

  class CompletionLedger {
    var successfulObservations: nat
    var mutationAttempts: nat
    var successfulMutations: nat
    var verificationAttempts: nat
    var successfulVerifications: nat
    var changedFiles: set<string>
    var unresolvedErrors: seq<string>
    var unresolvedMutationErrors: seq<string>
    var argumentDenials: nat
    var recoveries: nat
    var verificationFailures: seq<VerificationFailure>
    var verificationProfiles: set<string>
    ghost var trace: seq<Entry>

    ghost function State(): Ledger
      reads this
    {
      Ledger(successfulObservations, mutationAttempts, successfulMutations, verificationAttempts,
             successfulVerifications, changedFiles, unresolvedErrors, unresolvedMutationErrors,
             argumentDenials, recoveries, verificationFailures, verificationProfiles)
    }

    /** The fields are the replay of every result recorded so far. */
    ghost predicate Valid()
      reads this
    {
      State() == Replay(trace)
    }

    constructor ()
      ensures Valid() && trace == []
    {
      successfulObservations, mutationAttempts, successfulMutations := 0, 0, 0;
      verificationAttempts, successfulVerifications := 0, 0;
      changedFiles, unresolvedErrors, unresolvedMutationErrors := {}, [], [];
      argumentDenials, recoveries, verificationFailures, verificationProfiles := 0, 0, [], {};
      trace := [];
    }

    method ClearToolErrors(prefix: string)
      modifies this`unresolvedErrors
      ensures unresolvedErrors == Cleared(old(unresolvedErrors), prefix)
    {
      var kept: seq<string> := [];
      for n := 0 to |unresolvedErrors|
        invariant unresolvedErrors == old(unresolvedErrors)
        invariant kept == Cleared(unresolvedErrors[..n], prefix)
      {
        assert unresolvedErrors[..n + 1][..n] == unresolvedErrors[..n];
        if !StartsWith(unresolvedErrors[n], prefix) {
          kept := kept + [unresolvedErrors[n]];
        }
      }
      assert unresolvedErrors[..|unresolvedErrors|] == unresolvedErrors;
      unresolvedErrors := kept;
    }

    method ClearMutationErrors()
      modifies this`unresolvedErrors, this`unresolvedMutationErrors
      ensures unresolvedErrors == ClearedAll(old(unresolvedErrors), MUTATION_PREFIXES)
      ensures unresolvedMutationErrors == []
    {
      hide Cleared;
      for n := 0 to |MUTATION_PREFIXES|
        invariant unresolvedErrors == ClearedAll(old(unresolvedErrors), MUTATION_PREFIXES[..n])
      {
        assert MUTATION_PREFIXES[..n + 1][..n] == MUTATION_PREFIXES[..n];
        ClearToolErrors(MUTATION_PREFIXES[n]);
      }
      assert MUTATION_PREFIXES[..|MUTATION_PREFIXES|] == MUTATION_PREFIXES;
      unresolvedMutationErrors := [];
    }

    method RecordSuccess(e: Entry)
      requires e.result.ok
      modifies this
      ensures trace == old(trace)
      ensures State() == if Observes(e)
              then old(State()).(successfulObservations := old(State()).successfulObservations + 1)
                         else if AttemptsMutation(e) then AfterMutation(old(State()), e)
                         else if IsCommandTool(e.tool) then AfterVerification(old(State()), e)
                         else old(State())
    {
      hide IsObservationTool, IsMutationTool, IsCommandTool, ChangedPaths, ClearedAll, Cleared, AfterMutation,
           AfterVerification;
      if IsObservationTool(e.tool) {
        successfulObservations := successfulObservations + 1;
      } else if IsMutationTool(e.tool) || e.result.plugin {
        RecordMutation(e);
      } else if IsCommandTool(e.tool) {
        RecordVerification(e);
      }
    }

    method RecordMutation(e: Entry)
      modifies this
      ensures trace == old(trace) && State() == AfterMutation(old(State()), e)
    {
      hide ChangedPaths, ClearedAll;
      successfulMutations := successfulMutations + 1;
      changedFiles := changedFiles + (set p | p in ChangedPaths(e));
      ClearMutationErrors();
    }

    method RecordVerification(e: Entry)
      modifies this
      ensures trace == old(trace) && State() == AfterVerification(old(State()), e)
    {
      hide Cleared;
      successfulVerifications := successfulVerifications + 1;
      if e.result.profile.Some? {
        verificationProfiles := verificationProfiles + {e.result.profile.value};
      }
      if argumentDenials > recoveries {
        recoveries := recoveries + 1;
      }
      ClearToolErrors(COMMAND_PREFIX);
    }

    method RecordFailure(e: Entry)
      requires !e.result.ok
      modifies this
      ensures trace == old(trace)
      ensures State() == if e.result.error.Some? then AfterFailure(old(State()), e, e.result.error.value)
              else old(State())
    {
      hide IsObservationTool, IsMutationTool, IsCommandTool, ChangedPaths, ClearedAll, Cleared, Added;
      if e.result.error.Some? {
        var code := e.result.error.value;
        RecordErrors(e, code);
        if IsCommandTool(e.tool) {
          RecordCommandFailure(code, e.result.profile);
        }
      }
    }

    method RecordErrors(e: Entry, code: string)
      modifies this`unresolvedErrors, this`unresolvedMutationErrors
      ensures unresolvedErrors == Added(old(unresolvedErrors), code)
      ensures unresolvedMutationErrors
              == if AttemptsMutation(e) then Added(old(unresolvedMutationErrors), code)
                 else old(unresolvedMutationErrors)
    {
      hide IsMutationTool;
      if code !in unresolvedErrors {
        unresolvedErrors := unresolvedErrors + [code];
      }
      if (IsMutationTool(e.tool) || e.result.plugin) && code !in unresolvedMutationErrors {
        unresolvedMutationErrors := unresolvedMutationErrors + [code];
      }
    }

    method RecordCommandFailure(code: string, profile: Option<string>)
      modifies this`argumentDenials, this`verificationFailures
      ensures argumentDenials == old(argumentDenials) + if code == "COMMAND_ARGUMENT_DENIED" then 1 else 0
      ensures verificationFailures == Added(old(verificationFailures), VerificationFailure(code, profile))
    {
      if code == "COMMAND_ARGUMENT_DENIED" {
        argumentDenials := argumentDenials + 1;
      }
      var failure := VerificationFailure(code, profile);
      if failure !in verificationFailures {
        verificationFailures := verificationFailures + [failure];
      }
    }

    method Record(tool: string, result: ToolResult)
      requires Valid()
      modifies this
      ensures Valid() && trace == old(trace) + [Entry(tool, result)]
      ensures State() == Recorded(old(State()), Entry(tool, result))
    {
      hide Attempted, Observes, AttemptsMutation, IsCommandTool, AfterMutation, AfterVerification, AfterFailure, Replay;
      var e := Entry(tool, result);
      Attempt(e);
      if result.ok {
        RecordSuccess(e);
      } else {
        RecordFailure(e);
      }
      ReplaySnoc(trace, e);
      trace := trace + [e];
    }

    /** An attempt counts whatever comes of it. */
    method Attempt(e: Entry)
      modifies this`mutationAttempts, this`verificationAttempts
      ensures State() == Attempted(old(State()), e)
    {
      hide IsMutationTool, IsCommandTool;
      if IsMutationTool(e.tool) || e.result.plugin {
        mutationAttempts := mutationAttempts + 1;
      } else if IsCommandTool(e.tool) {
        verificationAttempts := verificationAttempts + 1;
      }
    }

    /** Accepts exactly the traces that justify completion. */
    method ValidateCompleted() returns (decision: Decision)
      requires Valid()
      ensures decision == Validate(State())
      ensures decision == Accepted <==> Justified(trace)
    {
      AcceptedIff(trace);
      if successfulObservations < 1 {
        return ObservationRequired;
      }
      if mutationAttempts > 0 && successfulMutations == 0 {
        return MutationNotApplied;
      }
      if verificationAttempts > 0 && successfulVerifications == 0 {
        return VerificationNotRun;
      }
      decision := if unresolvedMutationErrors != [] then MutationErrorUnresolved else Accepted;
    }
  }
}
