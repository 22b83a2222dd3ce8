/** Bounded protocol repair and tool-failure tracking
    (src/leanharness/runtime/recovery.py). */
module Recovery {
  import opened Text
  import opened Messages
  import opened Completion

  type CallKey = (string, string)

  datatype FailureKey = FailureKey(tool: string, code: string, resource: string)

  datatype Repetition = Proceed | Reject | Stall

  datatype FailureDecision = FailureDecision(guidance: bool, stall: bool)

  /** How many of the last items are the same. */
  function RunLength<T(==)>(items: seq<T>): (n: nat)
    ensures n <= |items| && (items != [] ==> n > 0)
  {
    if items == [] then 0
    else if |items| > 1 && items[|items| - 2] == items[|items| - 1] then RunLength(items[..|items| - 1]) + 1
    else 1
  }

  /** The length is that of the longest suffix of identical items. */
  lemma {:induction false} RunLengthIsMaximal<T>(items: seq<T>, n: nat)
    requires 0 < n <= |items|
    ensures (forall k | |items| - n <= k < |items| :: items[k] == items[|items| - 1]) <==> n <= RunLength(items)
  {
    var last := |items| - 1;
    if n > 1 {
      RunLengthIsMaximal(items[..last], n - 1);
      if items[last - 1] == items[last] {
        if forall k | last - (n - 1) <= k < last :: items[..last][k] == items[..last][last - 1] {
          forall k | |items| - n <= k < |items| ensures items[k] == items[last] {
            assert k < last ==> items[..last][k] == items[k];
          }
        }
      }
    }
  }

  const FAILURE_FIELDS: seq<string> := ["path", "profile", "operation", "query"]
  const MAX_FIELD_CHARS := 160

  function Shortened(s: string): string {
    if |s| > MAX_FIELD_CHARS then s[..MAX_FIELD_CHARS] else s
  }

  /** The named arguments that are text, cut and joined by bars. */
  function Resource(fields: map<string, string>, names: seq<string>): string {
    if names == [] then ""
    else
      var n := |names| - 1;
      var older := Resource(fields, names[..n]);
      if names[n] !in fields then older
      else (if older == "" then "" else older + "|") + names[n] + "=" + Shortened(fields[names[n]])
  }

  function FailureKeyOf(call: ToolCall, fields: map<string, string>, code: string): FailureKey {
    if code == "GIT_NOT_REPOSITORY" then FailureKey(call.name, code, "<workspace>")
    else
      var resource := Resource(fields, FAILURE_FIELDS);
      FailureKey(call.name, code, if resource == "" then "<operation>" else resource)
  }

  predicate StallsOn(code: string) {
    && code !in {"APPROVAL_REJECTED", "APPROVAL_TIMEOUT", "APPROVAL_UNAVAILABLE", "TOOL_RESULT_BUDGET",
       "TOOL_CALL_LIMIT"}
    && (HasPrefix(code, ["PATCH_", "WRITE_", "EDIT_", "DIRECTORY_", "PATH_"]) || code == "TOOL_INVALID_ARGUMENTS")
  }

  predicate AlwaysGuided(code: string) {
    code in {"GIT_NOT_REPOSITORY", "COMMAND_FAILED", "COMMAND_ARGUMENT_DENIED"}
  }

  lemma GuidedNeverStalls(code: string)
    ensures AlwaysGuided(code) ==> !StallsOn(code)
  {
    var prefixes := ["PATCH_", "WRITE_", "EDIT_", "DIRECTORY_", "PATH_"];
    if AlwaysGuided(code) {
      assert code[0] == 'G' || code[0] == 'C';
      forall k | 0 <= k < |prefixes| ensures !StartsWith(code, prefixes[k]) {
        assert prefixes[k][0] != code[0];
      }
    }
  }

  /** What the operations recorded so far say about the last one. */
  function Repeats(recorded: seq<CallKey>): Repetition {
    if RunLength(recorded) >= 4 then Stall else if RunLength(recorded) == 3 then Reject else Proceed
  }

  /** The failure a result counts as, if it is one. */
  function FailureIn(call: ToolCall, fields: map<string, string>, result: ToolResult): Option<FailureKey> {
    if result.ok || result.error.None? then None else Some(FailureKeyOf(call, fields, result.error.value))
  }

  function WithFailure(failures: seq<FailureKey>, failure: Option<FailureKey>): seq<FailureKey> {
    if failure.Some? then failures + [failure.value] else failures
  }

  /** What the failures counted so far say about the last one. */
  function Judged(failures: seq<FailureKey>, failure: Option<FailureKey>): FailureDecision {
    if failure.None? then FailureDecision(false, false)
    else
      var count := multiset(failures)[failure.value];
      if AlwaysGuided(failure.value.code) then FailureDecision(true, false)
      else if StallsOn(failure.value.code) && count >= 3 then FailureDecision(false, true)
      else FailureDecision(count == 2, false)
  }

  class ToolFailureTracker {
    const stableArguments: ToolCall -> string
    const textArguments: ToolCall -> map<string, string>
    var repeatKey: Option<CallKey>
    var repeatCount: nat
    var failureCounts: map<FailureKey, nat>
    ghost var recorded: seq<CallKey>
    ghost var failures: seq<FailureKey>

    function KeyOf(call: ToolCall): CallKey {
      (call.name, stableArguments(call))
    }

    /** The counters are exactly what the recorded calls and failures amount to. */
    ghost predicate Valid()
      reads this
    {
      && repeatCount == RunLength(recorded)
      && repeatKey == (if recorded == [] then None else Some(recorded[|recorded| - 1]))
      && (forall k :: k in failureCounts <==> k in multiset(failures))
      && (forall k | k in failureCounts :: failureCounts[k] == multiset(failures)[k])
    }

    constructor (stableArguments: ToolCall -> string, textArguments: ToolCall -> map<string, string>)
      ensures Valid() && recorded == [] && failures == []
      ensures this.stableArguments == stableArguments && this.textArguments == textArguments
    {
      this.stableArguments, this.textArguments := stableArguments, textArguments;
      repeatKey, repeatCount, failureCounts := None, 0, map[];
      recorded, failures := [], [];
    }

    method Reset()
      modifies this
      ensures Valid() && recorded == [] && failures == []
    {
      repeatKey, repeatCount, failureCounts := None, 0, map[];
      recorded, failures := [], [];
    }

    /** The third identical call in a row is rejected, the fourth stalls the run. */
    method RecordCall(call: ToolCall) returns (decision: Repetition)
      requires Valid()
      modifies this
      ensures Valid() && recorded == old(recorded) + [KeyOf(call)] && failures == old(failures)
      ensures decision == Repeats(recorded)
    {
      var key := KeyOf(call);
      if Some(key) == repeatKey {
        repeatCount := repeatCount + 1;
      } else {
        repeatKey, repeatCount := Some(key), 1;
      }
      recorded := recorded + [key];
      assert recorded[..|recorded| - 1] == old(recorded);
      if repeatCount >= 4 {
        return Stall;
      }
      decision := if repeatCount == 3 then Reject else Proceed;
    }

    /** One more failure of a key, and how many there are now. */
    method CountFailure(key: FailureKey) returns (count: nat)
      requires Valid()
      modifies this`failureCounts, this`failures
      ensures Valid() && failures == old(failures) + [key] && count == multiset(failures)[key]
    {
      hide RunLength;
      count := (if key in failureCounts then failureCounts[key] else 0) + 1;
      failureCounts := failureCounts[key := count];
      assert multiset(failures + [key]) == multiset(failures) + multiset{key};
      failures := failures + [key];
    }

    /** Counts the failure of one operation on one resource; the third failure
        of a stalling kind ends the run. */
    method RecordResult(call: ToolCall, result: ToolResult) returns (decision: FailureDecision)
      requires Valid()
      modifies this
      ensures Valid() && recorded == old(recorded)
      ensures failures == WithFailure(old(failures), FailureIn(call, textArguments(call), result))
      ensures decision == Judged(failures, FailureIn(call, textArguments(call), result))
    {
      hide StallsOn, RunLength;
      if result.ok || result.error.None? {
        return FailureDecision(false, false);
      }
      var code := result.error.value;
      var count := CountFailure(FailureKeyOf(call, textArguments(call), code));
      if code == "GIT_NOT_REPOSITORY" || code == "COMMAND_FAILED" || code == "COMMAND_ARGUMENT_DENIED" {
        return FailureDecision(true, false);
      }
      if StallsOn(code) && count >= 3 {
        return FailureDecision(false, true);
      }
      decision := FailureDecision(count == 2, false);
    }
  }

  /** One repair of a malformed model response per run. */
  class ModelProtocolRecovery {
    var used: bool

    constructor ()
      ensures !used
    {
      used := false;
    }

    method Reset()
      modifies this
      ensures !used
    {
      used := false;
    }

    method Request() returns (granted: bool)
      modifies this
      ensures granted == !old(used) && used
    {
      granted := !used;
      used := true;
    }
  }
}
