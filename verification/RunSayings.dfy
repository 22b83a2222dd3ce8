/** What a step of a run puts into the journal, word for word, read off what the world
    brings. */
module RunSayings {
  import opened Text
  import opened Messages
  import opened RunStates
  import opened Recovery
  import opened RunEvents
  import opened RunMachine
  import opened RunSafety
  import opened RunRecords
  import opened RunOutcomes
  import opened RunEndings
  import opened RunBreaks
  import opened RunAnnounces
  import Completion

  // ---- errors and results ----

  /** An error of the runtime is a failure with its code and no other trace. */
  lemma ErrorIs(cfg: Config, call: ToolCall, code: string)
    ensures ErrorResult(cfg, call, code)
            == Completion.ToolResult(false, Some(code), false, [], [], None, None, cfg.errorText(call, code))
  {
  }

  /** What a result tells the model is cut off behind 98,304 bytes of one response. */
  lemma BoundedIs(cfg: Config, call: ToolCall, produced: ToolResult, bytes: nat)
    ensures var result := Bounded(cfg, call, produced, bytes);
            if bytes + cfg.utf8Size(produced.content) <= 98_304 then result == produced
            else !result.ok && result.error == Some("TOOL_RESULT_BUDGET")
                 && result.content == cfg.errorText(call, "TOOL_RESULT_BUDGET")
  {
  }

  // ---- repeats ----

  /** A call whose two predecessors in the run were the same operation on the same
      arguments is turned down, or ends the run if three were. */
  lemma RepeatIs(cfg: Config, recorded: seq<CallKey>, call: ToolCall)
    ensures var all := recorded + [KeyOf(cfg, call)];
            var key := (call.name, cfg.stableArguments(call));
            var n := |recorded|;
            && (Repeats(all).Stall? <==>
                  n >= 3 && recorded[n - 1] == key && recorded[n - 2] == key && recorded[n - 3] == key)
            && (Repeats(all).Proceed? <==> n < 2 || recorded[n - 1] != key || recorded[n - 2] != key)
  {
    hide RunLength;
    var all := recorded + [KeyOf(cfg, call)];
    var n := |recorded|;
    if n >= 2 {
      RunLengthIsMaximal(all, 3);
      assert all[n - 2] == recorded[n - 2] && all[n - 1] == recorded[n - 1];
    }
    if n >= 3 {
      RunLengthIsMaximal(all, 4);
      assert all[n - 3] == recorded[n - 3];
    }
  }

  // ---- guidance ----

  predicate AlwaysTold(code: string) {
    code == "GIT_NOT_REPOSITORY" || code == "COMMAND_FAILED" || code == "COMMAND_ARGUMENT_DENIED"
  }

  /** A failed result earns guidance for some codes always, and otherwise when the same
      failure occurs for the second time; a third one of a mutation ends the run. */
  lemma JudgedIs(failures: seq<FailureKey>, call: ToolCall, fields: map<string, string>, result: ToolResult)
    ensures var failure := FailureIn(call, fields, result);
            var d := Judged(WithFailure(failures, failure), failure);
            if result.ok || result.error.None? then !d.guidance && !d.stall
            else
              var code, known := result.error.value, multiset(failures)[FailureKeyOf(call, fields, result.error.value)];
              && (d.guidance <==> AlwaysTold(code) || known == 1)
              && (d.stall <==> StallsOn(code) && known >= 2)
  {
    if !result.ok && result.error.Some? {
      var code := result.error.value;
      var key := FailureKeyOf(call, fields, code);
      GuidedNeverStalls(code);
      assert multiset(failures + [key]) == multiset(failures) + multiset{key};
    }
  }

  /** Failures are the same if tool, code and the named arguments agree. */
  lemma SameFailure(a: ToolCall, b: ToolCall, fields: map<string, string>, more: map<string, string>, code: string)
    requires a.name == b.name
    requires code != "GIT_NOT_REPOSITORY" ==>
               forall name | name in {"path", "profile", "operation", "query"} ::
                 (name in fields <==> name in more) && (name in fields ==> fields[name] == more[name])
    ensures FailureKeyOf(a, fields, code) == FailureKeyOf(b, more, code)
  {
    if code != "GIT_NOT_REPOSITORY" {
      SameResource(fields, more, FAILURE_FIELDS);
    }
  }

  lemma {:induction false} SameResource(fields: map<string, string>, more: map<string, string>, names: seq<string>)
    requires forall name | name in names :: (name in fields <==> name in more)
                                            && (name in fields ==> fields[name] == more[name])
    ensures Resource(fields, names) == Resource(more, names)
  {
    if names != [] {
      assert names[|names| - 1] in names;
      SameResource(fields, more, names[..|names| - 1]);
    }
  }

  /** An operation on one resource is told apart from one on another by the first 160
      characters. */
  lemma OneResource(name: string, value: string)
    requires name in FAILURE_FIELDS
    ensures Resource(map[name := value], FAILURE_FIELDS)
            == name + "=" + if |value| <= 160 then value else value[..160]
  {
    OneArgument(name, value, FAILURE_FIELDS);
  }

  /** So two failures of one tool with one code on two files are told apart, and those of
      operations on nothing in particular are counted together. */
  lemma ResourceIs(call: ToolCall, name: string, value: string, code: string)
    requires name in FAILURE_FIELDS && code != "GIT_NOT_REPOSITORY"
    ensures FailureKeyOf(call, map[name := value], code)
            == FailureKey(call.name, code, name + "=" + if |value| <= 160 then value else value[..160])
    ensures FailureKeyOf(call, map[], code) == FailureKey(call.name, code, "<operation>")
  {
    OneResource(name, value);
    NoResource(FAILURE_FIELDS);
    assert (name + "=" + if |value| <= 160 then value else value[..160])[|name|] == '=';
  }

  lemma {:induction false} NoResource(names: seq<string>)
    ensures Resource(map[], names) == ""
  {
    if names != [] {
      NoResource(names[..|names| - 1]);
    }
  }

  /** The failures that end a run when they occur for the third time. */
  lemma StallsIff(code: string)
    ensures StallsOn(code)
            <==> code == "TOOL_INVALID_ARGUMENTS" || "PATCH_" <= code || "WRITE_" <= code || "EDIT_" <= code
                 || "DIRECTORY_" <= code || "PATH_" <= code
  {
    hide Completion.HasPrefix;
    StallPrefixes(code);
    if code in {"APPROVAL_REJECTED", "APPROVAL_TIMEOUT", "APPROVAL_UNAVAILABLE", "TOOL_RESULT_BUDGET",
                "TOOL_CALL_LIMIT"} {
      assert code[0] == 'A' || code[0] == 'T';
      assert code != "TOOL_INVALID_ARGUMENTS" by {
        assert code[5] != 'I';
      }
    }
  }

  lemma StallPrefixes(code: string)
    ensures Completion.HasPrefix(code, ["PATCH_", "WRITE_", "EDIT_", "DIRECTORY_", "PATH_"])
            <==> "PATCH_" <= code || "WRITE_" <= code || "EDIT_" <= code || "DIRECTORY_" <= code || "PATH_" <= code
    ensures Completion.HasPrefix(code, ["PATCH_", "WRITE_", "EDIT_", "DIRECTORY_", "PATH_"])
            ==> code[0] in {'P', 'W', 'E', 'D'}
  {
    var prefixes := ["PATCH_", "WRITE_", "EDIT_", "DIRECTORY_", "PATH_"];
    assert prefixes[0] == "PATCH_" && prefixes[1] == "WRITE_" && prefixes[2] == "EDIT_" && prefixes[3] == "DIRECTORY_";
    assert prefixes[4] == "PATH_";
    if Completion.HasPrefix(code, prefixes) {
      var k :| 0 <= k < |prefixes| && prefixes[k] <= code;
      assert code[0] == prefixes[k][0];
    }
    forall k | 0 <= k < |prefixes| && prefixes[k] <= code ensures Completion.HasPrefix(code, prefixes) {
      assert StartsWith(code, prefixes[k]);
    }
  }

  lemma {:induction false} OneArgument(name: string, value: string, names: seq<string>)
    requires Distinct(names)
    ensures Resource(map[name := value], names)
            == if name in names then name + "=" + (if |value| <= 160 then value else value[..160]) else ""
  {
    if names != [] {
      var n := |names| - 1;
      OneArgument(name, value, names[..n]);
      assert names == names[..n] + [names[n]];
      if names[n] == name {
        assert forall k | 0 <= k < n :: names[..n][k] == names[k] != names[n];
        assert "" + name == name;
      }
    }
  }

  // ---- the journal ----

  /** What the model hears back about its question to the user. */
  function QuestionText(cfg: Config, call: ToolCall, answer: UserAnswer): string {
    if answer.BadRequest? then cfg.errorText(call, answer.code)
    else if !cfg.userInputs then cfg.errorText(call, "INPUT_UNAVAILABLE")
    else
      match answer
      case Answer(result) => result.content
      case AnswerExpired => cfg.errorText(call, "INPUT_TIMEOUT")
      case AnswerCancelled => cfg.errorText(call, "TOOL_CANCELLED")
  }

  /** What the model hears back about its report. */
  ghost function ReportText(cfg: Config, trace: seq<Completion.Entry>, call: ToolCall, report: OutcomeReport): string {
    match report
    case BadOutcome(code) => cfg.errorText(call, code)
    case ReportsIncomplete(text) => text
    case ReportsCompleted(text) =>
      if Completion.Justified(trace) then text else cfg.errorText(call, "OUTCOME_CONTRADICTS_EVIDENCE")
  }

  /** Call `k` of a response is handled and earns guidance. */
  predicate EarnsGuidance(
    cfg: Config, r: Run, calls: seq<ToolCall>, step: nat, inputs: nat -> CallInput, k: nat)
    requires k < |calls|
  {
    var before := CallsTurn(cfg, r, calls, step, inputs, k);
    var d := ComesTo(cfg, before.run, calls[k], k, inputs(k));
    && before.flow == Continue && d.Outcome?
    && var result := Bounded(cfg, calls[k], d.result, before.bytes);
       !result.ok && result.error.Some?
       && (AlwaysTold(result.error.value)
           || multiset(before.run.failures)[
                FailureKeyOf(calls[k], cfg.textArguments(calls[k]), result.error.value)] == 1)
  }

  /** The messages that answer a response. */
  ghost function Replies(
    cfg: Config, r: Run, content: string, calls: seq<ToolCall>, input: StepInput, step: nat, summaryRound: bool)
    : seq<Message>
  {
    if SummaryEnds(cfg, summaryRound, calls) then []
    else if calls == [] then
      if NonBlank(content) && Completion.Justified(r.trace) then [] else [Message(User, cfg.nudge, [], None)]
    else if AsksUser(calls) then
      [Message(Tool, QuestionText(cfg, calls[0], input.answer), [], Some(calls[0].id))]
    else if ReportsOutcome(calls) then
      [Message(Tool, ReportText(cfg, r.trace, calls[0], input.outcome), [], Some(calls[0].id))]
    else
      var begun := Emitted(r, Progress, step);
      var h := CallsTurn(cfg, begun, calls, step, input.calls, |calls|);
      ResultMessages(if r.dealt <= h.run.dealt then h.run.dealt[|r.dealt|..] else [])
      + if h.flow == Continue && exists k | 0 <= k < |calls| :: EarnsGuidance(cfg, begun, calls, step, input.calls, k)
        then [Message(User, cfg.guidance, [], None)] else []
  }

  lemma {:induction false} GuidedIff(
    cfg: Config, r: Run, calls: seq<ToolCall>, step: nat, inputs: nat -> CallInput, n: nat)
    requires n <= |calls| && CallState(r.state) && CallsTurn(cfg, r, calls, step, inputs, n).flow == Continue
    ensures CallsTurn(cfg, r, calls, step, inputs, n).guided
            <==> exists k :: 0 <= k < n && EarnsGuidance(cfg, r, calls, step, inputs, k)
    decreases n
  {
    hide CallTurn, EarnsGuidance, CallState;
    if n > 0 {
      var before := CallsTurn(cfg, r, calls, step, inputs, n - 1);
      GuidedIff(cfg, r, calls, step, inputs, n - 1);
      AlwaysCallState(cfg, r, calls, step, inputs, n - 1);
      TurnGuides(cfg, r, calls, step, inputs, n - 1);
    }
  }

  lemma {:induction false} TurnGuides(cfg: Config, r: Run, calls: seq<ToolCall>, step: nat,
      inputs: nat -> CallInput, k: nat)
    requires k < |calls| && CallsTurn(cfg, r, calls, step, inputs, k).flow == Continue
    requires CallState(CallsTurn(cfg, r, calls, step, inputs, k).run.state)
    requires var before := CallsTurn(cfg, r, calls, step, inputs, k);
             CallTurn(cfg, before.run, calls, k, step, inputs(k), before.bytes).flow == Continue
    ensures var before := CallsTurn(cfg, r, calls, step, inputs, k);
            CallTurn(cfg, before.run, calls, k, step, inputs(k), before.bytes).guided
            <==> EarnsGuidance(cfg, r, calls, step, inputs, k)
  {
    hide CallsTurn, CalledAs, ComesTo, Bounded, RunMachine.Finished, StoppedAt, Settled, FailureKeyOf, AlwaysTold,
         Judged, WithFailure, CallState;
    var before := CallsTurn(cfg, r, calls, step, inputs, k);
    var p := CalledAs(cfg, before.run, calls[k], k, step, inputs(k));
    CalledTo(cfg, before.run, calls[k], k, step, inputs(k));
    CalledAdds(cfg, before.run, calls[k], k, step, inputs(k));
    var result := Bounded(cfg, calls[k], p.d.result, before.bytes);
    JudgedIs(before.run.failures, calls[k], cfg.textArguments(calls[k]), result);
    SettledFailures(cfg, p.run, calls[k], k, step, result);
  }

  lemma SettledFailures(cfg: Config, r: Run, call: ToolCall, index: nat, step: nat, result: ToolResult)
    ensures Settled(cfg, r, call, index, step, result).failures
            == WithFailure(r.failures, FailureIn(call, cfg.textArguments(call), result))
  {
  }

  lemma InputSays(cfg: Config, r: Run, call: ToolCall, answer: UserAnswer, step: nat)
    ensures InputTurn(cfg, r, call, answer, step).run.journal
            == r.journal + [Message(Tool, QuestionText(cfg, call, answer), [], Some(call.id))]
  {
    if !answer.BadRequest? && cfg.userInputs && answer.AnswerCancelled? {
      var asked := Emitted(r, ToolRequested(call.id), step);
      var moved := Moved(Emitted(Moved(asked, WaitingInput), InputRequired(call.id), step), Cancelled);
      assert CancelledTo(cfg, moved, [call], 0, 0, step) == moved;
    }
  }

  lemma OutcomeSays(cfg: Config, r: Run, call: ToolCall, report: OutcomeReport, step: nat)
    ensures OutcomeTurn(cfg, r, call, report, step).run.journal
            == r.journal + [Message(Tool, ReportText(cfg, r.trace, call, report), [], Some(call.id))]
  {
    hide Completion.Accepts, Completion.Justified;
    Completion.AcceptedIff(r.trace);
  }

  lemma CallsSay(
    cfg: Config, r: Run, content: string, calls: seq<ToolCall>, input: StepInput, step: nat, summaryRound: bool)
    requires !SummaryEnds(cfg, summaryRound, calls) && r.state == Interpreting && calls != [] && !AsksUser(calls)
             && !ReportsOutcome(calls)
    ensures AllCallsTurn(cfg, r, calls, step, input.calls).run.journal
            == r.journal + Replies(cfg, r, content, calls, input, step, summaryRound)
  {
    hide SummaryEnds, CallsTurn, Handles, Adds, Counted, Keys, EarnsGuidance, Emitted;
    var begun := Emitted(r, Progress, step);
    EmittedKeeps(r, Progress, step);
    CallsTurnHandles(cfg, begun, calls, step, input.calls, |calls|);
    var h := CallsTurn(cfg, begun, calls, step, input.calls, |calls|);
    ClosesOf(begun, h, calls);
    if h.flow == Continue {
      GuidedIff(cfg, begun, calls, step, input.calls, |calls|);
      ResumedSays(if h.guided then Said(h.run, Plain(User, cfg.guidance)) else h.run, step);
    }
  }

  lemma ClosesOf(r: Run, h: Handled, calls: seq<ToolCall>)
    requires Handles(r, h, calls, 0)
    ensures r.dealt <= h.run.dealt && h.run.journal == r.journal + ResultMessages(h.run.dealt[|r.dealt|..])
  {
    hide Adds;
  }

  lemma ResumedSays(r: Run, step: nat)
    ensures Resumed(r, step).journal == r.journal
  {
  }

  lemma ReactionSays(
    cfg: Config, r: Run, content: string, calls: seq<ToolCall>, input: StepInput, step: nat, summaryRound: bool)
    requires r.state == Interpreting
    ensures ActTurn(cfg, r, content, calls, input, step, summaryRound).run.journal
            == r.journal + Replies(cfg, r, content, calls, input, step, summaryRound)
  {
    hide InputTurn, OutcomeTurn, AllCallsTurn, CallsTurn, EarnsGuidance, SummaryEnds, Completion.Accepts,
         Completion.Justified, NonBlank, QuestionText, ReportText;
    if !SummaryEnds(cfg, summaryRound, calls) {
      if calls == [] {
        Completion.AcceptedIff(r.trace);
      } else if AsksUser(calls) {
        InputSays(cfg, r, calls[0], input.answer, step);
      } else if ReportsOutcome(calls) {
        OutcomeSays(cfg, r, calls[0], input.outcome, step);
      } else {
        CallsSay(cfg, r, content, calls, input, step, summaryRound);
      }
    }
  }

  /** All that a step writes down: the response and what answers it, or the repair of
      a malformed one. */
  ghost function StepSaid(cfg: Config, r: Run, input: StepInput, step: nat, summaryRound: bool): seq<Message> {
    var text, calls := AcceptedText(input), AcceptedCalls(input);
    if text.Some? then
      [Message(Assistant, text.value, calls, None)]
      + Replies(cfg, AtResponse(cfg, r, input, step), text.value, calls, input, step, summaryRound)
    else if !input.cancelled && IsRepaired(r, input) then [Message(User, cfg.repairPrompt, [], None)]
    else []
  }

  /** One turn of the loop writes down exactly this. */
  lemma StepSays(cfg: Config, r: Run, input: StepInput, step: nat, summaryRound: bool)
    ensures StepTurn(cfg, r, input, step, summaryRound).run.journal
            == r.journal + StepSaid(cfg, r, input, step, summaryRound)
  {
    hide ModelTurn, GoneTurn, ActTurn, Replies, AcceptedText, AcceptedCalls, Emitted, Adds, RequestsMade;
    if input.cancelled {
      NothingSaid(r, input, step);
    } else {
      var begun := Emitted(r, StepStarted, step);
      EmittedKeeps(r, StepStarted, step);
      BegunRepaired(r, step);
      var reached := ModelTurn(cfg, begun, input, step);
      AnswerAsScripted(cfg, begun, input, step);
      AcceptedAsScripted(cfg, begun, input, step);
      ModelKeeps(cfg, begun, input, step);
      ModelReaches(cfg, begun, input, step);
      match reached.answer {
        case Repaired =>
        case Gone(failure) => GoneLeaves(reached.run, failure, step);
        case Accepted(content, calls, usage) =>
          var said := Said(reached.run, Message(Assistant, content, calls, None));
          var at := RunBreaks.Reported(reached.run, content, calls, usage, step);
          EmittedKeeps(said, UsageReported, step);
          ReactionSays(cfg, at, content, calls, input, step, summaryRound);
      }
    }
  }

  lemma NothingSaid(r: Run, input: StepInput, step: nat)
    requires input.cancelled
    ensures RunMachine.Finished(r, Stopped, step).journal == r.journal && AcceptedText(input).None?
  {
  }

  // ---- calls that are left open ----

  /** A cancelled run closes every call that is still open with the same error. */
  lemma {:induction false} OpenCallsAre(
    cfg: Config, r: Run, calls: seq<ToolCall>, start: nat, end: nat, step: nat)
    requires start <= end <= |calls|
    ensures var dealt := CancelledTo(cfg, r, calls, start, end, step).dealt;
            && |dealt| == |r.dealt| + end - start && r.dealt <= dealt
            && forall k | start <= k < end ::
                 dealt[|r.dealt| + k - start]
                 == Deal(calls[k], step, k, ErrorResult(cfg, calls[k], "TOOL_CANCELLED"), true)
    decreases end
  {
    hide ErrorResult, CancelledOne;
    if start < end {
      OpenCallsAre(cfg, r, calls, start, end - 1, step);
      OpenCallIs(cfg, CancelledTo(cfg, r, calls, start, end - 1, step), calls, end - 1, end - 1 == start, step);
    }
  }

  lemma OpenCallIs(cfg: Config, r: Run, calls: seq<ToolCall>, index: nat, announced: bool, step: nat)
    requires index < |calls|
    ensures CancelledOne(cfg, r, calls, index, announced, step).dealt
            == r.dealt + [Deal(calls[index], step, index, ErrorResult(cfg, calls[index], "TOOL_CANCELLED"), true)]
  {
    hide ErrorResult;
  }

  // ---- what a call changes for the next ones ----

  /** Once git finds no repository it is not called again; nothing else is disabled. */
  lemma OnlyGitIsDisabled(
    cfg: Config, r: Run, calls: seq<ToolCall>, index: nat, step: nat, input: CallInput, bytes: nat)
    requires index < |calls| && CallState(r.state)
    ensures var h := CallTurn(cfg, r, calls, index, step, input, bytes);
            h.flow == Continue ==>
              && |h.run.dealt| == |r.dealt| + 1
              && h.run.disabled
                 == if calls[index].name == "git_inspect"
                       && h.run.dealt[|r.dealt|].result.error == Some("GIT_NOT_REPOSITORY")
                    then r.disabled + {"git_inspect"} else r.disabled
  {
    hide CallTurn, ComesTo, Bounded, WithFailure;
    TurnDeals(cfg, r, calls, index, step, input, bytes);
  }

  // ---- the reserved round ----

  /** The last step of a run that reserves it ends the run with whatever the model says,
      unless a single report of the outcome may still count; no other step ends so. */
  lemma ReservedRound(cfg: Config, r: Run, input: StepInput, step: nat)
    ensures StepTurn(cfg, r, input, step, InSummaryRound(cfg, r.maxSteps, step)).flow == Ended(SummaryRound)
            <==> cfg.reserveSummaryRound && r.maxSteps == Some(step) && AcceptedText(input).Some?
                 && !(cfg.summaryOutcomeOnly && |AcceptedCalls(input)| == 1
                      && AcceptedCalls(input)[0].name == "report_run_outcome")
  {
    hide StepTurn, AcceptedText, AcceptedCalls;
    StepEnds(cfg, r, input, step, InSummaryRound(cfg, r.maxSteps, step));
  }
}
