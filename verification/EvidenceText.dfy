/** The evidence text of one finished run (`_run_evidence` in
    src/leanharness/application/session_gateway.py), as the compact JSON text that
    Python's `json.dumps` writes without escaping other than ASCII controls,
    quotes and backslashes. */
module EvidenceText {
  import opened Text

  const MAX_RUN_EVIDENCE_CHARS := 2_000
  const SHOWN_TOOLS := 12
  const DIGEST_CHARS := 64

  datatype RunRecord = RunRecord(
    id: string,
    mode: string,
    state: string,
    permissionMode: string,
    errorCode: Option<string>,
    task: string,
    answer: string)

  // ---- JSON strings ----

  function HexDigit(n: nat): char
    requires n < 16
  {
    if n < 10 then '0' + n as char else 'a' + (n - 10) as char
  }

  function EscapedChar(c: char): (s: string)
    ensures |s| >= 1 && (c >= ' ' && c != '"' && c != '\\' ==> s == [c])
  {
    if c == '"' then "\\\""
    else if c == '\\' then "\\\\"
    else if c == '\n' then "\\n"
    else if c == '\r' then "\\r"
    else if c == '\t' then "\\t"
    else if c == '\U{08}' then "\\b"
    else if c == '\U{0C}' then "\\f"
    else if c < ' ' then "\\u00" + [HexDigit(c as int / 16), HexDigit(c as int % 16)]
    else [c]
  }

  function Escaped(s: string): (out: string)
    ensures |out| >= |s|
  {
    if s == "" then "" else Escaped(s[..|s| - 1]) + EscapedChar(s[|s| - 1])
  }

  function Quoted(s: string): string {
    "\"" + Escaped(s) + "\""
  }

  /** Characters that JSON text holds as they are. */
  predicate Unescaped(s: string) {
    forall k | 0 <= k < |s| :: s[k] >= ' ' && s[k] != '"' && s[k] != '\\'
  }

  lemma {:induction false} UnescapedStays(s: string)
    requires Unescaped(s)
    ensures Escaped(s) == s
  {
    if s != "" {
      UnescapedStays(s[..|s| - 1]);
    }
  }

  function Cut(s: string): string {
    if |s| > MAX_RUN_EVIDENCE_CHARS then s[..MAX_RUN_EVIDENCE_CHARS] else s
  }

  // ---- the two forms ----

  const ID_KEY := "{\"historical_run_evidence\":{\"run_id\":"
  const MODE_KEY := ",\"mode\":"
  const STATE_KEY := ",\"state\":"
  const PERMISSION_KEY := ",\"permission_mode\":"
  const ERROR_KEY := ",\"error_code\":"
  const TASK_KEY := ",\"task\":"
  const ANSWER_KEY := ",\"answer\":"
  const EVIDENCE_KEY := ",\"evidence\":"
  const TOOLS_KEY := ",\"tools\":["
  const TOOLS_END := "]"
  const DIGEST_KEY := ",\"evidence_sha256\":\""
  const DIGEST_END := "\",\"evidence_compacted\":true"
  const CLOSING := ",\"re_read_workspace_for_current_facts\":true}}"

  function ErrorText(code: Option<string>): string {
    if code.Some? then Quoted(code.value) else "null"
  }

  /** What both forms begin with. */
  function Identity(run: RunRecord): string {
    ID_KEY + Quoted(run.id) + MODE_KEY + Quoted(run.mode) + STATE_KEY + Quoted(run.state)
    + PERMISSION_KEY + Quoted(run.permissionMode) + ERROR_KEY + ErrorText(run.errorCode)
    + TASK_KEY + Quoted(Cut(run.task)) + ANSWER_KEY + Quoted(Cut(run.answer))
  }

  function Joined(items: seq<string>): string {
    if items == [] then ""
    else if |items| == 1 then items[0]
    else Joined(items[..|items| - 1]) + "," + items[|items| - 1]
  }

  function LastTools(tools: seq<string>): seq<string> {
    if |tools| > SHOWN_TOOLS then tools[|tools| - SHOWN_TOOLS..] else tools
  }

  /** With the JSON texts of the evidence and of the last tools. */
  function FullForm(run: RunRecord, evidence: string, tools: seq<string>): string {
    Identity(run) + EVIDENCE_KEY + evidence + TOOLS_KEY + Joined(LastTools(tools)) + TOOLS_END + CLOSING
  }

  /** With the digest of the evidence only. */
  function CompactForm(run: RunRecord, digest: string): string {
    Identity(run) + DIGEST_KEY + digest + DIGEST_END + CLOSING
  }

  predicate Fits(content: string) {
    |content| <= MAX_RUN_EVIDENCE_CHARS
  }

  // ---- their sizes ----

  /** The characters of a record's own values in either form. */
  function ValueSize(run: RunRecord): nat {
    |Quoted(run.id)| + |Quoted(run.mode)| + |Quoted(run.state)| + |Quoted(run.permissionMode)|
      + |ErrorText(run.errorCode)|
    + |Quoted(Cut(run.task))| + |Quoted(Cut(run.answer))|
  }

  const IDENTITY_OVERHEAD := 105
  const FULL_OVERHEAD := 173
  const COMPACT_OVERHEAD := 261

  lemma IdentitySize(run: RunRecord)
    ensures |Identity(run)| == ValueSize(run) + IDENTITY_OVERHEAD
  {
    hide Quoted, ErrorText, Cut;
  }

  lemma FormSizes(run: RunRecord, evidence: string, digest: string)
    requires |digest| == DIGEST_CHARS
    ensures |CompactForm(run, digest)| == ValueSize(run) + COMPACT_OVERHEAD
    ensures |FullForm(run, evidence, [])| == ValueSize(run) + |evidence| + FULL_OVERHEAD
  {
    hide Identity, ValueSize;
    IdentitySize(run);
  }

  lemma ToolsOnlyAdd(run: RunRecord, evidence: string, tools: seq<string>)
    ensures |FullForm(run, evidence, tools)| >= |FullForm(run, evidence, [])|
  {
    hide Identity;
  }

  /** No form fits: a bound on the record and its evidence decides it. */
  predicate TooLarge(run: RunRecord, evidence: string) {
    && ValueSize(run) + COMPACT_OVERHEAD > MAX_RUN_EVIDENCE_CHARS
    && ValueSize(run) + |evidence| + FULL_OVERHEAD > MAX_RUN_EVIDENCE_CHARS
  }

  // ---- the shrinking loop ----

  datatype EvidenceResult = Written(content: string) | NeverEnds

  /** The first list of the newest tools whose form fits. */
  ghost predicate FirstFitting(run: RunRecord, evidence: string, all: seq<string>, n: nat) {
    && n <= |all| && Fits(FullForm(run, evidence, all[n..]))
    && forall m: nat | m < n :: !Fits(FullForm(run, evidence, all[m..]))
  }

  /** The loop of `_run_evidence`: it drops the oldest tool, then uses the compact
      form. Once that form does not fit it is built again and again: the loop runs
      for ever exactly when the record is too large. */
  method RunEvidence(run: RunRecord, evidence: string, digest: string, all: seq<string>) returns (r: EvidenceResult)
    requires |digest| == DIGEST_CHARS
    ensures r.NeverEnds? <==> TooLarge(run, evidence)
    ensures r.Written? ==> Fits(r.content)
    ensures r.Written? ==>
              || (r.content == CompactForm(run, digest)
                  && forall n: nat | n <= |all| :: !Fits(FullForm(run, evidence, all[n..])))
              || exists n: nat :: FirstFitting(run, evidence, all, n) && r.content == FullForm(run, evidence, all[n..])
  {
    hide FullForm, CompactForm, ValueSize;
    var tools := all;
    var content := FullForm(run, evidence, tools);
    var compacted := false;
    ghost var dropped := 0;
    assert all[0..] == all;
    FormSizes(run, evidence, digest);
    while true
      invariant dropped <= |all| && tools == all[dropped..]
      invariant content == if compacted then CompactForm(run, digest) else FullForm(run, evidence, tools)
      invariant compacted ==> tools == []
      invariant forall m: nat | m < dropped :: !Fits(FullForm(run, evidence, all[m..]))
      invariant compacted ==> !Fits(FullForm(run, evidence, all[dropped..]))
      decreases |tools|, if compacted then 0 else 1
    {
      if |content| <= MAX_RUN_EVIDENCE_CHARS {
        if !compacted {
          ToolsOnlyAdd(run, evidence, tools);
          assert FirstFitting(run, evidence, all, dropped);
        }
        return Written(content);
      }
      if tools != [] {
        tools := tools[1..];
        dropped := dropped + 1;
        content := FullForm(run, evidence, tools);
        continue;
      }
      if compacted {
        return NeverEnds;
      }
      content, compacted := CompactForm(run, digest), true;
    }
  }

  // ---- which records ----

  /** Task and answer alone make a record too large when together, each cut to
      2,000 characters, they leave no room for the keys around them. */
  lemma LongTextsNeverFit(run: RunRecord, evidence: string)
    requires |Cut(run.task)| + |Cut(run.answer)| + 14 + COMPACT_OVERHEAD > MAX_RUN_EVIDENCE_CHARS
    requires |Cut(run.task)| + |Cut(run.answer)| + 14 + |evidence| + FULL_OVERHEAD > MAX_RUN_EVIDENCE_CHARS
    ensures TooLarge(run, evidence)
  {
    hide Cut;
  }

  function Repeated(c: char, n: nat): (s: string)
    ensures |s| == n && forall k | 0 <= k < n :: s[k] == c
  {
    seq(n, k requires 0 <= k < n => c)
  }

  /** A cancelled run with a task of 2,000 letters and no answer. */
  const LONG_TASK := RunRecord("run", "ask", "CANCELLED", "inspect", None, Repeated('a', MAX_RUN_EVIDENCE_CHARS), "")

  /** Its evidence is never written, whatever it observed. */
  lemma {:induction false} LongTaskNeverEnds(evidence: string)
    ensures TooLarge(LONG_TASK, evidence)
  {
    LongTextsNeverFit(LONG_TASK, evidence);
  }

  /** The values of a record of plain characters take their own lengths, the quotes
      around them and the word null. */
  lemma {:induction false} PlainRecordSize(run: RunRecord, evidence: string)
    requires Unescaped(run.id) && Unescaped(run.mode) && Unescaped(run.state) && Unescaped(run.permissionMode)
    requires run.errorCode.None? && Unescaped(Cut(run.task)) && Unescaped(Cut(run.answer))
    ensures ValueSize(run)
            == |run.id| + |run.mode| + |run.state| + |run.permissionMode| + |Cut(run.task)| + |Cut(run.answer)| + 16
  {
    hide Cut, Escaped;
    UnescapedStays(run.id);
    UnescapedStays(run.mode);
    UnescapedStays(run.state);
    UnescapedStays(run.permissionMode);
    UnescapedStays(Cut(run.task));
    UnescapedStays(Cut(run.answer));
  }
}
