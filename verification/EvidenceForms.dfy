/** What the evidence text of a run says: its texts come back when it is read as JSON
    (RFC 8259), each under its own name. */
module EvidenceForms {
  import opened Text
  import opened EvidenceText

  // ---- a reader ----

  /** The text up to the closing quote at the start of a JSON text, and what comes
      behind that quote (section 7 of RFC 8259). */
  function TextAt(json: string): Option<(string, string)> {
    if json == "" || json[0] < ' ' then None
    else if json[0] == '"' then Some(("", json[1..]))
    else if json[0] != '\\' then Led(json[0], TextAt(json[1..]))
    else if |json| >= 6 && json[1] == 'u' then
      if forall k | 2 <= k < 6 :: HexValue(json[k]) < 16 then
        var n := HexValue(json[2]) * 4096 + HexValue(json[3]) * 256 + HexValue(json[4]) * 16 + HexValue(json[5]);
        if n < 0xD800 then Led(n as char, TextAt(json[6..])) else None
      else None
    else if |json| >= 2 && Named(json[1]).Some? then Led(Named(json[1]).value, TextAt(json[2..]))
    else None
  }

  function Led(c: char, read: Option<(string, string)>): Option<(string, string)> {
    if read.Some? then Some(([c] + read.value.0, read.value.1)) else None
  }

  function HexValue(c: char): nat {
    if '0' <= c <= '9' then (c - '0') as nat else if 'a' <= c <= 'f' then (c - 'a') as nat + 10 else 16
  }

  function Named(c: char): Option<char> {
    match c
    case '"' => Some('"')
    case '\\' => Some('\\')
    case 'n' => Some('\n')
    case 'r' => Some('\r')
    case 't' => Some('\t')
    case 'b' => Some('\U{08}')
    case 'f' => Some('\U{0C}')
    case _ => None
  }

  /** A name with a text, or with null. */
  type Member = (string, Option<string>)

  function ValueAt(json: string): Option<(Option<string>, string)> {
    if json != "" && json[0] == '"' then
      var read := TextAt(json[1..]);
      if read.Some? then Some((Some(read.value.0), read.value.1)) else None
    else if "null" <= json then Some((None, json[4..]))
    else None
  }

  function MemberAt(json: string): Option<(Member, string)> {
    if json == "" || json[0] != '"' then None
    else
      var name := TextAt(json[1..]);
      if name.None? || name.value.1 == "" || name.value.1[0] != ':' then None
      else
        var value := ValueAt(name.value.1[1..]);
        if value.None? then None else Some(((name.value.0, value.value.0), value.value.1))
  }

  /** The first members of an object, and what comes behind them. */
  function MembersAt(json: string, n: nat): Option<(seq<Member>, string)>
    requires n > 0
    decreases n
  {
    var first := MemberAt(json);
    if first.None? then None
    else if n == 1 then Some(([first.value.0], first.value.1))
    else if first.value.1 == "" || first.value.1[0] != ',' then None
    else
      var more := MembersAt(first.value.1[1..], n - 1);
      if more.None? then None else Some(([first.value.0] + more.value.0, more.value.1))
  }

  // ---- texts ----

  lemma {:induction false} ReadChar(c: char, rest: string)
    ensures TextAt(EscapedChar(c) + rest) == Led(c, TextAt(rest))
  {
    var json := EscapedChar(c) + rest;
    if c >= ' ' && c != '"' && c != '\\' {
      assert json[0] == c && json[1..] == rest;
    } else if c in {'"', '\\', '\n', '\r', '\t', '\U{08}', '\U{0C}'} {
      assert json[2..] == rest && json[0] == '\\';
    } else {
      HexRead(c as int / 16);
      HexRead(c as int % 16);
      assert json[6..] == rest && json[0] == '\\' && json[1] == 'u' && json[2] == '0' && json[3] == '0';
      assert json[4] == HexDigit(c as int / 16) && json[5] == HexDigit(c as int % 16);
    }
  }

  lemma HexRead(n: nat)
    requires n < 16
    ensures HexValue(HexDigit(n)) == n
  {
  }

  lemma {:induction false} EscapedLast(s: string, c: char)
    ensures Escaped("") == "" && Escaped(s + [c]) == Escaped(s) + EscapedChar(c)
  {
    hide EscapedChar;
    assert (s + [c])[..|s|] == s;
  }

  lemma Associates(a: string, b: string, c: string)
    ensures a + (b + c) == a + b + c && a + "" == a == "" + a
  {
  }

  lemma {:induction false} EscapedFirst(c: char, s: string)
    ensures Escaped([c] + s) == EscapedChar(c) + Escaped(s)
  {
    hide EscapedChar, Escaped;
    EscapedLast("", c);
    Associates(EscapedChar(c), "", "");
    if s == "" {
      assert [c] + s == "" + [c];
    } else {
      var n := |s| - 1;
      EscapedFirst(c, s[..n]);
      EscapedLast(s[..n], s[n]);
      EscapedLast([c] + s[..n], s[n]);
      assert s == s[..n] + [s[n]] && [c] + s == [c] + s[..n] + [s[n]];
      Associates(EscapedChar(c), Escaped(s[..n]), EscapedChar(s[n]));
    }
  }

  /** Every text comes back from its JSON form, whatever comes behind it. */
  lemma {:induction false} EscapedReads(s: string, rest: string)
    ensures TextAt(Escaped(s) + ("\"" + rest)) == Some((s, rest))
  {
    hide TextAt, EscapedChar;
    if s == "" {
      NothingRead(rest);
    } else {
      EscapedReads(s[1..], rest);
      EscapedFirst(s[0], s[1..]);
      ReadChar(s[0], Escaped(s[1..]) + ("\"" + rest));
      Associates(EscapedChar(s[0]), Escaped(s[1..]), "\"" + rest);
      assert s == [s[0]] + s[1..];
    }
  }

  lemma {:induction false} NothingRead(rest: string)
    ensures TextAt(Escaped("") + ("\"" + rest)) == Some(("", rest))
  {
    assert Escaped("") + ("\"" + rest) == "\"" + rest;
  }

  // ---- members ----

  function Keyed(name: string): string {
    "\"" + name + "\":"
  }

  function WrittenMember(m: Member, rest: string): string {
    Keyed(m.0) + (ErrorText(m.1) + rest)
  }

  function WrittenMembers(ms: seq<Member>, rest: string): string
    requires ms != []
  {
    if |ms| == 1 then WrittenMember(ms[0], rest)
    else WrittenMember(ms[0], "," + WrittenMembers(ms[1..], rest))
  }

  lemma {:induction false} ValueReads(value: Option<string>, rest: string)
    ensures ValueAt(ErrorText(value) + rest) == Some((value, rest))
  {
    hide TextAt, Escaped;
    var json := ErrorText(value) + rest;
    if value.Some? {
      EscapedReads(value.value, rest);
      assert json[1..] == Escaped(value.value) + ("\"" + rest);
    } else {
      assert json[4..] == rest;
    }
  }

  lemma {:induction false} MemberReads(m: Member, rest: string)
    requires Unescaped(m.0)
    ensures MemberAt(WrittenMember(m, rest)) == Some((m, rest))
  {
    hide TextAt, Escaped, ValueAt, ErrorText;
    var value := ErrorText(m.1) + rest;
    var json := WrittenMember(m, rest);
    UnescapedStays(m.0);
    EscapedReads(m.0, ":" + value);
    assert json[1..] == Escaped(m.0) + ("\"" + (":" + value));
    assert (":" + value)[1..] == value;
    ValueReads(m.1, rest);
  }

  lemma {:induction false} MembersRead(ms: seq<Member>, rest: string)
    requires ms != [] && forall m | m in ms :: Unescaped(m.0)
    ensures MembersAt(WrittenMembers(ms, rest), |ms|) == Some((ms, rest))
  {
    hide MemberAt, WrittenMember, Unescaped;
    if |ms| == 1 {
      MemberReads(ms[0], rest);
      assert ms == [ms[0]];
    } else {
      var more := WrittenMembers(ms[1..], rest);
      MemberReads(ms[0], "," + more);
      MembersRead(ms[1..], rest);
      assert ("," + more)[1..] == more;
      assert ms == [ms[0]] + ms[1..];
    }
  }

  // ---- a record ----

  /** What a record says of its run, in this order. */
  function Said(run: RunRecord): seq<Member> {
    [("run_id", Some(run.id)), ("mode", Some(run.mode)), ("state", Some(run.state)),
     ("permission_mode", Some(run.permissionMode)), ("error_code", run.errorCode), ("task", Some(Cut(run.task))),
     ("answer", Some(Cut(run.answer)))]
  }

  /** A text that opens a record and says these members, whatever comes behind it. */
  ghost predicate Opens(text: string, ms: seq<Member>, rest: string)
    requires ms != []
  {
    text + rest == OPENING + WrittenMembers(ms, rest)
  }

  lemma {:induction false} WrittenLast(ms: seq<Member>, m: Member, rest: string)
    requires ms != []
    ensures WrittenMembers(ms + [m], rest) == WrittenMembers(ms, "," + WrittenMember(m, rest))
  {
    hide WrittenMember;
    if |ms| == 1 {
      assert (ms + [m])[1..] == [m];
    } else {
      WrittenLast(ms[1..], m, rest);
      assert (ms + [m])[1..] == ms[1..] + [m];
    }
  }

  lemma {:induction false} Extends(text: string, ms: seq<Member>, key: string, m: Member, more: seq<Member>)
    returns (next: string)
    requires ms != [] && key == "," + Keyed(m.0) && more == ms + [m] && forall rest :: Opens(text, ms, rest)
    ensures next == text + key + ErrorText(m.1) && forall rest :: Opens(next, more, rest)
  {
    hide ErrorText, Keyed, WrittenMembers;
    next := text + key + ErrorText(m.1);
    forall rest ensures Opens(next, more, rest) {
      WrittenLast(ms, m, rest);
      assert Opens(text, ms, "," + WrittenMember(m, rest));
      Associates(text + key, ErrorText(m.1), rest);
      Associates(text, key, ErrorText(m.1) + rest);
      Associates(",", Keyed(m.0), ErrorText(m.1) + rest);
    }
  }

  lemma FirstKeys()
    ensures ID_KEY == OPENING + Keyed("run_id")
    ensures MODE_KEY == "," + Keyed("mode")
  {
  }

  lemma SecondKeys()
    ensures STATE_KEY == "," + Keyed("state") && PERMISSION_KEY == "," + Keyed("permission_mode")
  {
  }

  lemma LastKeys()
    ensures ERROR_KEY == "," + Keyed("error_code")
    ensures TASK_KEY == "," + Keyed("task") && ANSWER_KEY == "," + Keyed("answer")
  {
  }

  lemma {:induction false} FirstOpens(run: RunRecord)
    ensures forall rest :: Opens(ID_KEY + Quoted(run.id), [("run_id", Some(run.id))], rest)
  {
    hide Quoted;
    forall rest ensures Opens(ID_KEY + Quoted(run.id), [("run_id", Some(run.id))], rest) {
      FirstKeys();
      hide Keyed;
      Associates(ID_KEY, Quoted(run.id), rest);
      Associates(OPENING, Keyed("run_id"), Quoted(run.id) + rest);
    }
  }

  lemma {:induction false} IdentityOpens(run: RunRecord)
    ensures forall rest :: Opens(Identity(run), Said(run), rest)
  {
    FirstKeys();
    SecondKeys();
    LastKeys();
    FirstOpens(run);
    hide Cut, Keyed, Opens, Quoted;
    var ms := Said(run);
    var text := ID_KEY + Quoted(run.id);
    assert ms[..1] == [("run_id", Some(run.id))];
    text := Extends(text, ms[..1], MODE_KEY, ms[1], ms[..2]);
    text := Extends(text, ms[..2], STATE_KEY, ms[2], ms[..3]);
    text := Extends(text, ms[..3], PERMISSION_KEY, ms[3], ms[..4]);
    text := Extends(text, ms[..4], ERROR_KEY, ms[4], ms[..5]);
    text := Extends(text, ms[..5], TASK_KEY, ms[5], ms[..6]);
    text := Extends(text, ms[..6], ANSWER_KEY, ms[6], ms);
  }

  const OPENING := "{\"historical_run_evidence\":{"
  const CURRENT_FACTS := ",\"re_read_workspace_for_current_facts\":true}}"

  lemma {:induction false} FormReads(run: RunRecord, rest: string, form: string)
    requires form == Identity(run) + rest
    ensures OPENING <= form && MembersAt(form[|OPENING|..], 7) == Some((Said(run), rest))
  {
    hide MembersAt, WrittenMembers, Identity, Said, Unescaped;
    NamesPlain(run);
    IdentityOpens(run);
    assert Opens(Identity(run), Said(run), rest);
    MembersRead(Said(run), rest);
    assert form[|OPENING|..] == WrittenMembers(Said(run), rest);
  }

  lemma NamesPlain(run: RunRecord)
    ensures |Said(run)| == 7 && forall m | m in Said(run) :: Unescaped(m.0)
  {
    ShortNames();
    LongNames();
    hide Cut, Unescaped;
    forall m | m in Said(run) ensures Unescaped(m.0) {
      var k :| 0 <= k < 7 && m == Said(run)[k];
    }
  }

  lemma ShortNames()
    ensures Unescaped("run_id") && Unescaped("mode") && Unescaped("state") && Unescaped("task") && Unescaped("answer")
  {
  }

  lemma LongNames()
    ensures Unescaped("permission_mode") && Unescaped("error_code")
  {
  }

  /** Read back, the full form says this of its run, and then shows the evidence and the
      last tools. */
  lemma {:induction false} FullFormReads(run: RunRecord, evidence: string, tools: seq<string>)
    ensures var full := FullForm(run, evidence, tools);
            OPENING <= full
            && MembersAt(full[|OPENING|..], 7)
               == Some((Said(run), ",\"evidence\":" + (evidence + (",\"tools\":[" + (Joined(LastTools(tools))
                                                                             + ("]" + CURRENT_FACTS))))))
  {
    hide MembersAt, Identity, Said, Joined, LastTools;
    var shown := Joined(LastTools(tools));
    var last := TOOLS_END + CLOSING;
    var rest := EVIDENCE_KEY + (evidence + (TOOLS_KEY + (shown + last)));
    Associates(Identity(run) + EVIDENCE_KEY + evidence + TOOLS_KEY + shown, TOOLS_END, CLOSING);
    Associates(Identity(run) + EVIDENCE_KEY + evidence + TOOLS_KEY, shown, last);
    Associates(Identity(run) + EVIDENCE_KEY + evidence, TOOLS_KEY, shown + last);
    Associates(Identity(run) + EVIDENCE_KEY, evidence, TOOLS_KEY + (shown + last));
    Associates(Identity(run), EVIDENCE_KEY, evidence + (TOOLS_KEY + (shown + last)));
    FormReads(run, rest, FullForm(run, evidence, tools));
  }

  /** The compact form says the same, and then shows the digest. */
  lemma {:induction false} CompactFormReads(run: RunRecord, digest: string)
    ensures var compact := CompactForm(run, digest);
            OPENING <= compact
            && MembersAt(compact[|OPENING|..], 7)
               == Some((Said(run), ",\"evidence_sha256\":\""
                                   + (digest + ("\",\"evidence_compacted\":true" + CURRENT_FACTS))))
  {
    hide MembersAt, Identity, Said;
    var rest := DIGEST_KEY + (digest + (DIGEST_END + CLOSING));
    Associates(Identity(run) + DIGEST_KEY + digest, DIGEST_END, CLOSING);
    Associates(Identity(run) + DIGEST_KEY, digest, DIGEST_END + CLOSING);
    Associates(Identity(run), DIGEST_KEY, digest + (DIGEST_END + CLOSING));
    FormReads(run, rest, CompactForm(run, digest));
  }

  /** The texts of tools are listed with commas between them. */
  lemma {:induction false} JoinedJoins(items: seq<string>, more: seq<string>)
    ensures items != [] && more != [] ==> Joined(items + more) == Joined(items) + "," + Joined(more)
    ensures Joined([]) == "" && (|items| == 1 ==> Joined(items) == items[0])
  {
    hide Joined;
    JoinedLast([], "");
    if |items| == 1 {
      assert items == [] + [items[0]];
      JoinedLast([], items[0]);
    }
    if items != [] && more != [] {
      var n := |more| - 1;
      assert more == more[..n] + [more[n]] && items + more == items + more[..n] + [more[n]];
      JoinedLast(items + more[..n], more[n]);
      JoinedLast(more[..n], more[n]);
      if n > 0 {
        JoinedJoins(items, more[..n]);
        Associates(Joined(items) + ",", Joined(more[..n]) + ",", more[n]);
        Associates(Joined(items) + ",", Joined(more[..n]), ",");
      } else {
        assert items + more[..0] == items;
      }
    }
  }

  lemma {:induction false} JoinedLast(items: seq<string>, item: string)
    ensures Joined([]) == ""
    ensures Joined(items + [item]) == if items == [] then item else Joined(items) + "," + item
  {
    assert (items + [item])[..|items|] == items;
  }

  /** The newest tools that are shown are the last twelve. */
  lemma LastTwelve(tools: seq<string>)
    ensures var shown := LastTools(tools);
            |shown| == (if |tools| < 12 then |tools| else 12) && tools == tools[..|tools| - |shown|] + shown
  {
  }

  /** Task and answer are shown up to their first 2,000 characters. */
  lemma CutIs(text: string)
    ensures Cut(text) <= text && |Cut(text)| == if |text| < 2_000 then |text| else 2_000
  {
  }

  /** A record is too large when neither its compact form nor its full form without
      tools stays within 2,000 characters. */
  lemma TooLargeIff(run: RunRecord, evidence: string, digest: string)
    requires |digest| == 64
    ensures TooLarge(run, evidence)
            <==> |CompactForm(run, digest)| > 2_000 && |FullForm(run, evidence, [])| > 2_000
  {
    hide FullForm, CompactForm, ValueSize;
    FormSizes(run, evidence, digest);
  }
}
