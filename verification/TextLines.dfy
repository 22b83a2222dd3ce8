/** Lines of text as Python's `splitlines` sees them, and joining them again. */
module TextLines {
  predicate IsBreak(c: char) {
    || '\U{0A}' <= c <= '\U{0D}'
    || '\U{1C}' <= c <= '\U{1E}'
    || c == '\U{85}' || c == '\U{2028}' || c == '\U{2029}'
  }

  predicate OneLine(s: string) {
    forall k | 0 <= k < |s| :: !IsBreak(s[k])
  }

  predicate AllOneLine(lines: seq<string>) {
    forall k | 0 <= k < |lines| :: OneLine(lines[k])
  }

  /** The position of the first line break, or the length of the text. */
  function FirstBreak(s: string): (n: nat)
    ensures n <= |s| && OneLine(s[..n]) && (n < |s| ==> IsBreak(s[n]))
  {
    if s == "" || IsBreak(s[0]) then 0
    else
      var n := 1 + FirstBreak(s[1..]);
      assert forall k | 0 <= k < n :: !IsBreak(s[k]) by {
        forall k | 0 <= k < n ensures !IsBreak(s[k]) {
          assert k > 0 ==> s[1..][..n - 1][k - 1] == s[k];
        }
      }
      n
  }

  /** A carriage return and a line feed are one break. */
  function BreakLength(s: string, n: nat): (l: nat)
    requires n < |s|
    ensures 0 < l && n + l <= |s|
  {
    if s[n] == '\r' && n + 1 < |s| && s[n + 1] == '\n' then 2 else 1
  }

  function Lines(s: string): (lines: seq<string>)
    ensures AllOneLine(lines)
    decreases |s|
  {
    if s == "" then []
    else
      var n := FirstBreak(s);
      if n == |s| then [s] else [s[..n]] + Lines(s[n + BreakLength(s, n)..])
  }

  /** `"\n".join(lines)`. */
  function Joined(lines: seq<string>): string {
    if lines == [] then ""
    else if |lines| == 1 then lines[0]
    else lines[0] + "\n" + Joined(lines[1..])
  }

  /** The lines, each closed by a line feed. */
  function Closed(lines: seq<string>): string {
    if lines == [] then "" else lines[0] + "\n" + Closed(lines[1..])
  }

  /** How a patched file is written: lines joined, with or without a last break. */
  function Rendered(lines: seq<string>, trailing: bool): string {
    Joined(lines) + if trailing && lines != [] then "\n" else ""
  }

  predicate EndsInBreak(s: string) {
    s != "" && (s[|s| - 1] == '\n' || s[|s| - 1] == '\r')
  }

  lemma {:induction false} JoinedClosed(lines: seq<string>)
    requires lines != []
    ensures Joined(lines) + "\n" == Closed(lines)
  {
    if |lines| == 1 {
      assert Closed(lines[1..]) == "";
    } else {
      JoinedClosed(lines[1..]);
      assert Joined(lines) + "\n" == lines[0] + "\n" + (Joined(lines[1..]) + "\n");
    }
  }

  lemma {:induction false} BreakAfter(line: string, rest: string)
    requires OneLine(line)
    ensures FirstBreak(line + "\n" + rest) == |line|
  {
    var s := line + "\n" + rest;
    if line == "" {
      assert s[0] == '\n';
    } else {
      BreakAfter(line[1..], rest);
      assert s[1..] == line[1..] + "\n" + rest;
      assert s[0] == line[0];
    }
  }

  lemma {:induction false} NoBreak(line: string)
    requires OneLine(line)
    ensures FirstBreak(line) == |line|
  {
    if line != "" {
      NoBreak(line[1..]);
    }
  }

  lemma {:induction false} FirstLine(line: string, rest: string)
    requires OneLine(line)
    ensures Lines(line + "\n" + rest) == [line] + Lines(rest)
  {
    var s := line + "\n" + rest;
    BreakAfter(line, rest);
    assert s[|line|] == '\n' && s[..|line|] == line && s[|line| + 1..] == rest;
  }

  /** Closing lines and splitting the text gives the lines back. */
  lemma {:induction false} ClosedLines(lines: seq<string>)
    requires AllOneLine(lines)
    ensures Lines(Closed(lines)) == lines
  {
    if lines != [] {
      assert OneLine(lines[0]);
      ClosedLines(lines[1..]);
      FirstLine(lines[0], Closed(lines[1..]));
    }
  }

  lemma {:induction false} LastLine(line: string)
    requires OneLine(line)
    ensures Lines(line) == if line == "" then [] else [line]
  {
    NoBreak(line);
  }

  /** The lines without an empty last one. */
  function Trimmed(lines: seq<string>): seq<string> {
    if lines != [] && lines[|lines| - 1] == "" then lines[..|lines| - 1] else lines
  }

  lemma TrimmedRest(lines: seq<string>)
    requires |lines| > 1
    ensures Trimmed(lines) == [lines[0]] + Trimmed(lines[1..])
  {
    var rest := lines[1..];
    assert lines == [lines[0]] + rest && rest[|rest| - 1] == lines[|lines| - 1];
    assert lines[..|lines| - 1] == [lines[0]] + rest[..|rest| - 1];
  }

  /** Without the last break the lines come back unless the last one is empty. */
  lemma {:induction false} JoinedLines(lines: seq<string>)
    requires AllOneLine(lines)
    ensures Lines(Joined(lines)) == Trimmed(lines)
  {
    hide Lines, OneLine;
    if lines == [] {
      NoLines();
    } else if |lines| == 1 {
      assert OneLine(lines[0]);
      LastLine(lines[0]);
      assert lines == [lines[0]] && lines[..0] == [];
    } else {
      assert OneLine(lines[0]);
      JoinedLines(lines[1..]);
      FirstLine(lines[0], Joined(lines[1..]));
      TrimmedRest(lines);
    }
  }

  lemma NoLines()
    ensures Lines("") == []
  {
  }

  /** A rendered file has exactly the lines it was rendered from, unless it ends
      in an empty line and has no closing break. */
  lemma RenderedLines(lines: seq<string>, trailing: bool)
    requires AllOneLine(lines)
    ensures Lines(Rendered(lines, trailing)) == lines <==> trailing || lines == [] || lines[|lines| - 1] != ""
  {
    if lines == [] {
      assert Rendered(lines, trailing) == "";
    } else if trailing {
      JoinedClosed(lines);
      ClosedLines(lines);
    } else {
      JoinedLines(lines);
      assert Rendered(lines, trailing) == Joined(lines);
    }
  }

  lemma {:induction false} ClosedEnds(lines: seq<string>)
    requires lines != []
    ensures EndsInBreak(Closed(lines))
  {
    if |lines| == 1 {
      assert Closed(lines) == lines[0] + "\n";
    } else {
      ClosedEnds(lines[1..]);
    }
  }

  lemma {:induction false} JoinedEnds(lines: seq<string>)
    requires AllOneLine(lines) && lines != [] && lines[|lines| - 1] != ""
    ensures !EndsInBreak(Joined(lines)) && Joined(lines) != ""
  {
    if |lines| == 1 {
      assert OneLine(lines[0]);
    } else {
      assert lines[1..][|lines| - 2] == lines[|lines| - 1];
      JoinedEnds(lines[1..]);
    }
  }

  /** A rendered file ends in a break exactly when it was asked to. */
  lemma RenderedEnds(lines: seq<string>, trailing: bool)
    requires AllOneLine(lines) && lines != [] && (trailing || lines[|lines| - 1] != "")
    ensures EndsInBreak(Rendered(lines, trailing)) == trailing
  {
    if trailing {
      JoinedClosed(lines);
      ClosedEnds(lines);
    } else {
      JoinedEnds(lines);
      assert Rendered(lines, trailing) == Joined(lines);
    }
  }

  // ---- line ends ----

  /** `text.replace("\r\n", "\n")`. */
  function LineFeeds(s: string): string {
    if |s| < 2 then s
    else if s[0] == '\r' && s[1] == '\n' then ['\n'] + LineFeeds(s[2..])
    else [s[0]] + LineFeeds(s[1..])
  }

  predicate NoReturn(s: string) {
    '\r' !in s
  }

  lemma {:induction false} NoReturnKept(s: string)
    requires NoReturn(s)
    ensures LineFeeds(s) == s
  {
    if |s| >= 2 {
      NoReturnKept(s[1..]);
    }
  }

  lemma {:induction false} ClosedNoReturn(lines: seq<string>)
    requires AllOneLine(lines)
    ensures NoReturn(Closed(lines))
  {
    if lines != [] {
      assert OneLine(lines[0]);
      ClosedNoReturn(lines[1..]);
    }
  }

  lemma {:induction false} JoinedNoReturn(lines: seq<string>)
    requires AllOneLine(lines)
    ensures NoReturn(Joined(lines))
  {
    if lines != [] {
      assert OneLine(lines[0]);
      JoinedNoReturn(lines[1..]);
    }
  }
}
