/** Which texts are patches, said without the reader: the reader accepts exactly the
    lines of this grammar and gives the patch they are written for. */
module PatchGrammar {
  import opened Text
  import opened Messages
  import opened TextLines
  import opened PatchApplying
  import opened PatchParsing

  // ---- hunk headers ----

  /** A start, and a count that may be left out. */
  datatype Range = Range(start: string, count: Option<string>)

  predicate Number(s: string) {
    s != "" && forall k | 0 <= k < |s| :: '0' <= s[k] <= '9'
  }

  predicate ValidRange(r: Range) {
    Number(r.start) && (r.count.Some? ==> Number(r.count.value))
  }

  function RangeText(r: Range): string {
    r.start + match r.count case None => "" case Some(count) => "," + count
  }

  /** An omitted count is one. */
  function CountOf(r: Range): nat
    requires ValidRange(r)
  {
    if r.count == None then 1 else DecimalValue(r.count.value)
  }

  function HeaderText(older: Range, newer: Range, tail: string): string {
    "@@ -" + RangeText(older) + " +" + RangeText(newer) + " @@" + tail
  }

  /** The line is a hunk header with these numbers, whatever stands behind it. */
  ghost predicate HeaderSays(line: string, h: Header) {
    exists older, newer, tail ::
      HeaderMeans(line, h, older, newer, tail)
  }

  predicate HeaderMeans(line: string, h: Header, older: Range, newer: Range, tail: string) {
    && ValidRange(older) && ValidRange(newer) && line == HeaderText(older, newer, tail)
    && h == Header(DecimalValue(older.start), CountOf(older), DecimalValue(newer.start), CountOf(newer))
  }

  lemma {:induction false} DigitsEnd(digits: string, rest: string)
    requires AllDigits(digits) && (rest != "" ==> !IsDigit(rest[0]))
    ensures DigitCount(digits + rest) == |digits|
  {
    if digits == "" {
      assert digits + rest == rest;
    } else {
      assert (digits + rest)[1..] == digits[1..] + rest;
      DigitsEnd(digits[1..], rest);
    }
  }

  lemma {:induction false} NumberReads(s: string, rest: string)
    requires Number(s) && (rest != "" ==> !IsDigit(rest[0]))
    ensures ScanNumber(s + rest) == Some(Scan(DecimalValue(s), rest))
  {
    DigitsEnd(s, rest);
    assert (s + rest)[..|s|] == s && (s + rest)[|s|..] == rest;
  }

  /** A range is read up to the space behind it. */
  lemma RangeReads(r: Range, rest: string)
    requires ValidRange(r) && rest != "" && rest[0] == ' '
    ensures ScanNumber(RangeText(r) + rest).Some?
    ensures var start := ScanNumber(RangeText(r) + rest).value;
            start.value == DecimalValue(r.start) && ScanCount(start.rest) == Scan(CountOf(r), rest)
  {
    hide ScanNumber;
    match r.count
    case None =>
      assert RangeText(r) + rest == r.start + rest;
      NumberReads(r.start, rest);
    case Some(count) =>
      assert RangeText(r) + rest == r.start + ("," + (count + rest));
      NumberReads(r.start, "," + (count + rest));
      assert ("," + (count + rest))[1..] == count + rest;
      NumberReads(count, rest);
  }

  lemma HeaderReads(older: Range, newer: Range, tail: string)
    requires ValidRange(older) && ValidRange(newer)
    ensures ParseHeader(HeaderText(older, newer, tail))
            == Some(Header(DecimalValue(older.start), CountOf(older), DecimalValue(newer.start), CountOf(newer)))
  {
    hide ScanNumber, ScanCount, RangeText;
    var line := HeaderText(older, newer, tail);
    var end := " @@" + tail;
    var middle := " +" + (RangeText(newer) + end);
    assert line == "@@ -" + (RangeText(older) + middle) && line[4..] == RangeText(older) + middle;
    RangeReads(older, middle);
    assert middle[2..] == RangeText(newer) + end;
    RangeReads(newer, end);
  }

  /** What a range was read from. */
  lemma RangeWritten(s: string) returns (r: Range)
    requires ScanNumber(s).Some?
    ensures ValidRange(r)
    ensures var start := ScanNumber(s).value;
            && start.value == DecimalValue(r.start) && ScanCount(start.rest).value == CountOf(r)
            && s == RangeText(r) + ScanCount(start.rest).rest
  {
    hide ScanNumber, DecimalValue;
    var number := NumberWritten(s);
    var rest := ScanNumber(s).value.rest;
    if StartsWith(rest, ",") && ScanNumber(rest[1..]).Some? {
      var count := NumberWritten(rest[1..]);
      r := Range(number, Some(count));
      assert rest == "," + (count + ScanCount(rest).rest);
    } else {
      r := Range(number, None);
    }
  }

  lemma NumberWritten(s: string) returns (number: string)
    requires ScanNumber(s).Some?
    ensures Number(number) && ScanNumber(s).value.value == DecimalValue(number)
    ensures s == number + ScanNumber(s).value.rest
  {
    number := s[..DigitCount(s)];
  }

  lemma HeaderWritten(line: string)
    requires ParseHeader(line).Some?
    ensures HeaderSays(line, ParseHeader(line).value)
  {
    hide ScanNumber, ScanCount, RangeText;
    var older := RangeWritten(line[4..]);
    var middle := ScanCount(ScanNumber(line[4..]).value.rest).rest;
    var newer := RangeWritten(middle[2..]);
    var end := ScanCount(ScanNumber(middle[2..]).value.rest).rest;
    var tail := end[3..];
    assert line == "@@ -" + line[4..] && middle == " +" + middle[2..] && end == " @@" + tail;
    assert line == HeaderText(older, newer, tail);
    assert HeaderMeans(line, ParseHeader(line).value, older, newer, tail);
  }

  /** The header reader accepts exactly the headers, and an omitted count is one. */
  lemma HeaderIff(line: string, h: Header)
    ensures ParseHeader(line) == Some(h) <==> HeaderSays(line, h)
  {
    hide ParseHeader, HeaderText;
    if ParseHeader(line).Some? {
      HeaderWritten(line);
    }
    if HeaderSays(line, h) {
      var older, newer, tail :| HeaderMeans(line, h, older, newer, tail);
      HeaderReads(older, newer, tail);
    }
  }

  // ---- bodies ----

  predicate IsMark(line: string) {
    line == "\\ No newline at end of file"
  }

  /** A line of a hunk: kept, removed, added, or the mark of a missing line break. */
  predicate InBody(line: string) {
    || IsMark(line)
    || (line != "" && line[0] in {' ', '+', '-'} && !StartsWith(line, "--- "))
  }

  function WithoutMarks(lines: seq<string>): seq<string> {
    if lines == [] then []
    else if IsMark(lines[0]) then WithoutMarks(lines[1..])
    else [lines[0]] + WithoutMarks(lines[1..])
  }

  predicate AllInBody(lines: seq<string>) {
    forall k | 0 <= k < |lines| :: InBody(lines[k])
  }

  /** What ends a body: the next hunk, the next file, or nothing more. */
  predicate AtBorder(rest: seq<string>) {
    rest == [] || StartsWith(rest[0], "@@ ") || StartsWith(rest[0], "--- ") || StartsWith(rest[0], "diff ")
  }

  lemma InBodyIs(line: string)
    ensures InBody(line) <==> (line == NO_NEWLINE || BodyLine(line)) && !EndsBody(line)
  {
    if line != "" && StartsWith(line, "@@ ") {
      assert line[0] == "@@ "[0];
    }
    if line != "" && StartsWith(line, "diff ") {
      assert line[0] == "diff "[0];
    }
    assert NO_NEWLINE[0] == '\\' && "--- "[0] == '-' && "@@ "[0] == '@' && "diff "[0] == 'd';
  }

  lemma {:induction false} BodyReads(front: seq<string>, rest: seq<string>)
    requires AllInBody(front) && AtBorder(rest)
    ensures ParseBody(front + rest) == Ok((WithoutMarks(front), rest))
  {
    var all := front + rest;
    if front == [] {
      assert all == rest;
    } else {
      assert all[0] == front[0] && all[1..] == front[1..] + rest;
      InBodyIs(front[0]);
      BodyReads(front[1..], rest);
    }
  }

  lemma {:induction false} BodyWritten(ls: seq<string>) returns (n: nat)
    requires ParseBody(ls).Ok?
    ensures n <= |ls| && AllInBody(ls[..n]) && AtBorder(ls[n..])
    ensures ParseBody(ls).value == (WithoutMarks(ls[..n]), ls[n..])
  {
    if ls == [] || EndsBody(ls[0]) {
      n := 0;
    } else {
      InBodyIs(ls[0]);
      var m := BodyWritten(ls[1..]);
      n := m + 1;
      assert ls[..n] == [ls[0]] + ls[1..][..m] && ls[n..] == ls[1..][m..];
      assert ls[..n][1..] == ls[1..][..m];
    }
  }

  // ---- hunks ----

  /** How many lines of a body stand on one side. */
  function Side(body: seq<string>, mark: char): nat {
    if body == [] then 0
    else Side(body[..|body| - 1], mark) + if body[|body| - 1] != "" && body[|body| - 1][0] in {' ', mark} then 1 else 0
  }

  lemma {:induction false} SidesAre(body: seq<string>)
    requires AllBodyLines(body)
    ensures |OldSide(body)| == Side(body, '-') && |NewSide(body)| == Side(body, '+')
  {
    if body != [] {
      var n := |body| - 1;
      SidesAre(body[..n]);
      assert BodyLine(body[n]);
    }
  }

  /** The lines are this hunk: its header, and a body that has the header's counts. */
  ghost predicate WrittenHunk(ls: seq<string>, h: Hunk) {
    && ls != [] && HeaderSays(ls[0], Header(h.oldStart, h.oldCount, h.newStart, h.newCount))
    && AllInBody(ls[1..]) && WithoutMarks(ls[1..]) == h.body
    && Side(h.body, '-') == h.oldCount && Side(h.body, '+') == h.newCount
  }

  lemma {:induction false} MarkedBody(lines: seq<string>)
    requires AllInBody(lines)
    ensures AllBodyLines(WithoutMarks(lines))
  {
    if lines != [] {
      InBodyIs(lines[0]);
      MarkedBody(lines[1..]);
    }
  }

  lemma HunkReads(ls: seq<string>, h: Hunk, rest: seq<string>)
    requires WrittenHunk(ls, h) && AtBorder(rest)
    ensures ParseHunk(ls + rest) == Ok((h, rest))
  {
    hide ParseHeader, ParseBody, HeaderSays, AllInBody, AtBorder, WithoutMarks;
    HeaderIff(ls[0], Header(h.oldStart, h.oldCount, h.newStart, h.newCount));
    BodyReads(ls[1..], rest);
    MarkedBody(ls[1..]);
    SidesAre(h.body);
    assert (ls + rest)[0] == ls[0] && (ls + rest)[1..] == ls[1..] + rest;
  }

  lemma HunkWritten(ls: seq<string>) returns (n: nat)
    requires ls != [] && ParseHunk(ls).Ok?
    ensures 0 < n <= |ls| && WrittenHunk(ls[..n], ParseHunk(ls).value.0) && AtBorder(ls[n..])
    ensures ParseHunk(ls).value.1 == ls[n..]
  {
    hide ParseHeader, ParseBody, HeaderSays, AllInBody, AtBorder, WithoutMarks;
    var m := BodyWritten(ls[1..]);
    n := m + 1;
    HeaderIff(ls[0], ParseHeader(ls[0]).value);
    assert ls[..n][1..] == ls[1..][..m] && ls[1..][m..] == ls[n..];
    MarkedBody(ls[1..][..m]);
    SidesAre(WithoutMarks(ls[1..][..m]));
  }

  ghost predicate WrittenHunks(ls: seq<string>, hunks: seq<Hunk>) {
    if hunks == [] then ls == []
    else exists n | 0 < n <= |ls| :: WrittenHunk(ls[..n], hunks[0]) && WrittenHunks(ls[n..], hunks[1..])
  }

  /** What follows the hunks of a file: another file, or nothing more. */
  predicate AtFileBorder(rest: seq<string>) {
    rest == [] || StartsWith(rest[0], "--- ") || StartsWith(rest[0], "diff ")
  }

  lemma HeaderStarts(line: string, h: Header)
    requires HeaderSays(line, h)
    ensures StartsWith(line, "@@ ")
  {
    var older, newer, tail :| HeaderMeans(line, h, older, newer, tail);
    assert line[..4] == "@@ -" && line[..3] == "@@ -"[..3] == "@@ ";
  }

  lemma {:induction false} HunksStart(ls: seq<string>, hunks: seq<Hunk>, rest: seq<string>)
    requires WrittenHunks(ls, hunks) && AtFileBorder(rest)
    ensures AtBorder(ls + rest) && (hunks != [] ==> ls != [] && StartsWith(ls[0], "@@ "))
  {
    hide WrittenHunk;
    if hunks == [] {
      assert ls + rest == rest;
    } else {
      var n :| 0 < n <= |ls| && WrittenHunk(ls[..n], hunks[0]) && WrittenHunks(ls[n..], hunks[1..]);
      FirstIsHeader(ls[..n], hunks[0]);
    }
  }

  lemma FirstIsHeader(ls: seq<string>, h: Hunk)
    requires WrittenHunk(ls, h)
    ensures ls != [] && StartsWith(ls[0], "@@ ")
  {
    HeaderStarts(ls[0], Header(h.oldStart, h.oldCount, h.newStart, h.newCount));
  }

  lemma NoHunkHere(rest: seq<string>)
    requires AtFileBorder(rest)
    ensures rest != [] ==> !StartsWith(rest[0], "@@ ")
  {
    assert "@@ "[0] == '@' && "--- "[0] == '-' && "diff "[0] == 'd';
  }

  lemma {:induction false} HunksRead(ls: seq<string>, hunks: seq<Hunk>, rest: seq<string>)
    requires WrittenHunks(ls, hunks) && AtFileBorder(rest)
    ensures ParseHunks(ls + rest) == Ok((hunks, rest))
    decreases |hunks|
  {
    hide WrittenHunk, ParseHunk, AtBorder, AtFileBorder;
    if hunks == [] {
      assert ls + rest == rest;
      NoHunkHere(rest);
    } else {
      var n :| 0 < n <= |ls| && WrittenHunk(ls[..n], hunks[0]) && WrittenHunks(ls[n..], hunks[1..]);
      assert ls + rest == ls[..n] + (ls[n..] + rest);
      HunksStart(ls, hunks, rest);
      HunksStart(ls[n..], hunks[1..], rest);
      HunkReads(ls[..n], hunks[0], ls[n..] + rest);
      HunksRead(ls[n..], hunks[1..], rest);
      assert [hunks[0]] + hunks[1..] == hunks && (ls + rest)[0] == ls[0];
    }
  }

  lemma {:induction false} HunksWritten(ls: seq<string>) returns (n: nat)
    requires ParseHunks(ls).Ok?
    ensures n <= |ls| && WrittenHunks(ls[..n], ParseHunks(ls).value.0) && ParseHunks(ls).value.1 == ls[n..]
    ensures ls[n..] != [] ==> !StartsWith(ls[n], "@@ ")
    ensures n > 0 ==> AtFileBorder(ls[n..])
    decreases |ls|
  {
    hide WrittenHunk, ParseHunk;
    if ls == [] || !StartsWith(ls[0], "@@ ") {
      n := 0;
    } else {
      var m := HunkWritten(ls);
      var rest := ls[m..];
      var k := HunksWritten(rest);
      n := m + k;
      var hunks := ParseHunks(ls).value.0;
      assert ls[..n][..m] == ls[..m] && ls[..n][m..] == rest[..k] && ls[n..] == rest[k..];
      assert hunks[1..] == ParseHunks(rest).value.0;
    }
  }

  // ---- names ----

  predicate Blank(s: string) {
    forall k | 0 <= k < |s| :: IsSpace(s[k])
  }

  /** The name between the spaces around it, up to the first tab. */
  predicate Core(value: string, lead: string, core: string, trail: string, tail: string) {
    && value == lead + core + trail + tail && Blank(lead) && Blank(trail) && '\t' !in lead + core + trail
    && (tail == "" || tail[0] == '\t')
    && (core != "" ==> !IsSpace(core[0]) && !IsSpace(core[|core| - 1]))
    && (core == "" ==> trail == "")
  }

  /** The name without the mark of its side. */
  function Unsided(core: string): string {
    if core[..if |core| < 2 then |core| else 2] in {"a/", "b/"} then core[2..] else core
  }

  /** Nothing, or a path that stays inside the workspace, in its normal form. */
  predicate Names(core: string, path: Option<string>) {
    if core == "/dev/null" then path == None
    else
      var raw := Unsided(core);
      raw != "" && raw[0] != '"' && Inside(raw) && path == Some(Posix(raw))
  }

  ghost predicate NameSays(value: string, path: Option<string>) {
    exists lead, core, trail, tail :: Core(value, lead, core, trail, tail) && Names(core, path)
  }

  lemma {:induction false} CutAtTab(a: string, b: string)
    requires '\t' !in a && (b == "" || b[0] == '\t')
    ensures BeforeTab(a + b) == a
  {
    if a == "" {
      assert a + b == b;
    } else {
      assert (a + b)[1..] == a[1..] + b;
      CutAtTab(a[1..], b);
    }
  }

  lemma {:induction false} LeadGoes(lead: string, s: string)
    requires Blank(lead) && (s != "" ==> !IsSpace(s[0]))
    ensures StripLeft(lead + s) == s
  {
    hide IsSpace;
    if lead == "" {
      assert lead + s == s;
    } else {
      assert (lead + s)[1..] == lead[1..] + s;
      LeadGoes(lead[1..], s);
    }
  }

  lemma {:induction false} TrailGoes(s: string, trail: string)
    requires Blank(trail) && (s != "" ==> !IsSpace(s[|s| - 1]))
    ensures StripRight(s + trail) == s
  {
    hide IsSpace;
    if trail == "" {
      assert s + trail == s;
    } else {
      assert (s + trail)[..|s + trail| - 1] == s + trail[..|trail| - 1];
      TrailGoes(s, trail[..|trail| - 1]);
    }
  }

  lemma {:induction false} CoreReads(value: string, lead: string, core: string, trail: string, tail: string)
    requires Core(value, lead, core, trail, tail)
    ensures Strip(BeforeTab(value)) == core
  {
    hide IsSpace, BeforeTab, StripLeft, StripRight;
    CutAtTab(lead + core + trail, tail);
    assert lead + core + trail == lead + (core + trail);
    LeadGoes(lead, core + trail);
    TrailGoes(core, trail);
  }

  lemma {:induction false} LeadWritten(s: string) returns (lead: string)
    ensures s == lead + StripLeft(s) && Blank(lead)
    ensures StripLeft(s) != "" ==> !IsSpace(StripLeft(s)[0])
  {
    hide IsSpace;
    if s != "" && IsSpace(s[0]) {
      var rest := LeadWritten(s[1..]);
      lead := [s[0]] + rest;
    } else {
      lead := "";
    }
  }

  lemma {:induction false} TrailWritten(s: string) returns (trail: string)
    ensures s == StripRight(s) + trail && Blank(trail)
    ensures StripRight(s) != "" ==> !IsSpace(StripRight(s)[|StripRight(s)| - 1])
  {
    hide IsSpace;
    if s != "" && IsSpace(s[|s| - 1]) {
      var rest := TrailWritten(s[..|s| - 1]);
      trail := rest + [s[|s| - 1]];
    } else {
      trail := "";
    }
  }

  lemma CoreWritten(value: string) returns (lead: string, trail: string, tail: string)
    ensures Core(value, lead, Strip(BeforeTab(value)), trail, tail)
  {
    hide IsSpace, StripLeft, StripRight, BeforeTab, Core;
    BeforeTabPrefix(value);
    TabBehind(value);
    var cut := BeforeTab(value);
    tail := value[|cut|..];
    assert value == cut + tail;
    lead := LeadWritten(cut);
    trail := TrailWritten(StripLeft(cut));
    CoreMade(value, cut, lead, Strip(cut), trail, tail);
  }

  lemma CoreMade(value: string, cut: string, lead: string, core: string, trail: string, tail: string)
    requires value == cut + tail && cut == lead + (core + trail) && '\t' !in cut && (tail == "" || tail[0] == '\t')
    requires Blank(lead) && Blank(trail) && (core + trail != "" ==> !IsSpace((core + trail)[0]))
    requires core != "" ==> !IsSpace(core[|core| - 1])
    ensures Core(value, lead, core, trail, tail)
  {
    hide IsSpace;
    assert lead + (core + trail) == lead + core + trail;
    if core == "" {
      assert core + trail == trail;
    } else {
      assert (core + trail)[0] == core[0];
    }
  }

  lemma {:induction false} TabBehind(value: string)
    ensures |BeforeTab(value)| <= |value|
    ensures |BeforeTab(value)| < |value| ==> value[|BeforeTab(value)|] == '\t'
  {
    if value != "" && value[0] != '\t' {
      TabBehind(value[1..]);
    }
  }

  /** A header name means a path exactly if this grammar says so. */
  lemma NameIff(value: string, path: Option<string>)
    ensures DiffPath(value) == Ok(path) <==> NameSays(value, path)
  {
    hide Strip, BeforeTab, Inside, Posix, Core;
    var lead, trail, tail := CoreWritten(value);
    var core := Strip(BeforeTab(value));
    UnsidedIs(core);
    if NameSays(value, path) {
      var l, c, t, u :| Core(value, l, c, t, u) && Names(c, path);
      CoreReads(value, l, c, t, u);
    }
  }

  lemma UnsidedIs(core: string)
    ensures Unsided(core) == if StartsWith(core, "a/") || StartsWith(core, "b/") then core[2..] else core
  {
    if |core| >= 2 {
      assert core[..2] == [core[0], core[1]] && "a/" == ['a', '/'] && "b/" == ['b', '/'];
    }
  }

  // ---- files ----

  /** The lines are this file: its two names, and at least one hunk. */
  ghost predicate WrittenFile(ls: seq<string>, item: FilePatch) {
    && |ls| > 2 && StartsWith(ls[0], "--- ") && StartsWith(ls[1], "+++ ")
    && NameSays(ls[0][4..], item.oldPath) && NameSays(ls[1][4..], item.newPath)
    && (item.oldPath != None && item.newPath != None ==> item.oldPath == item.newPath)
    && item.hunks != [] && WrittenHunks(ls[2..], item.hunks)
  }

  lemma FileReads(ls: seq<string>, item: FilePatch, rest: seq<string>)
    requires WrittenFile(ls, item) && AtFileBorder(rest)
    ensures ParseFile(ls + rest) == Ok((item, rest))
  {
    hide DiffPath, ParseHunks, NameSays, WrittenHunks, AtFileBorder;
    NameIff(ls[0][4..], item.oldPath);
    NameIff(ls[1][4..], item.newPath);
    HunksRead(ls[2..], item.hunks, rest);
    assert (ls + rest)[0] == ls[0] && (ls + rest)[1] == ls[1] && (ls + rest)[2..] == ls[2..] + rest;
  }

  lemma FileWritten(ls: seq<string>) returns (n: nat)
    requires ls != [] && ParseFile(ls).Ok?
    ensures n <= |ls| && WrittenFile(ls[..n], ParseFile(ls).value.0) && AtFileBorder(ls[n..])
    ensures ParseFile(ls).value.1 == ls[n..]
  {
    hide DiffPath, ParseHunks, NameSays, AtFileBorder;
    var item := ParseFile(ls).value.0;
    NameIff(ls[0][4..], item.oldPath);
    NameIff(ls[1][4..], item.newPath);
    var m := HunksWritten(ls[2..]);
    n := m + 2;
    assert ls[..n][2..] == ls[2..][..m] && ls[2..][m..] == ls[n..];
    assert m > 0;
  }

  /** Lines that say nothing. */
  predicate Noise(line: string) {
    StartsWith(line, "diff ") || StartsWith(line, "index ")
  }

  /** The lines are these files in order, with noise ahead of each and at the end. */
  ghost predicate WrittenFiles(ls: seq<string>, items: seq<FilePatch>) {
    if items == [] then forall k | 0 <= k < |ls| :: Noise(ls[k])
    else exists m: nat, n: nat | m <= n <= |ls| :: FirstFile(ls, m, n, items[0]) && WrittenFiles(ls[n..], items[1..])
  }

  ghost predicate FirstFile(ls: seq<string>, m: nat, n: nat, item: FilePatch)
    requires m <= n <= |ls|
  {
    && (forall k | 0 <= k < m :: Noise(ls[k])) && WrittenFile(ls[m..n], item) && AtFileBorder(ls[n..])
  }

  lemma NotNoise(line: string)
    ensures StartsWith(line, "--- ") ==> !Skipped(line)
    ensures Noise(line) <==> Skipped(line)
  {
    assert "--- "[0] == '-' && "diff "[0] == 'd' && "index "[0] == 'i';
  }

  lemma {:induction false} NoiseReads(ls: seq<string>, m: nat, n: nat)
    requires m <= |ls| && forall k | 0 <= k < m :: Noise(ls[k])
    ensures ParseFiles(ls, n) == ParseFiles(ls[m..], n)
  {
    if m > 0 {
      NotNoise(ls[0]);
      NoiseReads(ls[1..], m - 1, n);
      assert ls[1..][m - 1..] == ls[m..];
    } else {
      assert ls[0..] == ls;
    }
  }

  /** The first file is read, whatever follows it. */
  lemma FirstReads(ls: seq<string>, m: nat, e: nat, item: FilePatch, n: nat)
    requires m <= e <= |ls| && FirstFile(ls, m, e, item)
    ensures ParseFiles(ls, n)
            == if n + 1 > MAX_PATCH_FILES then Err(TooManyFiles)
               else var rest := ParseFiles(ls[e..], n + 1); if rest.Err? then rest else Ok([item] + rest.value)
  {
    hide ParseFile, WrittenHunks, NameSays, AtFileBorder;
    NoiseReads(ls, m, n);
    var file, rest := ls[m..e], ls[e..];
    assert ls[m..] == file + rest;
    FileReads(file, item, rest);
    NotNoise(file[0]);
  }

  lemma {:induction false} FilesRead(ls: seq<string>, items: seq<FilePatch>, n: nat)
    requires WrittenFiles(ls, items)
    ensures ParseFiles(ls, n)
            == if n + |items| > MAX_PATCH_FILES && items != [] then Err(TooManyFiles) else Ok(items)
    decreases |items|
  {
    hide ParseFiles, FirstFile;
    if items == [] {
      NoiseReads(ls, |ls|, n);
      NoFiles(n);
      assert ls[|ls|..] == [];
    } else {
      var m: nat, e: nat :| m <= e <= |ls| && FirstFile(ls, m, e, items[0]) && WrittenFiles(ls[e..], items[1..]);
      FirstReads(ls, m, e, items[0], n);
      FilesRead(ls[e..], items[1..], n + 1);
      assert [items[0]] + items[1..] == items;
    }
  }

  lemma {:induction false} NoFiles(n: nat)
    ensures ParseFiles([], n) == Ok([])
  {
  }

  lemma {:induction false} FilesWritten(ls: seq<string>, n: nat)
    requires ParseFiles(ls, n).Ok?
    ensures WrittenFiles(ls, ParseFiles(ls, n).value)
    decreases |ls|
  {
    hide ParseFile, WrittenFile, AtFileBorder, Noise;
    if ls != [] {
      var items := ParseFiles(ls, n).value;
      NotNoise(ls[0]);
      if Skipped(ls[0]) {
        FilesWritten(ls[1..], n);
        MoreNoise(ls, items);
      } else {
        var e := FileWritten(ls);
        FilesWritten(ls[e..], n + 1);
        assert items[1..] == ParseFiles(ls[e..], n + 1).value && ls[0..e] == ls[..e];
        assert FirstFile(ls, 0, e, items[0]);
      }
    }
  }

  lemma {:induction false} MoreNoise(ls: seq<string>, items: seq<FilePatch>)
    requires ls != [] && Noise(ls[0]) && WrittenFiles(ls[1..], items)
    ensures WrittenFiles(ls, items)
  {
    hide WrittenFile, AtFileBorder, Noise;
    if items == [] {
      forall k | 0 <= k < |ls| ensures Noise(ls[k]) {
        assert k > 0 ==> ls[k] == ls[1..][k - 1];
      }
    } else {
      var m: nat, e: nat :|
        m <= e <= |ls[1..]| && FirstFile(ls[1..], m, e, items[0]) && WrittenFiles(ls[1..][e..], items[1..]);
      assert ls[1..][m..e] == ls[m + 1..e + 1] && ls[1..][e..] == ls[e + 1..];
      forall k | 0 <= k < m + 1 ensures Noise(ls[k]) {
        assert k > 0 ==> ls[k] == ls[1..][k - 1];
      }
      assert FirstFile(ls, m + 1, e + 1, items[0]);
    }
  }

  // ---- whole patches ----

  // ---- paths ----

  /** The components of a path that say something. */
  function Meaningful(parts: seq<string>): seq<string> {
    if parts == [] then []
    else if parts[0] in {"", "."} then Meaningful(parts[1..])
    else [parts[0]] + Meaningful(parts[1..])
  }

  /** A path is normalised by leaving out its empty and its dot components. */
  lemma {:induction false} PartsAre(parts: seq<string>)
    requires forall k | 0 <= k < |parts| :: '/' !in parts[k]
    ensures Parts(Slashed(parts)) == Meaningful(parts)
  {
    hide Parts;
    if parts == [] {
      EmptyParts();
    } else if |parts| == 1 {
      PartsLast(parts[0]);
      assert parts[1..] == [] && Meaningful(parts[1..]) == [];
      assert [parts[0]] + [] == [parts[0]];
    } else {
      PartsAre(parts[1..]);
      ComponentThen(parts[0], Slashed(parts[1..]));
    }
  }

  lemma {:induction false} ComponentThen(part: string, rest: string)
    requires '/' !in part
    ensures Parts(part + "/" + rest) == if part in {"", "."} then Parts(rest) else [part] + Parts(rest)
  {
    var s := part + "/" + rest;
    HeadOf(part, rest);
    assert s[|part| + 1..] == rest;
    assert [] + Parts(rest) == Parts(rest);
  }

  /** A path leaves the workspace exactly if it is absolute or has a component that goes
      up. */
  lemma {:induction false} InsideIff(parts: seq<string>)
    requires forall k | 0 <= k < |parts| :: '/' !in parts[k]
    ensures Inside(Slashed(parts)) <==> Slashed(parts) != "" && Slashed(parts)[0] != '/' && ".." !in parts
  {
    PartsAre(parts);
    UpIsMeaningful(parts);
  }

  lemma {:induction false} UpIsMeaningful(parts: seq<string>)
    ensures ".." in Meaningful(parts) <==> ".." in parts
  {
    if parts != [] {
      UpIsMeaningful(parts[1..]);
      assert parts == [parts[0]] + parts[1..];
    }
  }

  // ---- refusals ----

  /** Why a name is refused: it is empty or quoted, or it leaves the workspace. */
  lemma NameRefused(value: string, lead: string, core: string, trail: string, tail: string)
    requires Core(value, lead, core, trail, tail) && core != "/dev/null"
    ensures var raw := Unsided(core);
            DiffPath(value) == if raw == "" || raw[0] == '"' then Err(Invalid)
                               else if !Inside(raw) then Err(OutsideWorkspace)
                               else Ok(Some(Posix(raw)))
  {
    hide Core, Inside, Posix;
    CoreReads(value, lead, core, trail, tail);
    UnsidedIs(core);
  }

  lemma BorderBehind(front: seq<string>, rest: seq<string>)
    requires AtFileBorder(front) && AtFileBorder(rest)
    ensures AtFileBorder(front + rest)
  {
    if front == [] {
      assert front + rest == rest;
    }
  }

  lemma FirstThen(front: seq<string>, m: nat, e: nat, item: FilePatch, rest: seq<string>)
    requires m <= e <= |front| && FirstFile(front, m, e, item) && AtFileBorder(rest)
    ensures FirstFile(front + rest, m, e, item) && (front + rest)[e..] == front[e..] + rest
  {
    hide WrittenFile, AtFileBorder, Noise;
    assert (front + rest)[m..e] == front[m..e] && (front + rest)[e..] == front[e..] + rest;
    BorderBehind(front[e..], rest);
    forall k | 0 <= k < m ensures Noise((front + rest)[k]) {
      assert (front + rest)[k] == front[k];
    }
  }

  lemma OneBehind<T>(first: T, more: seq<T>, rest: seq<T>)
    ensures [first] + (more + rest) == ([first] + more) + rest
  {
  }

  /** Behind files that are read, everything depends on what follows. */
  lemma {:induction false} FilesThen(front: seq<string>, items: seq<FilePatch>, rest: seq<string>, n: nat)
    requires WrittenFiles(front, items) && AtFileBorder(rest) && n + |items| <= 50
    ensures ParseFiles(front + rest, n)
            == var later := ParseFiles(rest, n + |items|); if later.Err? then later else Ok(items + later.value)
    decreases |items|
  {
    hide ParseFiles, FirstFile, AtFileBorder;
    var ls := front + rest;
    if items == [] {
      NoiseReads(ls, |front|, n);
      assert ls[|front|..] == rest;
      assert ParseFiles(rest, n).Ok? ==> [] + ParseFiles(rest, n).value == ParseFiles(rest, n).value;
    } else {
      var m: nat, e: nat :|
        m <= e <= |front| && FirstFile(front, m, e, items[0]) && WrittenFiles(front[e..], items[1..]);
      FirstThen(front, m, e, items[0], rest);
      FirstReads(ls, m, e, items[0], n);
      FilesThen(front[e..], items[1..], rest, n + 1);
      var later := ParseFiles(rest, n + |items|);
      if later.Ok? {
        OneBehind(items[0], items[1..], later.value);
        assert [items[0]] + items[1..] == items;
      }
    }
  }

  /** A file whose names mean two different paths refuses the patch. */
  lemma {:induction false} RenameRefused(
    front: seq<string>, items: seq<FilePatch>, older: string, newer: string, rest: seq<string>, a: string, b: string)
    requires WrittenFiles(front, items) && |items| <= 50
    requires NameSays(older, Some(a)) && NameSays(newer, Some(b)) && a != b
    ensures ParseFiles(front + (["--- " + older, "+++ " + newer] + rest), 0) == Err(RenameDenied)
  {
    hide DiffPath, ParseHunks, NameSays, WrittenFiles;
    var file := ["--- " + older, "+++ " + newer] + rest;
    FilesThen(front, items, file, 0);
    NameIff(older, Some(a));
    NameIff(newer, Some(b));
    assert file[0][4..] == older && file[1][4..] == newer && file[0][..4] == "--- " && file[1][..4] == "+++ ";
    NotNoise(file[0]);
  }

  // ---- texts ----

  /** Lines closed by a carriage return and a line feed. */
  function ClosedByReturns(lines: seq<string>): string {
    if lines == [] then "" else lines[0] + "\r\n" + ClosedByReturns(lines[1..])
  }

  lemma {:induction false} FeedsThen(line: string, rest: string)
    requires OneLine(line)
    ensures LineFeeds(line + "\r\n" + rest) == line + "\n" + LineFeeds(rest)
  {
    var s := line + "\r\n" + rest;
    if line == "" {
      assert s[0] == '\r' && s[1] == '\n' && s[2..] == rest;
      assert "\n" == ['\n'];
    } else {
      assert s[0] == line[0] && !IsBreak(line[0]) && s[1..] == line[1..] + "\r\n" + rest;
      assert OneLine(line[1..]);
      FeedsThen(line[1..], rest);
      assert [line[0]] + (line[1..] + "\n" + LineFeeds(rest)) == line + "\n" + LineFeeds(rest);
    }
  }

  lemma {:induction false} ReturnsGo(lines: seq<string>)
    requires AllOneLine(lines)
    ensures LineFeeds(ClosedByReturns(lines)) == Closed(lines)
  {
    if lines != [] {
      assert OneLine(lines[0]);
      FeedsThen(lines[0], ClosedByReturns(lines[1..]));
      ReturnsGo(lines[1..]);
    }
  }

  /** A patch may close its lines either way. */
  lemma {:induction false} EitherEnding(lines: seq<string>, fold: string -> string)
    requires AllOneLine(lines)
    ensures ParseDiff(ClosedByReturns(lines), fold) == ParseDiff(Closed(lines), fold) == ParseLines(lines, fold)
  {
    hide ParseLines, Lines, LineFeeds;
    ReturnsGo(lines);
    ClosedNoReturn(lines);
    NoReturnKept(Closed(lines));
    ClosedLines(lines);
  }

  /** A text is read as a patch exactly if its lines are written for it, it has 1 to 50
      files, and no two of them have the same path up to case. */
  lemma {:induction false} ReadsIff(text: string, fold: string -> string, items: seq<FilePatch>)
    ensures ParseDiff(text, fold) == Ok(items)
            <==> WrittenFiles(Lines(LineFeeds(text)), items) && 1 <= |items| <= 50
                 && forall i, j | 0 <= i < j < |items| :: fold(PathOf(items[i])) != fold(PathOf(items[j]))
  {
    hide ParseFiles, WrittenFiles, Lines, LineFeeds, PathOf;
    var ls := Lines(LineFeeds(text));
    if ParseFiles(ls, 0).Ok? {
      FilesWritten(ls, 0);
      FilesBounded(ls, 0);
    }
    if WrittenFiles(ls, items) {
      FilesRead(ls, items, 0);
    }
    FoldedDistinct(items, fold);
  }

  lemma FoldedDistinct(items: seq<FilePatch>, fold: string -> string)
    ensures Distinct(FoldedPaths(items, fold))
            <==> forall i, j | 0 <= i < j < |items| :: fold(PathOf(items[i])) != fold(PathOf(items[j]))
  {
    hide PathOf;
    var paths := FoldedPaths(items, fold);
    if Distinct(paths) {
      forall i, j | 0 <= i < j < |items| ensures fold(PathOf(items[i])) != fold(PathOf(items[j])) {
        assert paths[i] != paths[j];
      }
    }
  }

  lemma {:induction false} FilesBounded(ls: seq<string>, n: nat)
    requires ParseFiles(ls, n).Ok? && n <= MAX_PATCH_FILES
    ensures n + |ParseFiles(ls, n).value| <= 50
    decreases |ls|
  {
    hide ParseFile;
    if ls != [] {
      if Skipped(ls[0]) {
        FilesBounded(ls[1..], n);
      } else {
        FilesBounded(ParseFile(ls).value.1, n + 1);
      }
    }
  }
}
