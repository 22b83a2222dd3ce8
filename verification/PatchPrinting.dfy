/** Writing patches as unified diffs, and reading them back. */
module PatchPrinting {
  import opened Text
  import opened Messages
  import opened TextLines
  import opened PatchApplying
  import opened PatchParsing

  function HeaderLine(h: Hunk): string {
    "@@ -" + Decimal(h.oldStart) + "," + Decimal(h.oldCount) + " +" + Decimal(h.newStart) + ","
      + Decimal(h.newCount) + " @@"
  }

  function HunkLines(h: Hunk): seq<string> {
    [HeaderLine(h)] + h.body
  }

  function AllHunkLines(hunks: seq<Hunk>): seq<string> {
    if hunks == [] then [] else HunkLines(hunks[0]) + AllHunkLines(hunks[1..])
  }

  function NameOf(path: Option<string>, side: string): string {
    if path.None? then "/dev/null" else side + path.value
  }

  function FileLines(item: FilePatch): seq<string> {
    ["--- " + NameOf(item.oldPath, "a/"), "+++ " + NameOf(item.newPath, "b/")] + AllHunkLines(item.hunks)
  }

  function AllFileLines(items: seq<FilePatch>): seq<string> {
    if items == [] then [] else FileLines(items[0]) + AllFileLines(items[1..])
  }

  function Printed(items: seq<FilePatch>): string {
    Closed(AllFileLines(items))
  }

  /** A path the header syntax can carry as it is: the grammar cuts tabs and
      surrounding space and refuses a leading quote. */
  predicate CleanPath(path: Option<string>) {
    path.Some? ==>
      var p := path.value;
      p != "" && p[0] != '"' && '\t' !in p && !IsSpace(p[|p| - 1])
  }

  predicate Clean(items: seq<FilePatch>) {
    forall k | 0 <= k < |items| :: CleanPath(items[k].oldPath) && CleanPath(items[k].newPath)
  }

  // ---- headers ----

  lemma {:induction false} DigitsThen(digits: string, rest: string)
    requires AllDigits(digits) && (rest != "" ==> !IsDigit(rest[0]))
    ensures DigitCount(digits + rest) == |digits|
  {
    if digits == "" {
      assert digits + rest == rest;
    } else {
      assert (digits + rest)[1..] == digits[1..] + rest;
      DigitsThen(digits[1..], rest);
    }
  }

  lemma {:induction false} ScanPrinted(n: nat, rest: string)
    requires rest != "" ==> !IsDigit(rest[0])
    ensures ScanNumber(Decimal(n) + rest) == Some(Scan(n, rest))
  {
    var d := Decimal(n);
    DigitsThen(d, rest);
    DecimalRoundTrip(n);
    assert (d + rest)[..|d|] == d && (d + rest)[|d|..] == rest;
  }

  lemma HeaderPrinted(h: Hunk)
    ensures ParseHeader(HeaderLine(h)) == Some(Header(h.oldStart, h.oldCount, h.newStart, h.newCount))
  {
    hide ScanNumber, Decimal;
    var end := " @@";
    var newCount := Decimal(h.newCount) + end;
    var newStart := Decimal(h.newStart) + ("," + newCount);
    var oldCount := Decimal(h.oldCount) + (" +" + newStart);
    var oldStart := Decimal(h.oldStart) + ("," + oldCount);
    var line := HeaderLine(h);
    HeaderParts(Decimal(h.oldStart), Decimal(h.oldCount), Decimal(h.newStart), Decimal(h.newCount));
    assert line == "@@ -" + oldStart && line[4..] == oldStart;
    ScanPrinted(h.oldStart, "," + oldCount);
    assert ("," + oldCount)[1..] == oldCount;
    ScanPrinted(h.oldCount, " +" + newStart);
    assert (" +" + newStart)[2..] == newStart;
    ScanPrinted(h.newStart, "," + newCount);
    assert ("," + newCount)[1..] == newCount;
    ScanPrinted(h.newCount, end);
  }

  lemma HeaderParts(a: string, b: string, c: string, d: string)
    ensures "@@ -" + a + "," + b + " +" + c + "," + d + " @@"
            == "@@ -" + (a + ("," + (b + (" +" + (c + ("," + (d + " @@")))))))
  {
  }

  lemma DigitsOneLine(s: string)
    requires AllDigits(s)
    ensures OneLine(s)
  {
    forall k | 0 <= k < |s| ensures !IsBreak(s[k]) {
      assert IsDigit(s[k]);
    }
  }

  lemma OneLineConcat(a: string, b: string)
    requires OneLine(a) && OneLine(b)
    ensures OneLine(a + b)
  {
  }

  lemma HeaderOneLine(h: Hunk)
    ensures OneLine(HeaderLine(h)) && StartsWith(HeaderLine(h), "@@ ")
  {
    hide OneLine, Decimal;
    var a, b, c, d := Decimal(h.oldStart), Decimal(h.oldCount), Decimal(h.newStart), Decimal(h.newCount);
    DigitsOneLine(a);
    DigitsOneLine(b);
    DigitsOneLine(c);
    DigitsOneLine(d);
    MarksOneLine();
    OneLineConcat("@@ -", a);
    OneLineConcat("@@ -" + a, ",");
    OneLineConcat("@@ -" + a + ",", b);
    OneLineConcat("@@ -" + a + "," + b, " +");
    OneLineConcat("@@ -" + a + "," + b + " +", c);
    OneLineConcat("@@ -" + a + "," + b + " +" + c, ",");
    OneLineConcat("@@ -" + a + "," + b + " +" + c + ",", d);
    OneLineConcat("@@ -" + a + "," + b + " +" + c + "," + d, " @@");
    HeaderParts(a, b, c, d);
  }

  lemma MarksOneLine()
    ensures OneLine("@@ -") && OneLine(",") && OneLine(" +") && OneLine(" @@")
    ensures OneLine("--- ") && OneLine("+++ ") && OneLine("a/") && OneLine("b/") && OneLine("/dev/null")
  {
  }

  // ---- paths ----

  lemma {:induction false} NoTab(s: string)
    requires '\t' !in s
    ensures BeforeTab(s) == s
  {
    if s != "" {
      NoTab(s[1..]);
    }
  }

  lemma {:induction false} DiffPathOf(value: string)
    requires '\t' !in value && value != "" && !IsSpace(value[0]) && !IsSpace(value[|value| - 1])
    ensures Strip(BeforeTab(value)) == value
  {
    NoTab(value);
  }

  lemma {:induction false} SlashedLength(s: string)
    ensures |Slashed(Parts(s))| <= |s|
    decreases |s|
  {
    hide Kept;
    var part := Head(s);
    if |part| < |s| {
      SlashedLength(s[|part| + 1..]);
      var rest := Parts(s[|part| + 1..]);
      assert ([part] + rest)[1..] == rest;
      assert rest == [] ==> [part] + rest == [part];
      assert [] + rest == rest;
    }
  }

  lemma {:induction false} BeforeTabThen(a: string, b: string)
    requires '\t' !in a
    ensures BeforeTab(a + b) == a + BeforeTab(b)
  {
    if a == "" {
      assert a + b == b;
    } else {
      assert (a + b)[1..] == a[1..] + b;
      BeforeTabThen(a[1..], b);
      assert [a[0]] + (a[1..] + BeforeTab(b)) == a + BeforeTab(b);
    }
  }

  /** Behind its side mark, a path is cut at its first tab and loses the spaces at its
      end. */
  lemma NameCut(path: string, side: string) returns (raw: string)
    requires side == "a/" || side == "b/"
    ensures Strip(BeforeTab(side + path)) == side + raw && raw <= path
    ensures raw == path <==> '\t' !in path && (path == "" || !IsSpace(path[|path| - 1]))
  {
    hide BeforeTab, StripRight, IsSpace;
    BeforeTabThen(side, path);
    BeforeTabPrefix(path);
    var rest := BeforeTab(path);
    var cut := side + rest;
    StripRightPrefix(cut);
    SideStays(side, rest);
    NoSpaceAhead(side, rest);
    raw := StripRight(cut)[2..];
    assert StripRight(cut) == side + raw;
    assert raw == cut[2..][..|raw|] && cut[2..] == rest;
    assert rest != "" ==> cut[|cut| - 1] == rest[|rest| - 1];
  }

  lemma {:induction false} NoSpaceAhead(side: string, rest: string)
    requires side == "a/" || side == "b/"
    ensures StripLeft(side + rest) == side + rest && !IsSpace(side[1])
  {
    assert (side + rest)[0] == side[0];
  }

  lemma {:induction false} SideStays(side: string, rest: string)
    requires side == "a/" || side == "b/"
    ensures side <= StripRight(side + rest)
  {
    if rest != "" && IsSpace(rest[|rest| - 1]) {
      assert (side + rest)[..|side + rest| - 1] == side + rest[..|rest| - 1];
      SideStays(side, rest[..|rest| - 1]);
    }
  }

  /** A normal path is read back from a header exactly when it is clean. */
  lemma PathPrinted(path: Option<string>, side: string)
    requires side == "a/" || side == "b/"
    requires SoundPath(path)
    ensures DiffPath(NameOf(path, side)) == Ok(path) <==> CleanPath(path)
  {
    hide Strip, BeforeTab, Parts;
    if path.None? {
      DiffPathOf("/dev/null");
    } else {
      var p := path.value;
      var raw := NameCut(p, side);
      assert (side + raw)[0] == side[0] && "/dev/null"[0] == '/' && (side + raw)[2..] == raw;
      SlashedLength(raw);
      if DiffPath(NameOf(path, side)) == Ok(path) {
        assert Posix(raw) == p && |Posix(raw)| <= |raw|;
        assert raw == p;
      }
    }
  }

  // ---- bodies, hunks, files ----

  lemma {:induction false} BodyPrinted(body: seq<string>, rest: seq<string>)
    requires AllBodyLines(body) && (forall k | 0 <= k < |body| :: !EndsBody(body[k]))
    requires rest != [] ==> EndsBody(rest[0])
    ensures ParseBody(body + rest) == Ok((body, rest))
  {
    var all := body + rest;
    if body == [] {
      assert all == rest;
    } else {
      assert BodyLine(body[0]) && all[0] == body[0] && all[1..] == body[1..] + rest;
      BodyPrinted(body[1..], rest);
      assert [body[0]] + body[1..] == body;
    }
  }

  lemma HunkPrinted(h: Hunk, rest: seq<string>)
    requires SoundHunk(h) && (rest != [] ==> EndsBody(rest[0]))
    ensures ParseHunk(HunkLines(h) + rest) == Ok((h, rest))
  {
    hide ParseHeader, HeaderLine, ParseBody;
    var all := HunkLines(h) + rest;
    HeaderPrinted(h);
    BodyPrinted(h.body, rest);
    assert all[0] == HeaderLine(h) && all[1..] == h.body + rest;
  }

  lemma {:induction false} FirstHunkLine(hunks: seq<Hunk>, rest: seq<string>)
    requires rest != [] ==> EndsBody(rest[0])
    ensures AllHunkLines(hunks) + rest != [] ==> EndsBody((AllHunkLines(hunks) + rest)[0])
  {
    if hunks != [] {
      HeaderOneLine(hunks[0]);
      assert (AllHunkLines(hunks) + rest)[0] == HeaderLine(hunks[0]);
    }
  }

  lemma {:induction false} HunksPrinted(hunks: seq<Hunk>, rest: seq<string>)
    requires forall k | 0 <= k < |hunks| :: SoundHunk(hunks[k])
    requires rest != [] ==> EndsBody(rest[0]) && !StartsWith(rest[0], "@@ ")
    ensures ParseHunks(AllHunkLines(hunks) + rest) == Ok((hunks, rest))
  {
    hide SoundHunk, ParseHunk, HeaderLine, EndsBody;
    var all := AllHunkLines(hunks) + rest;
    if hunks == [] {
      assert all == rest;
    } else {
      var tail := AllHunkLines(hunks[1..]) + rest;
      HeaderOneLine(hunks[0]);
      assert all == HunkLines(hunks[0]) + tail;
      FirstHunkLine(hunks[1..], rest);
      HunkPrinted(hunks[0], tail);
      HunksPrinted(hunks[1..], rest);
      assert [hunks[0]] + hunks[1..] == hunks;
    }
  }

  lemma FilePrinted(item: FilePatch, rest: seq<string>)
    requires SoundFile(item)
    requires rest != [] ==> EndsBody(rest[0]) && !StartsWith(rest[0], "@@ ")
    ensures if CleanPath(item.oldPath) && CleanPath(item.newPath)
            then ParseFile(FileLines(item) + rest) == Ok((item, rest))
            else ParseFile(FileLines(item) + rest).Err? || ParseFile(FileLines(item) + rest).value.0 != item
  {
    hide SoundHunk, ParseHunks, DiffPath, EndsBody, AllHunkLines, NameOf, SoundPath, CleanPath;
    var all := FileLines(item) + rest;
    HunksPrinted(item.hunks, rest);
    PathPrinted(item.oldPath, "a/");
    PathPrinted(item.newPath, "b/");
    assert all[2..] == AllHunkLines(item.hunks) + rest;
    var oldName, newName := NameOf(item.oldPath, "a/"), NameOf(item.newPath, "b/");
    assert all[0] == "--- " + oldName && all[0][4..] == oldName && StartsWith(all[0], "--- ");
    assert all[1] == "+++ " + newName && all[1][4..] == newName && StartsWith(all[1], "+++ ");
  }

  lemma {:induction false} FirstFileLine(items: seq<FilePatch>)
    ensures items != [] ==>
              var ls := AllFileLines(items);
              ls != [] && EndsBody(ls[0]) && !StartsWith(ls[0], "@@ ") && !Skipped(ls[0])
    ensures items == [] ==> AllFileLines(items) == []
  {
    if items != [] {
      var name := NameOf(items[0].oldPath, "a/");
      assert AllFileLines(items)[0] == "--- " + name;
      assert ("--- " + name)[0] == '-' && StartsWith("--- " + name, "--- ");
      assert "@@ "[0] == '@' && "diff "[0] == 'd' && "index "[0] == 'i';
    }
  }

  lemma {:induction false} FilesPrinted(items: seq<FilePatch>, n: nat)
    requires n + |items| <= MAX_PATCH_FILES
    requires forall k | 0 <= k < |items| :: SoundFile(items[k])
    ensures ParseFiles(AllFileLines(items), n) == Ok(items) <==> Clean(items)
  {
    hide SoundFile, ParseFile, EndsBody, FileLines, CleanPath, Skipped;
    if items != [] {
      var rest := AllFileLines(items[1..]);
      FirstFileLine(items);
      FirstFileLine(items[1..]);
      FilePrinted(items[0], rest);
      FilesPrinted(items[1..], n + 1);
      CleanFirst(items);
      assert [items[0]] + items[1..] == items;
    }
  }

  lemma CleanFirst(items: seq<FilePatch>)
    requires items != []
    ensures Clean(items) <==> CleanPath(items[0].oldPath) && CleanPath(items[0].newPath) && Clean(items[1..])
  {
    hide CleanPath;
    if CleanPath(items[0].oldPath) && CleanPath(items[0].newPath) && Clean(items[1..]) {
      forall k | 0 <= k < |items| ensures CleanPath(items[k].oldPath) && CleanPath(items[k].newPath) {
        assert k > 0 ==> items[k] == items[1..][k - 1];
      }
    }
  }

  // ---- the printed text ----

  lemma LinesThen(a: seq<string>, b: seq<string>)
    requires AllOneLine(a) && AllOneLine(b)
    ensures AllOneLine(a + b)
  {
  }

  lemma {:induction false} HunkLinesOneLine(hunks: seq<Hunk>)
    requires forall k | 0 <= k < |hunks| :: SoundHunk(hunks[k])
    ensures AllOneLine(AllHunkLines(hunks))
  {
    if hunks != [] {
      hide OneLine, HeaderLine;
      HeaderOneLine(hunks[0]);
      assert SoundHunk(hunks[0]);
      LinesThen([HeaderLine(hunks[0])], hunks[0].body);
      HunkLinesOneLine(hunks[1..]);
      LinesThen(HunkLines(hunks[0]), AllHunkLines(hunks[1..]));
    }
  }

  lemma NameOneLine(path: Option<string>, side: string, mark: string)
    requires SoundPath(path) && OneLine(side) && OneLine(mark)
    ensures OneLine(mark + NameOf(path, side))
  {
    MarksOneLine();
  }

  lemma {:induction false} FileLinesOneLine(items: seq<FilePatch>)
    requires forall k | 0 <= k < |items| :: SoundFile(items[k])
    ensures AllOneLine(AllFileLines(items))
  {
    if items != [] {
      hide OneLine, NameOf, SoundPath, AllHunkLines, SoundHunk;
      var item := items[0];
      assert SoundFile(item);
      MarksOneLine();
      NameOneLine(item.oldPath, "a/", "--- ");
      NameOneLine(item.newPath, "b/", "+++ ");
      HunkLinesOneLine(item.hunks);
      LinesThen(["--- " + NameOf(item.oldPath, "a/"), "+++ " + NameOf(item.newPath, "b/")], AllHunkLines(item.hunks));
      FileLinesOneLine(items[1..]);
      LinesThen(FileLines(item), AllFileLines(items[1..]));
    }
  }

  /** Reading a printed patch gives the same patch exactly when its paths are clean. */
  lemma PrintedParses(items: seq<FilePatch>, fold: string -> string)
    requires SoundPatch(items, fold)
    ensures ParseDiff(Printed(items), fold) == Ok(items) <==> Clean(items)
  {
    hide SoundFile, ParseFiles, AllFileLines, Closed, LineFeeds, Lines, AllOneLine, Clean;
    FileLinesOneLine(items);
    ClosedNoReturn(AllFileLines(items));
    NoReturnKept(Printed(items));
    ClosedLines(AllFileLines(items));
    FilesPrinted(items, 0);
  }

  /** Everything a sound patch is, except that a body line may look like a header. */
  predicate Drafted(items: seq<FilePatch>, fold: string -> string) {
    && 0 < |items| <= MAX_PATCH_FILES && Distinct(FoldedPaths(items, fold))
    && forall k | 0 <= k < |items| ::
         && SoundPath(items[k].oldPath) && SoundPath(items[k].newPath)
         && (items[k].oldPath.Some? && items[k].newPath.Some? ==> items[k].oldPath == items[k].newPath)
         && items[k].hunks != []
         && forall l | 0 <= l < |items[k].hunks| ::
              Counted(items[k].hunks[l]) && AllBodyLines(items[k].hunks[l].body) && AllOneLine(items[k].hunks[l].body)
  }

  predicate LooksLikeHeader(items: seq<FilePatch>) {
    exists k, l, m | 0 <= k < |items| && 0 <= l < |items[k].hunks| && 0 <= m < |items[k].hunks[l].body| ::
      StartsWith(items[k].hunks[l].body[m], "--- ")
  }

  /** Reading a printed patch gives it back exactly when no removed line starts with
      two hyphens and a space and every path is clean. */
  lemma PrintedParsesIff(items: seq<FilePatch>, fold: string -> string)
    requires Drafted(items, fold)
    ensures ParseDiff(Printed(items), fold) == Ok(items) <==> !LooksLikeHeader(items) && Clean(items)
  {
    hide ParseDiff, Printed, Clean, FoldedPaths;
    if ParseDiff(Printed(items), fold) == Ok(items) {
      ParsedSound(Printed(items), fold);
      forall k, l, m | 0 <= k < |items| && 0 <= l < |items[k].hunks| && 0 <= m < |items[k].hunks[l].body|
        ensures !StartsWith(items[k].hunks[l].body[m], "--- ")
      {
        assert SoundFile(items[k]) && SoundHunk(items[k].hunks[l]) && !EndsBody(items[k].hunks[l].body[m]);
      }
    }
    if !LooksLikeHeader(items) {
      DraftSound(items, fold);
      PrintedParses(items, fold);
    }
  }

  lemma DraftSound(items: seq<FilePatch>, fold: string -> string)
    requires Drafted(items, fold) && !LooksLikeHeader(items)
    ensures SoundPatch(items, fold)
  {
    hide FoldedPaths, SoundPath;
    forall k | 0 <= k < |items| ensures SoundFile(items[k]) {
      forall l | 0 <= l < |items[k].hunks| ensures SoundHunk(items[k].hunks[l]) {
        var body := items[k].hunks[l].body;
        forall m | 0 <= m < |body| ensures !EndsBody(body[m]) {
          assert !StartsWith(items[k].hunks[l].body[m], "--- ");
          assert BodyLine(body[m]) && "@@ "[0] == '@' && "diff "[0] == 'd';
        }
      }
    }
  }

  /** Printing an accepted patch and reading it again gives the same patch exactly when
      its paths are clean. */
  lemma ParsedPrinted(text: string, fold: string -> string)
    requires ParseDiff(text, fold).Ok?
    ensures var items := ParseDiff(text, fold).value;
            ParseDiff(Printed(items), fold) == Ok(items) <==> Clean(items)
  {
    hide ParseDiff, Printed, Clean;
    ParsedSound(text, fold);
    PrintedParses(ParseDiff(text, fold).value, fold);
  }

  /** An accepted path that is not clean: it normalises to one that ends in a space,
      and printed it is read as another path. */
  lemma {:induction false} TrailingSpaceIsLost()
    ensures DiffPath("a/foo /") == Ok(Some("foo ")) && !CleanPath(Some("foo "))
    ensures DiffPath(NameOf(Some("foo "), "a/")) != Ok(Some("foo "))
  {
    hide Strip, BeforeTab, Parts;
    var raw := NameCut("foo /", "a/");
    assert "foo /"[4] == '/' && raw == "foo /";
    assert "a/" + "foo /" == "a/foo /" && "a/foo /"[2..] == "foo /";
    PartsNext("foo ", "");
    EmptyParts();
    assert "foo " + "/" + "" == "foo /";
    assert ["foo "] + [] == ["foo "];
    PartsLast("foo ");
    PathPrinted(Some("foo "), "a/");
  }
}
