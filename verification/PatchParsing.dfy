/** Reading a unified diff (`_parse_unified_diff` and `_diff_path` in
    src/leanharness/tools/controlled.py). */
module PatchParsing {
  import opened Text
  import opened Messages
  import opened TextLines
  import opened PatchApplying

  const MAX_PATCH_FILES := 50
  const NO_NEWLINE := "\\ No newline at end of file"

  // ---- paths ----

  function BeforeTab(s: string): string {
    if s == "" || s[0] == '\t' then "" else [s[0]] + BeforeTab(s[1..])
  }

  /** The part of a path before its first slash. */
  function Head(s: string): (part: string)
    ensures |part| <= |s| && '/' !in part && part == s[..|part|] && (|part| < |s| ==> s[|part|] == '/')
  {
    if s == "" || s[0] == '/' then "" else [s[0]] + Head(s[1..])
  }

  predicate Kept(part: string) {
    part != "" && part != "."
  }

  /** The components of a POSIX path, without empty ones and dots. */
  function Parts(s: string): (parts: seq<string>)
    ensures forall k | 0 <= k < |parts| :: Kept(parts[k]) && '/' !in parts[k]
    decreases |s|
  {
    var part := Head(s);
    (if Kept(part) then [part] else []) + if |part| == |s| then [] else Parts(s[|part| + 1..])
  }

  function Slashed(parts: seq<string>): string {
    if parts == [] then ""
    else if |parts| == 1 then parts[0]
    else parts[0] + "/" + Slashed(parts[1..])
  }

  function Posix(s: string): string {
    if Parts(s) == [] then "." else Slashed(Parts(s))
  }

  predicate Inside(path: string) {
    path != "" && path[0] != '/' && ".." !in Parts(path)
  }

  function DiffPath(value: string): Result<Option<string>> {
    var stripped := Strip(BeforeTab(value));
    if stripped == "/dev/null" then Ok(None)
    else
      var raw := if StartsWith(stripped, "a/") || StartsWith(stripped, "b/") then stripped[2..] else stripped;
      if raw == "" || raw[0] == '"' then Err(Invalid)
      else if !Inside(raw) then Err(OutsideWorkspace)
      else Ok(Some(Posix(raw)))
  }

  // ---- hunk headers ----

  function DigitCount(s: string): (n: nat)
    ensures n <= |s| && AllDigits(s[..n]) && (n < |s| ==> !IsDigit(s[n]))
  {
    if s == "" || !IsDigit(s[0]) then 0
    else
      var n := 1 + DigitCount(s[1..]);
      assert AllDigits(s[..n]) by {
        forall k | 0 <= k < n ensures IsDigit(s[k]) {
          assert k > 0 ==> s[1..][..n - 1][k - 1] == s[k];
        }
      }
      n
  }

  datatype Scan = Scan(value: nat, rest: string)

  function ScanNumber(s: string): Option<Scan> {
    var n := DigitCount(s);
    if n == 0 then None else Some(Scan(DecimalValue(s[..n]), s[n..]))
  }

  /** `,count`, or a count of one when it is not there. */
  function ScanCount(s: string): Scan {
    if StartsWith(s, ",") && ScanNumber(s[1..]).Some? then ScanNumber(s[1..]).value else Scan(1, s)
  }

  datatype Header = Header(oldStart: nat, oldCount: nat, newStart: nat, newCount: nat)

  function ParseHeader(line: string): Option<Header> {
    if !StartsWith(line, "@@ -") || ScanNumber(line[4..]).None? then None
    else
      var oldStart := ScanNumber(line[4..]).value;
      var oldCount := ScanCount(oldStart.rest);
      if !StartsWith(oldCount.rest, " +") || ScanNumber(oldCount.rest[2..]).None? then None
      else
        var newStart := ScanNumber(oldCount.rest[2..]).value;
        var newCount := ScanCount(newStart.rest);
        if !StartsWith(newCount.rest, " @@") then None
        else Some(Header(oldStart.value, oldCount.value, newStart.value, newCount.value))
  }

  // ---- the grammar, on the lines still to read ----

  predicate EndsBody(line: string) {
    StartsWith(line, "@@ ") || StartsWith(line, "--- ") || StartsWith(line, "diff ")
  }

  function ParseBody(ls: seq<string>): (r: Result<(seq<string>, seq<string>)>)
    ensures r.Ok? ==> |r.value.1| <= |ls|
  {
    if ls == [] || EndsBody(ls[0]) then Ok(([], ls))
    else if ls[0] == NO_NEWLINE then ParseBody(ls[1..])
    else if !BodyLine(ls[0]) then Err(Invalid)
    else
      var rest := ParseBody(ls[1..]);
      if rest.Err? then rest else Ok(([ls[0]] + rest.value.0, rest.value.1))
  }

  function ParseHunk(ls: seq<string>): (r: Result<(Hunk, seq<string>)>)
    requires ls != []
    ensures r.Ok? ==> |r.value.1| < |ls|
  {
    var header := ParseHeader(ls[0]);
    if header.None? then Err(Invalid)
    else
      var read := ParseBody(ls[1..]);
      if read.Err? then Err(read.error)
      else
        var h, body := header.value, read.value.0;
        if |OldSide(body)| != h.oldCount || |NewSide(body)| != h.newCount then Err(Invalid)
        else Ok((Hunk(h.oldStart, h.oldCount, h.newStart, h.newCount, body), read.value.1))
  }

  function ParseHunks(ls: seq<string>): (r: Result<(seq<Hunk>, seq<string>)>)
    ensures r.Ok? ==> |r.value.1| <= |ls|
    decreases |ls|
  {
    if ls == [] || !StartsWith(ls[0], "@@ ") then Ok(([], ls))
    else
      var first := ParseHunk(ls);
      if first.Err? then Err(first.error)
      else
        var rest := ParseHunks(first.value.1);
        if rest.Err? then rest else Ok(([first.value.0] + rest.value.0, rest.value.1))
  }

  function ParseFile(ls: seq<string>): (r: Result<(FilePatch, seq<string>)>)
    requires ls != []
    ensures r.Ok? ==> |r.value.1| < |ls|
  {
    if !StartsWith(ls[0], "--- ") then Err(Invalid)
    else
      var oldPath := DiffPath(ls[0][4..]);
      if oldPath.Err? then Err(oldPath.error)
      else if |ls| < 2 || !StartsWith(ls[1], "+++ ") then Err(Invalid)
      else
        var newPath := DiffPath(ls[1][4..]);
        if newPath.Err? then Err(newPath.error)
        else if oldPath.value.Some? && newPath.value.Some? && oldPath.value != newPath.value then Err(RenameDenied)
        else
          var read := ParseHunks(ls[2..]);
          if read.Err? then Err(read.error)
          else if read.value.0 == [] then Err(Invalid)
          else Ok((FilePatch(oldPath.value, newPath.value, read.value.0), read.value.1))
  }

  predicate Skipped(line: string) {
    StartsWith(line, "diff ") || StartsWith(line, "index ")
  }

  /** The files still to read when `n` are read already. */
  function ParseFiles(ls: seq<string>, n: nat): Result<seq<FilePatch>>
    decreases |ls|
  {
    if ls == [] then Ok([])
    else if Skipped(ls[0]) then ParseFiles(ls[1..], n)
    else
      var first := ParseFile(ls);
      if first.Err? then Err(first.error)
      else if n + 1 > MAX_PATCH_FILES then Err(TooManyFiles)
      else
        var rest := ParseFiles(first.value.1, n + 1);
        if rest.Err? then rest else Ok([first.value.0] + rest.value)
  }

  function PathOf(item: FilePatch): string {
    if item.newPath.Some? && item.newPath.value != "" then item.newPath.value
    else if item.oldPath.Some? then item.oldPath.value
    else ""
  }

  function FoldedPaths(items: seq<FilePatch>, fold: string -> string): (paths: seq<string>)
    ensures |paths| == |items|
    ensures forall k | 0 <= k < |items| :: paths[k] == fold(PathOf(items[k]))
  {
    seq(|items|, k requires 0 <= k < |items| => fold(PathOf(items[k])))
  }

  function ParseLines(ls: seq<string>, fold: string -> string): Result<seq<FilePatch>> {
    var items := ParseFiles(ls, 0);
    if items.Err? then items
    else if items.value == [] || !Distinct(FoldedPaths(items.value, fold)) then Err(Invalid)
    else items
  }

  function ParseDiff(text: string, fold: string -> string): Result<seq<FilePatch>> {
    ParseLines(Lines(LineFeeds(text)), fold)
  }

  // ---- what an accepted patch is ----

  /** A hunk whose header and body agree and whose body the grammar can carry. */
  predicate SoundHunk(h: Hunk) {
    && Counted(h) && AllBodyLines(h.body) && AllOneLine(h.body)
    && forall k | 0 <= k < |h.body| :: !EndsBody(h.body[k])
  }

  predicate SoundPath(path: Option<string>) {
    path.Some? ==> Inside(path.value) && Posix(path.value) == path.value && OneLine(path.value)
  }

  predicate SoundFile(item: FilePatch) {
    && SoundPath(item.oldPath) && SoundPath(item.newPath)
    && (item.oldPath.Some? && item.newPath.Some? ==> item.oldPath == item.newPath)
    && item.hunks != [] && forall k | 0 <= k < |item.hunks| :: SoundHunk(item.hunks[k])
  }

  predicate SoundPatch(items: seq<FilePatch>, fold: string -> string) {
    && 0 < |items| <= MAX_PATCH_FILES
    && (forall k | 0 <= k < |items| :: SoundFile(items[k]))
    && Distinct(FoldedPaths(items, fold))
  }

  lemma {:induction false} BodySound(ls: seq<string>)
    requires AllOneLine(ls) && ParseBody(ls).Ok?
    ensures var body := ParseBody(ls).value.0;
            && AllBodyLines(body) && AllOneLine(body)
            && forall k | 0 <= k < |body| :: !EndsBody(body[k])
    ensures AllOneLine(ParseBody(ls).value.1)
  {
    if ls != [] && !EndsBody(ls[0]) {
      assert OneLine(ls[0]);
      BodySound(ls[1..]);
    }
  }

  lemma HunkSound(ls: seq<string>)
    requires ls != [] && AllOneLine(ls) && ParseHunk(ls).Ok?
    ensures SoundHunk(ParseHunk(ls).value.0) && AllOneLine(ParseHunk(ls).value.1)
  {
    BodySound(ls[1..]);
  }

  lemma {:induction false} HunksSound(ls: seq<string>)
    requires AllOneLine(ls) && ParseHunks(ls).Ok?
    ensures forall k | 0 <= k < |ParseHunks(ls).value.0| :: SoundHunk(ParseHunks(ls).value.0[k])
    ensures AllOneLine(ParseHunks(ls).value.1)
    decreases |ls|
  {
    hide SoundHunk, ParseHunk, AllOneLine;
    if ls != [] && StartsWith(ls[0], "@@ ") {
      HunkSound(ls);
      HunksSound(ParseHunk(ls).value.1);
    }
  }

  // ---- components of a normal path ----

  lemma {:induction false} HeadOf(part: string, rest: string)
    requires '/' !in part
    ensures Head(part + "/" + rest) == part
  {
    var s := part + "/" + rest;
    if part == "" {
      assert s[0] == '/';
    } else {
      assert s[1..] == part[1..] + "/" + rest && s[0] == part[0];
      HeadOf(part[1..], rest);
    }
  }

  lemma {:induction false} HeadAll(part: string)
    requires '/' !in part
    ensures Head(part) == part
  {
    if part != "" {
      HeadAll(part[1..]);
    }
  }

  lemma {:induction false} PartsNext(part: string, rest: string)
    requires Kept(part) && '/' !in part
    ensures Parts(part + "/" + rest) == [part] + Parts(rest)
  {
    var s := part + "/" + rest;
    HeadOf(part, rest);
    assert s[|part| + 1..] == rest;
  }

  lemma {:induction false} PartsLast(part: string)
    requires '/' !in part
    ensures Parts(part) == if Kept(part) then [part] else []
  {
    HeadAll(part);
  }

  lemma {:induction false} PartsOfSlashed(parts: seq<string>)
    requires forall k | 0 <= k < |parts| :: Kept(parts[k]) && '/' !in parts[k]
    ensures Parts(Slashed(parts)) == parts
  {
    hide Parts, Kept;
    if parts == [] {
      EmptyParts();
    } else if |parts| == 1 {
      PartsLast(parts[0]);
      assert parts == [parts[0]];
    } else {
      PartsOfSlashed(parts[1..]);
      PartsNext(parts[0], Slashed(parts[1..]));
      assert [parts[0]] + parts[1..] == parts;
    }
  }

  lemma EmptyParts()
    ensures Parts("") == []
  {
    assert Head("") == "";
  }

  lemma {:induction false} SlashedStart(parts: seq<string>)
    requires parts != [] && Kept(parts[0]) && '/' !in parts[0]
    ensures Slashed(parts) != "" && Slashed(parts)[0] == parts[0][0] != '/'
  {
  }

  lemma OneLineSlice(s: string, a: nat, b: nat)
    requires OneLine(s) && a <= b <= |s|
    ensures OneLine(s[a..b]) && (b == |s| ==> OneLine(s[a..]))
  {
  }

  lemma {:induction false} PartsOneLine(s: string)
    requires OneLine(s)
    ensures AllOneLine(Parts(s))
    decreases |s|
  {
    hide Kept, OneLine;
    var part := Head(s);
    OneLineSlice(s, 0, |part|);
    if |part| < |s| {
      OneLineSlice(s, |part| + 1, |s|);
      PartsOneLine(s[|part| + 1..]);
    }
  }

  lemma {:induction false} SlashedOneLine(parts: seq<string>)
    requires AllOneLine(parts)
    ensures OneLine(Slashed(parts))
  {
    if |parts| > 1 {
      SlashedOneLine(parts[1..]);
      assert OneLine(parts[0]);
    } else if |parts| == 1 {
      assert OneLine(parts[0]);
    }
  }

  /** Normalising a path that stays inside gives a normal path that stays inside, on
      one line when it was. */
  lemma PosixSound(raw: string)
    requires Inside(raw) && OneLine(raw)
    ensures SoundPath(Some(Posix(raw)))
  {
    hide Parts;
    var parts := Parts(raw);
    PartsOneLine(raw);
    SlashedOneLine(parts);
    if parts == [] {
      DotParts();
    } else {
      PartsOfSlashed(parts);
      SlashedStart(parts);
    }
  }

  lemma DotParts()
    ensures Parts(".") == []
  {
    HeadAll(".");
  }

  lemma FileSound(ls: seq<string>)
    requires ls != [] && AllOneLine(ls) && ParseFile(ls).Ok?
    ensures SoundFile(ParseFile(ls).value.0) && AllOneLine(ParseFile(ls).value.1)
  {
    hide SoundHunk, Posix, Inside, ParseHunks, OneLine;
    OneLineSlice(ls[0], 4, |ls[0]|);
    OneLineSlice(ls[1], 4, |ls[1]|);
    DiffPathSound(ls[0][4..]);
    DiffPathSound(ls[1][4..]);
    HunksSound(ls[2..]);
  }

  lemma {:induction false} BeforeTabPrefix(s: string)
    ensures BeforeTab(s) <= s && '\t' !in BeforeTab(s) && ('\t' !in s <==> BeforeTab(s) == s)
  {
    if s != "" && s[0] != '\t' {
      BeforeTabPrefix(s[1..]);
    }
  }

  lemma {:induction false} StripLeftSuffix(s: string)
    ensures |StripLeft(s)| <= |s| && StripLeft(s) == s[|s| - |StripLeft(s)|..]
  {
    if s != "" && IsSpace(s[0]) {
      StripLeftSuffix(s[1..]);
    }
  }

  lemma {:induction false} StripRightPrefix(s: string)
    ensures StripRight(s) <= s && (StripRight(s) != "" ==> !IsSpace(StripRight(s)[|StripRight(s)| - 1]))
    ensures StripRight(s) == s <==> s == "" || !IsSpace(s[|s| - 1])
  {
    if s != "" && IsSpace(s[|s| - 1]) {
      StripRightPrefix(s[..|s| - 1]);
    }
  }

  lemma {:induction false} StrippedOneLine(value: string)
    requires OneLine(value)
    ensures OneLine(Strip(BeforeTab(value)))
  {
    BeforeTabPrefix(value);
    var cut := BeforeTab(value);
    OneLineSlice(value, 0, |cut|);
    StripLeftSuffix(cut);
    OneLineSlice(cut, |cut| - |StripLeft(cut)|, |cut|);
    StripRightPrefix(StripLeft(cut));
    OneLineSlice(StripLeft(cut), 0, |StripRight(StripLeft(cut))|);
  }

  lemma DiffPathSound(value: string)
    requires OneLine(value)
    ensures DiffPath(value).Ok? ==> SoundPath(DiffPath(value).value)
  {
    StrippedOneLine(value);
    var stripped := Strip(BeforeTab(value));
    var raw := if StartsWith(stripped, "a/") || StartsWith(stripped, "b/") then stripped[2..] else stripped;
    if Inside(raw) {
      PosixSound(raw);
    }
  }

  lemma {:induction false} FilesSound(ls: seq<string>, n: nat)
    requires AllOneLine(ls) && ParseFiles(ls, n).Ok? && n <= MAX_PATCH_FILES
    ensures n + |ParseFiles(ls, n).value| <= MAX_PATCH_FILES
    ensures forall k | 0 <= k < |ParseFiles(ls, n).value| :: SoundFile(ParseFiles(ls, n).value[k])
    decreases |ls|
  {
    hide SoundFile, ParseFile, AllOneLine;
    if ls != [] {
      if Skipped(ls[0]) {
        RestOneLine(ls);
        FilesSound(ls[1..], n);
      } else {
        FileSound(ls);
        FilesSound(ParseFile(ls).value.1, n + 1);
      }
    }
  }

  lemma RestOneLine(ls: seq<string>)
    requires ls != [] && AllOneLine(ls)
    ensures AllOneLine(ls[1..])
  {
  }

  /** Every accepted patch is sound: header counts are body counts, paths are
      normal, inside the workspace and distinct up to case, and there are between
      1 and 50 files. */
  lemma ParsedSound(text: string, fold: string -> string)
    requires ParseDiff(text, fold).Ok?
    ensures SoundPatch(ParseDiff(text, fold).value, fold)
  {
    hide SoundFile, ParseFiles;
    FilesSound(Lines(LineFeeds(text)), 0);
  }
}
