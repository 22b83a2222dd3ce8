/** The line loop that reads a unified diff, index by index. */
module PatchReader {
  import opened Text
  import opened Messages
  import opened TextLines
  import opened PatchApplying
  import opened PatchParsing

  /** A result read up to a line index is what the grammar reads from the same lines. */
  ghost predicate ReadsAs<T(!new)>(r: Result<(T, nat)>, spec: Result<(T, seq<string>)>, lines: seq<string>) {
    if spec.Err? then r == Err(spec.error)
    else r.Ok? && r.value.0 == spec.value.0 && r.value.1 <= |lines| && lines[r.value.1..] == spec.value.1
  }

  lemma Rest(lines: seq<string>, index: nat)
    requires index < |lines|
    ensures lines[index..] != [] && lines[index..][0] == lines[index] && lines[index..][1..] == lines[index + 1..]
  {
  }

  /** What is read so far, then what the rest of the body reads as. */
  ghost function Prefixed(body: seq<string>, rest: Result<(seq<string>, seq<string>)>)
      : Result<(seq<string>, seq<string>)>
  {
    if rest.Err? then rest else Ok((body + rest.value.0, rest.value.1))
  }

  method ReadBody(lines: seq<string>, start: nat) returns (r: Result<(seq<string>, nat)>, oldSeen: nat, newSeen: nat)
    requires start <= |lines|
    ensures ReadsAs(r, ParseBody(lines[start..]), lines)
    ensures r.Ok? ==> oldSeen == |OldSide(r.value.0)| && newSeen == |NewSide(r.value.0)|
  {
    hide OldSide, NewSide, EndsBody;
    var body: seq<string> := [];
    var index := start;
    oldSeen, newSeen := 0, 0;
    NoSidesYet();
    NothingYet(ParseBody(lines[start..]));
    while index < |lines| && !EndsBody(lines[index])
      invariant start <= index <= |lines|
      invariant oldSeen == |OldSide(body)| && newSeen == |NewSide(body)|
      invariant ParseBody(lines[start..]) == Prefixed(body, ParseBody(lines[index..]))
    {
      var line := lines[index];
      Rest(lines, index);
      if line == NO_NEWLINE {
        index := index + 1;
        continue;
      }
      if !BodyLine(line) {
        return Err(Invalid), oldSeen, newSeen;
      }
      SidesSnoc(body, line);
      Reassociated(body, line, ParseBody(lines[index + 1..]));
      body := body + [line];
      oldSeen := oldSeen + if line[0] == ' ' || line[0] == '-' then 1 else 0;
      newSeen := newSeen + if line[0] == ' ' || line[0] == '+' then 1 else 0;
      index := index + 1;
    }
    if index < |lines| {
      Rest(lines, index);
    }
    r := Ok((body, index));
    assert body + [] == body;
  }

  lemma NoSidesYet()
    ensures OldSide([]) == [] && NewSide([]) == []
  {
  }

  lemma NothingYet(rest: Result<(seq<string>, seq<string>)>)
    ensures Prefixed([], rest) == rest
  {
    if rest.Ok? {
      assert [] + rest.value.0 == rest.value.0;
    }
  }

  lemma Reassociated(body: seq<string>, line: string, rest: Result<(seq<string>, seq<string>)>)
    ensures Prefixed(body, if rest.Err? then rest else Ok(([line] + rest.value.0, rest.value.1)))
            == Prefixed(body + [line], rest)
  {
    if rest.Ok? {
      assert body + ([line] + rest.value.0) == body + [line] + rest.value.0;
    }
  }

  method ReadHunk(lines: seq<string>, start: nat) returns (r: Result<(Hunk, nat)>)
    requires start < |lines|
    ensures ReadsAs(r, ParseHunk(lines[start..]), lines)
  {
    hide ParseHeader, ParseBody, OldSide, NewSide;
    Rest(lines, start);
    var header := ParseHeader(lines[start]);
    if header.None? {
      return Err(Invalid);
    }
    var read, oldSeen, newSeen := ReadBody(lines, start + 1);
    if read.Err? {
      return Err(read.error);
    }
    var h := header.value;
    if oldSeen != h.oldCount || newSeen != h.newCount {
      return Err(Invalid);
    }
    r := Ok((Hunk(h.oldStart, h.oldCount, h.newStart, h.newCount, read.value.0), read.value.1));
  }

  ghost function PrefixedHunks(hunks: seq<Hunk>, rest: Result<(seq<Hunk>, seq<string>)>)
      : Result<(seq<Hunk>, seq<string>)>
  {
    if rest.Err? then rest else Ok((hunks + rest.value.0, rest.value.1))
  }

  method ReadHunks(lines: seq<string>, start: nat) returns (r: Result<(seq<Hunk>, nat)>)
    requires start <= |lines|
    ensures ReadsAs(r, ParseHunks(lines[start..]), lines)
  {
    hide ParseHunk;
    var hunks: seq<Hunk> := [];
    var index := start;
    NoHunksYet(ParseHunks(lines[start..]));
    while index < |lines| && StartsWith(lines[index], "@@ ")
      invariant start <= index <= |lines|
      invariant ParseHunks(lines[start..]) == PrefixedHunks(hunks, ParseHunks(lines[index..]))
      decreases |lines| - index
    {
      Rest(lines, index);
      var read := ReadHunk(lines, index);
      if read.Err? {
        return Err(read.error);
      }
      HunksReassociated(hunks, read.value.0, ParseHunks(lines[read.value.1..]));
      assert |lines[read.value.1..]| < |lines[index..]|;
      hunks, index := hunks + [read.value.0], read.value.1;
    }
    if index < |lines| {
      Rest(lines, index);
    }
    assert hunks + [] == hunks;
    r := Ok((hunks, index));
  }

  lemma NoHunksYet(rest: Result<(seq<Hunk>, seq<string>)>)
    ensures PrefixedHunks([], rest) == rest
  {
    if rest.Ok? {
      assert [] + rest.value.0 == rest.value.0;
    }
  }

  lemma HunksReassociated(hunks: seq<Hunk>, h: Hunk, rest: Result<(seq<Hunk>, seq<string>)>)
    ensures PrefixedHunks(hunks, if rest.Err? then rest else Ok(([h] + rest.value.0, rest.value.1)))
            == PrefixedHunks(hunks + [h], rest)
  {
    if rest.Ok? {
      assert hunks + ([h] + rest.value.0) == hunks + [h] + rest.value.0;
    }
  }

  method ReadFile(lines: seq<string>, start: nat) returns (r: Result<(FilePatch, nat)>)
    requires start < |lines|
    ensures ReadsAs(r, ParseFile(lines[start..]), lines)
  {
    hide DiffPath, ParseHunks;
    Rest(lines, start);
    var index := start;
    if !StartsWith(lines[index], "--- ") {
      return Err(Invalid);
    }
    var oldPath := DiffPath(lines[index][4..]);
    if oldPath.Err? {
      return Err(oldPath.error);
    }
    index := index + 1;
    if index >= |lines| || !StartsWith(lines[index], "+++ ") {
      return Err(Invalid);
    }
    Rest(lines, index);
    assert lines[start..][1] == lines[index] && lines[start..][2..] == lines[index + 1..];
    var newPath := DiffPath(lines[index][4..]);
    if newPath.Err? {
      return Err(newPath.error);
    }
    index := index + 1;
    if oldPath.value.Some? && newPath.value.Some? && oldPath.value != newPath.value {
      return Err(RenameDenied);
    }
    var read := ReadHunks(lines, index);
    if read.Err? {
      return Err(read.error);
    }
    if read.value.0 == [] {
      return Err(Invalid);
    }
    r := Ok((FilePatch(oldPath.value, newPath.value, read.value.0), read.value.1));
  }

  ghost function PrefixedFiles(items: seq<FilePatch>, rest: Result<seq<FilePatch>>): Result<seq<FilePatch>> {
    if rest.Err? then rest else Ok(items + rest.value)
  }

  /** `_parse_unified_diff`. */
  method ParseUnifiedDiff(text: string, fold: string -> string) returns (r: Result<seq<FilePatch>>)
    ensures r == ParseDiff(text, fold)
    ensures r.Ok? ==> SoundPatch(r.value, fold)
  {
    hide ParseFile, Lines, LineFeeds, FoldedPaths, Skipped, SoundPatch, Distinct;
    var lines := Lines(LineFeeds(text));
    var output: seq<FilePatch> := [];
    var index := 0;
    assert lines[0..] == lines;
    NoFilesYet(ParseFiles(lines, 0));
    while index < |lines|
      invariant index <= |lines| && |output| <= MAX_PATCH_FILES
      invariant ParseFiles(lines, 0) == PrefixedFiles(output, ParseFiles(lines[index..], |output|))
      decreases |lines| - index
    {
      Rest(lines, index);
      if Skipped(lines[index]) {
        index := index + 1;
        continue;
      }
      var read := ReadFile(lines, index);
      if read.Err? {
        return Err(read.error);
      }
      if |output| + 1 > MAX_PATCH_FILES {
        return Err(TooManyFiles);
      }
      FilesReassociated(output, read.value.0, ParseFiles(lines[read.value.1..], |output| + 1));
      assert |lines[read.value.1..]| < |lines[index..]|;
      output, index := output + [read.value.0], read.value.1;
    }
    assert output + [] == output;
    if output == [] || !Distinct(FoldedPaths(output, fold)) {
      return Err(Invalid);
    }
    r := Ok(output);
    ParsedSound(text, fold);
  }

  lemma NoFilesYet(rest: Result<seq<FilePatch>>)
    ensures PrefixedFiles([], rest) == rest
  {
    if rest.Ok? {
      assert [] + rest.value == rest.value;
    }
  }

  lemma FilesReassociated(items: seq<FilePatch>, item: FilePatch, rest: Result<seq<FilePatch>>)
    ensures PrefixedFiles(items, if rest.Err? then rest else Ok([item] + rest.value))
            == PrefixedFiles(items + [item], rest)
  {
    if rest.Ok? {
      assert items + ([item] + rest.value) == items + [item] + rest.value;
    }
  }
}
