/** Where a patch changes a file and what is written, said without the functions that
    compute it. */
module PatchPlaces {
  import opened Text
  import opened TextLines
  import opened PatchApplying
  import opened PatchParsing
  import opened PatchCommit

  // ---- lines of a file ----

  /** The characters that end a line. */
  predicate Ends(c: char) {
    c in {'\n', '\U{0B}', '\U{0C}', '\r', '\U{1C}', '\U{1D}', '\U{1E}', '\U{85}', '\U{2028}', '\U{2029}'}
  }

  lemma {:induction false} BreakFound(line: string, c: char, rest: string)
    requires (forall k | 0 <= k < |line| :: !Ends(line[k])) && Ends(c)
    ensures FirstBreak(line + [c] + rest) == |line|
  {
    var s := line + [c] + rest;
    if line == "" {
      assert s[0] == c;
    } else {
      BreakFound(line[1..], c, rest);
      assert s[0] == line[0] && s[1..] == line[1..] + [c] + rest;
    }
  }

  /** A line ends with one of these characters, or with a carriage return and a line
      feed together. */
  lemma {:induction false} LineEnds(line: string, c: char, rest: string)
    requires (forall k | 0 <= k < |line| :: !Ends(line[k])) && Ends(c)
    ensures c != '\r' || rest == "" || rest[0] != '\n' ==> Lines(line + [c] + rest) == [line] + Lines(rest)
    ensures Lines(line + "\r\n" + rest) == [line] + Lines(rest)
  {
    var s := line + [c] + rest;
    BreakFound(line, c, rest);
    assert s[..|line|] == line && s[|line|] == c && s[|line| + 1..] == rest;
    var t := line + ['\r'] + (['\n'] + rest);
    BreakFound(line, '\r', ['\n'] + rest);
    assert t == line + "\r\n" + rest;
    assert t[..|line|] == line && t[|line|] == '\r' && t[|line| + 1] == '\n' && t[|line| + 2..] == rest;
  }

  // ---- the sides of a hunk ----

  /** A line of context is on both sides, a removed one on the old and an added one on
      the new side. */
  lemma {:induction false} SidesAre(body: seq<string>, text: string)
    ensures OldSide([]) == [] && NewSide([]) == []
    ensures OldSide(body + [" " + text]) == OldSide(body) + [text]
    ensures NewSide(body + [" " + text]) == NewSide(body) + [text]
    ensures OldSide(body + ["-" + text]) == OldSide(body) + [text] && NewSide(body + ["-" + text]) == NewSide(body)
    ensures OldSide(body + ["+" + text]) == OldSide(body) && NewSide(body + ["+" + text]) == NewSide(body) + [text]
  {
    hide OldSide, NewSide;
    NoSides([]);
    SidesSnoc(body, " " + text);
    SidesSnoc(body, "-" + text);
    SidesSnoc(body, "+" + text);
    assert (" " + text)[1..] == text && ("-" + text)[1..] == text && ("+" + text)[1..] == text;
    assert OldSide(body) + [] == OldSide(body) && NewSide(body) + [] == NewSide(body);
  }

  // ---- where hunks go ----

  /** A single hunk replaces its old side at the line its header names, counted from 1;
      it does not apply anywhere else. */
  lemma {:induction false} OneHunkIs(h: Hunk, lines: seq<string>)
    ensures var at := if h.oldStart >= 1 then h.oldStart - 1 else 0;
            Applied([h], lines)
            == if at <= |lines| && OldSide(h.body) <= lines[at..]
               then Some(lines[..at] + NewSide(h.body) + lines[at + |OldSide(h.body)|..]) else None
  {
    hide OldSide, NewSide;
    PlacedSnoc([], h, lines);
    assert [] + [h] == [h];
    assert Placed([], lines) == Some(Spot([], 0));
    var at := if h.oldStart >= 1 then h.oldStart - 1 else 0;
    if at <= |lines| {
      assert [] + lines[0..at] == lines[..at];
    }
  }

  // ---- the file that is written ----

  /** The lines with line feeds between them, and one behind the last if asked for. */
  function Glued(lines: seq<string>, last: bool): string {
    if lines == [] then ""
    else Glued(lines[..|lines| - 1], true) + lines[|lines| - 1] + if last then "\n" else ""
  }

  lemma {:induction false} ClosedGlued(lines: seq<string>, line: string)
    ensures Closed(lines + [line]) == Closed(lines) + line + "\n"
  {
    if lines == [] {
      assert [] + [line] == [line] && Closed([line][1..]) == "";
    } else {
      ClosedGlued(lines[1..], line);
      assert (lines + [line])[1..] == lines[1..] + [line];
      ThreeParts(lines[0] + "\n", Closed(lines[1..]), line);
    }
  }

  lemma ThreeParts(a: string, b: string, c: string)
    ensures a + (b + c + "\n") == a + b + c + "\n"
  {
  }

  lemma {:induction false} GluedIs(lines: seq<string>, last: bool)
    ensures Rendered(lines, last) == Glued(lines, last)
  {
    hide Joined, Closed;
    if lines == [] {
      NothingJoined();
    } else {
      var n := |lines| - 1;
      var front := lines[..n];
      assert lines == front + [lines[n]];
      FrontGlued(front);
      ClosedGlued(front, lines[n]);
      JoinedClosed(lines);
      Unclosed(Joined(lines), Glued(front, true) + lines[n]);
    }
  }

  lemma NothingJoined()
    ensures Joined([]) == ""
  {
  }

  lemma Unclosed(a: string, b: string)
    requires a + "\n" == b + "\n"
    ensures a == b && a + "" == a
  {
    assert (a + "\n")[..|a|] == a && (b + "\n")[..|b|] == b;
    assert |a + "\n"| == |b + "\n"|;
  }

  lemma {:induction false} FrontGlued(lines: seq<string>)
    ensures Closed(lines) == Glued(lines, true)
  {
    if lines != [] {
      var n := |lines| - 1;
      FrontGlued(lines[..n]);
      ClosedGlued(lines[..n], lines[n]);
      assert lines == lines[..n] + [lines[n]];
    }
  }

  /** A file is created only where there is none and changed only where there is one;
      its hunks must all apply; a deleted one is gone; another one is written with line
      feeds, the last of them exactly if the file is new or ended in a line break. */
  lemma FileIs(item: FilePatch, file: Option<string>)
    ensures var r, text := AppliedFile(item, file), if file.Some? then file.value else "";
            if item.oldPath.None? && file.Some? then r == Err(TargetExists)
            else if item.oldPath.Some? && file.None? then r == Err(TargetMissing)
            else
              match Applied(item.hunks, Lines(text))
              case None => r == Err(ContextMismatch)
              case Some(lines) =>
                var last := item.oldPath.None? || (text != "" && text[|text| - 1] in {'\n', '\r'});
                r == Ok(if item.newPath.None? then None else Some(Glued(lines, last)))
  {
    hide Rendered, Lines, Applied;
    var text := if file.Some? then file.value else "";
    var lines := Applied(item.hunks, Lines(text));
    if lines.Some? {
      GluedIs(lines.value, EndsInBreak(text) || item.oldPath.None?);
    }
  }

  // ---- what a patch is refused for ----

  /** A patch of a file is about its new path, or about the old one if it is deleted. */
  lemma PathIs(item: FilePatch, path: string)
    requires SoundFile(item) && path != ""
    ensures PathOf(item) == path
            <==> item.newPath == Some(path) || (item.newPath == None && item.oldPath == Some(path))
  {
    hide SoundHunk;
  }

  /** The first file at fault decides: it does not decode, does not take its hunks, or
      comes out over 2 MiB; or with it the new files are over 8 MiB together. */
  ghost predicate FaultAt(files: map<string, string>, items: seq<FilePatch>, how: Files, k: nat, error: PatchError)
    requires k < |items|
  {
    var path := PathOf(items[k]);
    var before := if path in files then Some(files[path]) else None;
    var made := AppliedFile(items[k], before);
    if before.Some? && !how.decodes(before.value) then error == Undecodable
    else if made.Err? then error == made.error
    else if made.value.Some? && how.size(made.value.value) > 2_097_152 then error == FileTooLarge
    else TotalSize(files, items[..k + 1], how) > 8_388_608 && error == ResultTooLarge
  }

  lemma {:induction false} FirstFault(files: map<string, string>, items: seq<FilePatch>, how: Files) returns (k: nat)
    ensures k <= |items|
    ensures forall j, e | 0 <= j < k :: !FaultAt(files, items, how, j, e)
    ensures if k < |items| then PatchErrorIn(files, items, how).Some?
                                && FaultAt(files, items, how, k, PatchErrorIn(files, items, how).value)
            else PatchErrorIn(files, items, how).None?
  {
    hide AppliedFile, TotalSize;
    k := 0;
    if items != [] {
      var n := |items| - 1;
      k := FirstFault(files, items[..n], how);
      forall j, e | 0 <= j < n ensures FaultAt(files, items, how, j, e) <==> FaultAt(files, items[..n], how, j, e) {
        assert items[..n][..j + 1] == items[..j + 1];
      }
      assert items[..n + 1] == items;
      if k == n && PatchErrorIn(files, items, how).None? {
        k := n + 1;
      }
    }
  }

  /** Sizes add up over the files that are kept. */
  lemma {:induction false} SizesAdd(files: map<string, string>, items: seq<FilePatch>, item: FilePatch, how: Files)
    ensures TotalSize(files, [], how) == 0
    ensures TotalSize(files, items + [item], how)
            == TotalSize(files, items, how)
               + match AppliedFile(item, if PathOf(item) in files then Some(files[PathOf(item)]) else None)
                 case Ok(Some(text)) => how.size(text)
                 case _ => 0
  {
    assert (items + [item])[..|items|] == items;
  }

  /** A failed write is reported as one exactly if each temporary file that was made can
      be removed. */
  lemma {:induction false} UnwrittenIs(files: map<string, string>, text: string, how: Files, faults: Faults)
    requires ParseDiff(text, how.fold).Ok?
    ensures var changes := ChangesOf(files, ParseDiff(text, how.fold).value);
            Unwritten(files, text, how, faults)
            == if forall k | 0 <= k < MadeTemps(changes, faults) :: !faults.cleanup(k) then WriteFailed else Unremoved
  {
    hide ParseDiff, ChangesOf, MadeTemps;
  }
}
