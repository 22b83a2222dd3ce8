/** Applying the hunks of one file (`_apply_file_patch` in
    src/leanharness/tools/controlled.py). */
module PatchApplying {
  import opened Text
  import opened TextLines

  datatype Result<+T> = Ok(value: T) | Err(error: PatchError)

  datatype PatchError =
    | InvalidArguments
    | PatchTooLarge
    | Invalid
    | RenameDenied
    | TooManyFiles
    | OutsideWorkspace
    | TargetExists
    | TargetMissing
    | ContextMismatch
    | Undecodable
    | Stale
    | FileTooLarge
    | ResultTooLarge
    | WriteFailed
    | Unremoved       // a temporary file that cannot be removed: its own error escapes

  datatype Hunk = Hunk(oldStart: nat, oldCount: nat, newStart: nat, newCount: nat, body: seq<string>)

  datatype FilePatch = FilePatch(oldPath: Option<string>, newPath: Option<string>, hunks: seq<Hunk>)

  predicate BodyLine(line: string) {
    line != "" && (line[0] == ' ' || line[0] == '+' || line[0] == '-')
  }

  predicate AllBodyLines(body: seq<string>) {
    forall k | 0 <= k < |body| :: BodyLine(body[k])
  }

  predicate Readable(hunks: seq<Hunk>) {
    forall k | 0 <= k < |hunks| :: AllBodyLines(hunks[k].body)
  }

  // ---- the two sides of a hunk ----

  predicate OnOld(line: string) { BodyLine(line) && line[0] != '+' }
  predicate OnNew(line: string) { BodyLine(line) && line[0] != '-' }

  function OldSide(body: seq<string>): seq<string> {
    if body == [] then []
    else
      var line := body[|body| - 1];
      OldSide(body[..|body| - 1]) + if OnOld(line) then [line[1..]] else []
  }

  function NewSide(body: seq<string>): seq<string> {
    if body == [] then []
    else
      var line := body[|body| - 1];
      NewSide(body[..|body| - 1]) + if OnNew(line) then [line[1..]] else []
  }

  lemma {:induction false} SidesSnoc(body: seq<string>, line: string)
    ensures OldSide(body + [line]) == OldSide(body) + if OnOld(line) then [line[1..]] else []
    ensures NewSide(body + [line]) == NewSide(body) + if OnNew(line) then [line[1..]] else []
  {
    assert (body + [line])[..|body|] == body;
  }

  /** The line where a hunk starts, as the code reads its header. */
  function Target(h: Hunk): nat {
    if h.oldStart > 0 then h.oldStart - 1 else 0
  }

  // ---- what applying means ----

  /** How far the new lines and the old lines have got. */
  datatype Spot = Spot(result: seq<string>, cursor: nat)

  function After(spot: Spot, h: Hunk, lines: seq<string>): Option<Spot> {
    var at := Target(h);
    if at < spot.cursor || at > |lines| || !(OldSide(h.body) <= lines[at..]) then None
    else Some(Spot(spot.result + lines[spot.cursor..at] + NewSide(h.body), at + |OldSide(h.body)|))
  }

  function Placed(hunks: seq<Hunk>, lines: seq<string>): (spot: Option<Spot>)
    ensures spot.Some? ==> spot.value.cursor <= |lines|
  {
    if hunks == [] then Some(Spot([], 0))
    else
      var before := Placed(hunks[..|hunks| - 1], lines);
      if before.None? then None else After(before.value, hunks[|hunks| - 1], lines)
  }

  function Applied(hunks: seq<Hunk>, lines: seq<string>): Option<seq<string>> {
    var spot := Placed(hunks, lines);
    if spot.None? then None else Some(spot.value.result + lines[spot.value.cursor..])
  }

  /** One hunk in place: the untouched lines before it, what it removes, what it puts there. */
  datatype Piece = Piece(gap: seq<string>, before: seq<string>, after: seq<string>)

  function OldLines(pieces: seq<Piece>): seq<string> {
    if pieces == [] then []
    else
      var last := pieces[|pieces| - 1];
      OldLines(pieces[..|pieces| - 1]) + last.gap + last.before
  }

  function NewLines(pieces: seq<Piece>): seq<string> {
    if pieces == [] then []
    else
      var last := pieces[|pieces| - 1];
      NewLines(pieces[..|pieces| - 1]) + last.gap + last.after
  }

  /** The pieces are these hunks, each where its header says. */
  ghost predicate Fits(pieces: seq<Piece>, hunks: seq<Hunk>) {
    && |pieces| == |hunks|
    && forall k | 0 <= k < |hunks| ::
         && pieces[k].before == OldSide(hunks[k].body) && pieces[k].after == NewSide(hunks[k].body)
         && |OldLines(pieces[..k])| + |pieces[k].gap| == Target(hunks[k])
  }

  lemma {:induction false} FitsSnoc(pieces: seq<Piece>, hunks: seq<Hunk>, piece: Piece, h: Hunk)
    ensures Fits(pieces + [piece], hunks + [h]) <==>
              && Fits(pieces, hunks)
              && piece.before == OldSide(h.body) && piece.after == NewSide(h.body)
              && |OldLines(pieces)| + |piece.gap| == Target(h)
  {
    var ps, hs := pieces + [piece], hunks + [h];
    if |pieces| == |hunks| {
      forall k | 0 <= k < |hunks| ensures ps[..k] == pieces[..k] && ps[k] == pieces[k] && hs[k] == hunks[k] {}
      assert ps[..|hunks|] == pieces && ps[|hunks|] == piece && hs[|hunks|] == h;
    }
  }

  lemma {:induction false} LinesSnoc(pieces: seq<Piece>, piece: Piece)
    ensures OldLines(pieces + [piece]) == OldLines(pieces) + piece.gap + piece.before
    ensures NewLines(pieces + [piece]) == NewLines(pieces) + piece.gap + piece.after
  {
    assert (pieces + [piece])[..|pieces|] == pieces;
  }

  lemma {:induction false} PlacedSnoc(hunks: seq<Hunk>, h: Hunk, lines: seq<string>)
    ensures Placed(hunks + [h], lines) ==
            if Placed(hunks, lines).None? then None else After(Placed(hunks, lines).value, h, lines)
  {
    assert (hunks + [h])[..|hunks|] == hunks;
  }

  /** The pieces a successful application found. */
  function PiecesOf(hunks: seq<Hunk>, lines: seq<string>): (pieces: seq<Piece>)
    requires Placed(hunks, lines).Some?
  {
    if hunks == [] then []
    else
      var older, h := hunks[..|hunks| - 1], hunks[|hunks| - 1];
      var cursor := Placed(older, lines).value.cursor;
      PiecesOf(older, lines) + [Piece(lines[cursor..Target(h)], OldSide(h.body), NewSide(h.body))]
  }

  lemma {:induction false} PiecesFit(hunks: seq<Hunk>, lines: seq<string>)
    requires Placed(hunks, lines).Some?
    ensures Fits(PiecesOf(hunks, lines), hunks)
    ensures OldLines(PiecesOf(hunks, lines)) == lines[..Placed(hunks, lines).value.cursor]
    ensures NewLines(PiecesOf(hunks, lines)) == Placed(hunks, lines).value.result
  {
    hide OldSide, NewSide;
    if hunks != [] {
      var older, h := hunks[..|hunks| - 1], hunks[|hunks| - 1];
      assert hunks == older + [h];
      PlacedSnoc(older, h, lines);
      var spot := Placed(older, lines).value;
      var piece := Piece(lines[spot.cursor..Target(h)], OldSide(h.body), NewSide(h.body));
      assert PiecesOf(hunks, lines) == PiecesOf(older, lines) + [piece];
      PiecesFit(older, lines);
      hide Fits, OldLines, NewLines, Placed, PiecesOf;
      OneMoreFits(PiecesOf(older, lines), older, spot, h, lines);
    }
  }

  lemma {:induction false} OneMoreFits(pieces: seq<Piece>, older: seq<Hunk>, spot: Spot, h: Hunk, lines: seq<string>)
    requires Fits(pieces, older) && spot.cursor <= |lines| && After(spot, h, lines).Some?
    requires OldLines(pieces) == lines[..spot.cursor] && NewLines(pieces) == spot.result
    ensures var piece := Piece(lines[spot.cursor..Target(h)], OldSide(h.body), NewSide(h.body));
            var next := After(spot, h, lines).value;
            && Fits(pieces + [piece], older + [h])
            && next.cursor <= |lines|
            && OldLines(pieces + [piece]) == lines[..next.cursor]
            && NewLines(pieces + [piece]) == next.result
  {
    hide Fits, OldLines, NewLines, OldSide, NewSide;
    var at := Target(h);
    var piece := Piece(lines[spot.cursor..at], OldSide(h.body), NewSide(h.body));
    FitsSnoc(pieces, older, piece, h);
    LinesSnoc(pieces, piece);
    PrefixThen(lines, spot.cursor, at, OldSide(h.body));
  }

  lemma PrefixThen<T>(s: seq<T>, a: nat, b: nat, t: seq<T>)
    requires a <= b <= |s| && t <= s[b..]
    ensures b + |t| <= |s| && s[..a] + s[a..b] + t == s[..b + |t|]
  {
  }

  lemma {:induction false} FittingStep(front: seq<Piece>, older: seq<Hunk>, piece: Piece, h: Hunk, lines: seq<string>)
    requires Fits(front + [piece], older + [h]) && OldLines(front + [piece]) <= lines
    requires Fits(front, older) && OldLines(front) <= lines
             ==> Placed(older, lines) == Some(Spot(NewLines(front), |OldLines(front)|))
    ensures Placed(older + [h], lines) == Some(Spot(NewLines(front + [piece]), |OldLines(front + [piece])|))
  {
    hide OldSide, NewSide, Fits, OldLines, NewLines, Placed;
    FitsSnoc(front, older, piece, h);
    LinesSnoc(front, piece);
    PrefixParts(OldLines(front), piece.gap, piece.before, lines);
    PlacedSnoc(older, h, lines);
  }

  /** Any pieces that fit and spell out the old lines are the ones applying finds. */
  lemma {:induction false} FittingPlaces(pieces: seq<Piece>, hunks: seq<Hunk>, lines: seq<string>)
    requires Fits(pieces, hunks) && OldLines(pieces) <= lines
    ensures Placed(hunks, lines) == Some(Spot(NewLines(pieces), |OldLines(pieces)|))
  {
    FitsLength(pieces, hunks);
    if hunks != [] {
      hide OldSide, NewSide, Fits, OldLines, NewLines, Placed, After;
      var n := |hunks| - 1;
      SplitLast(hunks);
      SplitLast(pieces);
      FitsSnoc(pieces[..n], hunks[..n], pieces[n], hunks[n]);
      LinesSnoc(pieces[..n], pieces[n]);
      PrefixParts(OldLines(pieces[..n]), pieces[n].gap, pieces[n].before, lines);
      FittingPlaces(pieces[..n], hunks[..n], lines);
      FittingStep(pieces[..n], hunks[..n], pieces[n], hunks[n], lines);
    }
  }

  lemma PrefixParts<T>(a: seq<T>, b: seq<T>, c: seq<T>, s: seq<T>)
    requires a + b + c <= s
    ensures a <= s && s[|a|..|a| + |b|] == b && c <= s[|a| + |b|..]
  {
    assert s[..|a + b + c|] == a + b + c;
    assert s[..|a|] == a;
    assert s[|a| + |b|..][..|c|] == c;
  }

  /** Applying succeeds with some new lines exactly when old and new lines fall
      into the same untouched gaps around the two sides of each hunk, every hunk
      standing where its header says. */
  lemma AppliedIff(hunks: seq<Hunk>, lines: seq<string>, result: seq<string>)
    ensures Applied(hunks, lines) == Some(result) <==>
            exists pieces: seq<Piece>, tail: seq<string> ::
              Fits(pieces, hunks) && lines == OldLines(pieces) + tail && result == NewLines(pieces) + tail
  {
    hide Fits, OldLines, NewLines, Placed;
    if Applied(hunks, lines) == Some(result) {
      PiecesFit(hunks, lines);
      var pieces, cursor := PiecesOf(hunks, lines), Placed(hunks, lines).value.cursor;
      assert lines == OldLines(pieces) + lines[cursor..];
      assert result == NewLines(pieces) + lines[cursor..];
    }
    if exists pieces: seq<Piece>, tail: seq<string> ::
         Fits(pieces, hunks) && lines == OldLines(pieces) + tail && result == NewLines(pieces) + tail
    {
      var pieces: seq<Piece>, tail: seq<string> :|
        Fits(pieces, hunks) && lines == OldLines(pieces) + tail && result == NewLines(pieces) + tail;
      FittingPlaces(pieces, hunks, lines);
      assert lines[|OldLines(pieces)|..] == tail;
    }
  }

  // ---- line counts ----

  /** The header counts are those of the body. */
  predicate Counted(h: Hunk) {
    h.oldCount == |OldSide(h.body)| && h.newCount == |NewSide(h.body)|
  }

  function Growth(hunks: seq<Hunk>): int {
    if hunks == [] then 0
    else Growth(hunks[..|hunks| - 1]) + hunks[|hunks| - 1].newCount - hunks[|hunks| - 1].oldCount
  }

  lemma {:induction false} GrowthSnoc(hunks: seq<Hunk>, h: Hunk)
    ensures Growth(hunks + [h]) == Growth(hunks) + h.newCount - h.oldCount
  {
    assert (hunks + [h])[..|hunks|] == hunks;
  }

  lemma {:induction false} GrowthStep(front: seq<Piece>, older: seq<Hunk>, piece: Piece, h: Hunk)
    requires Fits(front + [piece], older + [h]) && Counted(h)
    requires Fits(front, older) ==> |NewLines(front)| - |OldLines(front)| == Growth(older)
    ensures |NewLines(front + [piece])| - |OldLines(front + [piece])| == Growth(older + [h])
  {
    SidesCounted(h);
    hide OldSide, NewSide, OldLines, NewLines, Growth, Fits, Counted;
    FitsSnoc(front, older, piece, h);
    LinesSnoc(front, piece);
    GrowthSnoc(older, h);
  }

  lemma SplitLast<T>(s: seq<T>)
    requires s != []
    ensures s == s[..|s| - 1] + [s[|s| - 1]]
  {
  }

  lemma {:induction false} PiecesGrowth(pieces: seq<Piece>, hunks: seq<Hunk>)
    requires Fits(pieces, hunks) && forall k | 0 <= k < |hunks| :: Counted(hunks[k])
    ensures |NewLines(pieces)| - |OldLines(pieces)| == Growth(hunks)
  {
    FitsLength(pieces, hunks);
    hide OldLines, NewLines, Growth, Fits, Counted;
    if hunks == [] {
      NoGrowth();
    } else {
      var n := |hunks| - 1;
      SplitLast(hunks);
      SplitLast(pieces);
      FitsSnoc(pieces[..n], hunks[..n], pieces[n], hunks[n]);
      PiecesGrowth(pieces[..n], hunks[..n]);
      GrowthStep(pieces[..n], hunks[..n], pieces[n], hunks[n]);
    }
  }

  lemma FitsLength(pieces: seq<Piece>, hunks: seq<Hunk>)
    requires Fits(pieces, hunks)
    ensures |pieces| == |hunks|
  {
  }

  lemma NoGrowth()
    ensures Growth([]) == 0 && OldLines([]) == [] && NewLines([]) == []
  {
  }

  lemma SidesCounted(h: Hunk)
    requires Counted(h)
    ensures h.oldCount == |OldSide(h.body)| && h.newCount == |NewSide(h.body)|
  {
  }

  /** The number of lines changes by exactly what the headers say. */
  lemma {:induction false} AppliedGrowth(hunks: seq<Hunk>, lines: seq<string>)
    requires Applied(hunks, lines).Some? && forall k | 0 <= k < |hunks| :: Counted(hunks[k])
    ensures |Applied(hunks, lines).value| - |lines| == Growth(hunks)
  {
    hide Fits, OldLines, NewLines, Placed, Counted, Growth;
    PiecesFit(hunks, lines);
    PiecesGrowth(PiecesOf(hunks, lines), hunks);
  }

  // ---- undoing ----

  function Flip(line: string): string {
    if line == "" then line
    else (if line[0] == '+' then "-" else if line[0] == '-' then "+" else [line[0]]) + line[1..]
  }

  function FlipAll(body: seq<string>): (out: seq<string>)
    ensures |out| == |body|
    ensures forall k | 0 <= k < |body| :: out[k] == Flip(body[k])
  {
    seq(|body|, k requires 0 <= k < |body| => Flip(body[k]))
  }

  /** The hunk with added and removed lines exchanged, placed at a line of the new file. */
  function Reverse(h: Hunk, at: nat): Hunk {
    Hunk(at + 1, h.newCount, h.oldStart, h.oldCount, FlipAll(h.body))
  }

  /** Where the hunks ended up in the new lines. */
  function Offset(hunks: seq<Hunk>, lines: seq<string>, k: nat): nat
    requires k < |hunks| && Placed(hunks[..k], lines).Some?
  {
    var spot := Placed(hunks[..k], lines).value;
    |spot.result| + if Target(hunks[k]) < spot.cursor then 0 else Target(hunks[k]) - spot.cursor
  }

  lemma {:induction false} PlacedPrefix(hunks: seq<Hunk>, lines: seq<string>, k: nat)
    requires k <= |hunks| && Placed(hunks, lines).Some?
    ensures Placed(hunks[..k], lines).Some?
  {
    if k == |hunks| {
      assert hunks[..k] == hunks;
    } else {
      var older := hunks[..|hunks| - 1];
      PlacedPrefix(older, lines, k);
      assert older[..k] == hunks[..k];
    }
  }

  function Reversed(hunks: seq<Hunk>, lines: seq<string>): (out: seq<Hunk>)
    requires Placed(hunks, lines).Some?
    ensures |out| == |hunks|
  {
    if hunks == [] then []
    else
      var n := |hunks| - 1;
      Reversed(hunks[..n], lines) + [Reverse(hunks[n], Offset(hunks, lines, n))]
  }

  lemma FlipLast(body: seq<string>)
    requires body != []
    ensures FlipAll(body)[..|body| - 1] == FlipAll(body[..|body| - 1])
    ensures FlipAll(body)[|body| - 1] == Flip(body[|body| - 1])
  {
    hide Flip;
  }

  /** A flipped line stands on the other side with the same text. */
  lemma FlippedLine(line: string)
    requires BodyLine(line)
    ensures BodyLine(Flip(line)) && Flip(line)[1..] == line[1..]
    ensures (OnOld(Flip(line)) <==> OnNew(line)) && (OnNew(Flip(line)) <==> OnOld(line))
  {
  }

  lemma {:induction false} FlippedSides(body: seq<string>)
    requires AllBodyLines(body)
    ensures OldSide(FlipAll(body)) == NewSide(body) && NewSide(FlipAll(body)) == OldSide(body)
  {
    if body != [] {
      hide FlipAll, Flip, BodyLine, OnOld, OnNew;
      var n := |body| - 1;
      FlippedSides(body[..n]);
      FlipLast(body);
      assert BodyLine(body[n]);
      FlippedLine(body[n]);
    }
  }

  function FlipPieces(pieces: seq<Piece>): (out: seq<Piece>)
    ensures |out| == |pieces|
  {
    seq(|pieces|, k requires 0 <= k < |pieces| => Piece(pieces[k].gap, pieces[k].after, pieces[k].before))
  }

  lemma {:induction false} FlippedLines(pieces: seq<Piece>)
    ensures OldLines(FlipPieces(pieces)) == NewLines(pieces)
    ensures NewLines(FlipPieces(pieces)) == OldLines(pieces)
  {
    if pieces != [] {
      var n := |pieces| - 1;
      FlippedLines(pieces[..n]);
      assert FlipPieces(pieces)[..n] == FlipPieces(pieces[..n]);
    }
  }

  lemma FlipSnoc(pieces: seq<Piece>, piece: Piece)
    ensures FlipPieces(pieces + [piece]) == FlipPieces(pieces) + [Piece(piece.gap, piece.after, piece.before)]
  {
  }

  /** The reversed hunk stands where its gap ends in the new lines. */
  lemma {:induction false} FlippedPlace(hunks: seq<Hunk>, lines: seq<string>)
    requires hunks != [] && Placed(hunks, lines).Some?
    ensures var n := |hunks| - 1;
            var spot, h := Placed(hunks[..n], lines).value, hunks[n];
            && spot.cursor <= Target(h) <= |lines|
            && |spot.result| + |lines[spot.cursor..Target(h)]| == Target(Reverse(h, Offset(hunks, lines, n)))
  {
    hide OldSide, NewSide, FlipAll;
  }

  lemma {:induction false} FlippedFit(hunks: seq<Hunk>, lines: seq<string>)
    requires Placed(hunks, lines).Some? && Readable(hunks)
    ensures Fits(FlipPieces(PiecesOf(hunks, lines)), Reversed(hunks, lines))
  {
    if hunks == [] {
      assert FlipPieces(PiecesOf(hunks, lines)) == [];
    } else {
      hide OldSide, NewSide, FlipAll, FlipPieces, Fits, OldLines, NewLines, AllBodyLines, Target, Offset;
      var n := |hunks| - 1;
      var older, h := hunks[..n], hunks[n];
      FlippedPlace(hunks, lines);
      FlippedFit(older, lines);
      PiecesFit(older, lines);
      FlippedSides(h.body);
      var pieces, spot := PiecesOf(older, lines), Placed(older, lines).value;
      var piece := Piece(lines[spot.cursor..Target(h)], OldSide(h.body), NewSide(h.body));
      FlippedLines(pieces);
      FlipSnoc(pieces, piece);
      FitsSnoc(FlipPieces(pieces), Reversed(older, lines), Piece(piece.gap, piece.after, piece.before),
               Reverse(h, Offset(hunks, lines, n)));
    }
  }

  /** The patch with added and removed lines exchanged, placed where its hunks
      ended up, takes the new lines back to the old ones. */
  lemma {:induction false} ReversedRestores(hunks: seq<Hunk>, lines: seq<string>)
    requires Applied(hunks, lines).Some? && Readable(hunks)
    ensures Applied(Reversed(hunks, lines), Applied(hunks, lines).value) == Some(lines)
  {
    hide Fits, OldLines, NewLines, Placed, Readable;
    PiecesFit(hunks, lines);
    FlippedFit(hunks, lines);
    var pieces, cursor := PiecesOf(hunks, lines), Placed(hunks, lines).value.cursor;
    FlippedLines(pieces);
    var tail := lines[cursor..];
    assert lines == OldLines(pieces) + tail;
    AppliedIff(Reversed(hunks, lines), NewLines(pieces) + tail, lines);
  }

  // ---- one file ----

  /** What becomes of a file: its new text, nothing when it is deleted, or an error. */
  function AppliedFile(item: FilePatch, file: Option<string>): Result<Option<string>> {
    if item.oldPath.None? && file.Some? then Err(TargetExists)
    else if item.oldPath.Some? && file.None? then Err(TargetMissing)
    else
      var text := if file.Some? then file.value else "";
      var lines := Applied(item.hunks, Lines(text));
      if lines.None? then Err(ContextMismatch)
      else if item.newPath.None? then Ok(None)
      else Ok(Some(Rendered(lines.value, EndsInBreak(text) || item.oldPath.None?)))
  }

  lemma {:induction false} SidePrefix(body: seq<string>, n: nat)
    requires n <= |body|
    ensures OldSide(body[..n]) <= OldSide(body)
  {
    if n == |body| {
      assert body[..n] == body;
    } else {
      SidePrefix(body[..|body| - 1], n);
      assert body[..|body| - 1][..n] == body[..n];
    }
  }

  /** One line of a hunk: context and removed lines must be the next old line. */
  method ApplyLine(line: string, lines: seq<string>, spot: Spot) returns (next: Option<Spot>)
    requires BodyLine(line) && spot.cursor <= |lines|
    ensures OnOld(line) ==> (next.Some? <==> spot.cursor < |lines| && lines[spot.cursor] == line[1..])
    ensures !OnOld(line) ==> next.Some?
    ensures next.Some? ==>
              next.value == Spot(spot.result + (if OnNew(line) then [line[1..]] else []),
                                 spot.cursor + if OnOld(line) then 1 else 0)
  {
    var marker, content := line[0], line[1..];
    var result, cursor := spot.result, spot.cursor;
    if marker == ' ' || marker == '-' {
      if cursor >= |lines| || lines[cursor] != content {
        return None;
      }
      if marker == ' ' {
        result := result + [content];
      }
      cursor := cursor + 1;
    } else {
      result := result + [content];
    }
    next := Some(Spot(result, cursor));
  }

  method ApplyHunk(h: Hunk, lines: seq<string>, spot: Spot) returns (next: Option<Spot>)
    requires AllBodyLines(h.body) && spot.cursor <= |lines|
    ensures next == After(spot, h, lines)
  {
    hide OldSide, NewSide, OnOld, OnNew;
    var at := Target(h);
    if at < spot.cursor || at > |lines| {
      return None;
    }
    var start := spot.result + lines[spot.cursor..at];
    var current := Spot(start, at);
    NoSides(h.body);
    for k := 0 to |h.body|
      invariant at <= current.cursor <= |lines|
      invariant lines[at..current.cursor] == OldSide(h.body[..k])
      invariant current.result == start + NewSide(h.body[..k])
    {
      assert BodyLine(h.body[k]);
      assert h.body[..k + 1] == h.body[..k] + [h.body[k]];
      SidesSnoc(h.body[..k], h.body[k]);
      next := ApplyLine(h.body[k], lines, current);
      if next.None? {
        NotNext(lines, at, current.cursor, OldSide(h.body[..k]), h.body[k][1..], OldSide(h.body[..k + 1]));
        SidePrefix(h.body, k + 1);
        NotPrefix(OldSide(h.body[..k + 1]), OldSide(h.body), lines[at..]);
        return;
      }
      OneMoreLine(lines, at, current.cursor, OnOld(h.body[k]));
      current := next.value;
    }
    assert h.body[..|h.body|] == h.body;
    SliceIsPrefix(lines, at, current.cursor);
    next := Some(current);
  }

  lemma NoSides(body: seq<string>)
    ensures OldSide(body[..0]) == [] && NewSide(body[..0]) == []
  {
  }

  lemma NotNext<T>(s: seq<T>, a: nat, c: nat, front: seq<T>, x: T, all: seq<T>)
    requires a <= c <= |s| && s[a..c] == front && all == front + [x]
    requires c == |s| || s[c] != x
    ensures !(all <= s[a..])
  {
  }

  lemma NotPrefix<T>(a: seq<T>, b: seq<T>, s: seq<T>)
    requires a <= b && !(a <= s)
    ensures !(b <= s)
  {
  }

  lemma OneMoreLine<T>(s: seq<T>, a: nat, c: nat, more: bool)
    requires a <= c <= |s| && (more ==> c < |s|)
    ensures more ==> s[a..c + 1] == s[a..c] + [s[c]]
  {
  }

  lemma SliceIsPrefix<T>(s: seq<T>, a: nat, c: nat)
    requires a <= c <= |s|
    ensures s[a..c] <= s[a..]
  {
  }

  /** The hunk loop of `_apply_file_patch`. */
  method ApplyFilePatch(item: FilePatch, file: Option<string>) returns (r: Result<Option<string>>)
    requires Readable(item.hunks)
    ensures r == AppliedFile(item, file)
  {
    hide After, Rendered, Lines, EndsInBreak;
    if item.oldPath.None? && file.Some? {
      return Err(TargetExists);
    }
    if item.oldPath.Some? && file.None? {
      return Err(TargetMissing);
    }
    var text := if file.Some? then file.value else "";
    var lines := Lines(text);
    var spot := Spot([], 0);
    for k := 0 to |item.hunks|
      invariant spot.cursor <= |lines| && Placed(item.hunks[..k], lines) == Some(spot)
    {
      assert item.hunks[..k + 1] == item.hunks[..k] + [item.hunks[k]];
      PlacedSnoc(item.hunks[..k], item.hunks[k], lines);
      var next := ApplyHunk(item.hunks[k], lines, spot);
      if next.None? {
        if Placed(item.hunks, lines).Some? {
          PlacedPrefix(item.hunks, lines, k + 1);
        }
        return Err(ContextMismatch);
      }
      spot := next.value;
    }
    assert item.hunks[..|item.hunks|] == item.hunks;
    if item.newPath.None? {
      return Ok(None);
    }
    var trailing := EndsInBreak(text) || item.oldPath.None?;
    r := Ok(Some(Rendered(spot.result + lines[spot.cursor..], trailing)));
  }

  // ---- undoing a patched file ----

  predicate OneLineBodies(hunks: seq<Hunk>) {
    forall k | 0 <= k < |hunks| :: AllOneLine(hunks[k].body)
  }

  lemma {:induction false} NewSideOneLine(body: seq<string>)
    requires AllOneLine(body)
    ensures AllOneLine(NewSide(body))
  {
    if body != [] {
      NewSideOneLine(body[..|body| - 1]);
      assert OneLine(body[|body| - 1]);
    }
  }

  lemma OneLineThen(a: seq<string>, b: seq<string>)
    requires AllOneLine(a) && AllOneLine(b)
    ensures AllOneLine(a + b)
  {
  }

  lemma {:induction false} PlacedOneLine(hunks: seq<Hunk>, lines: seq<string>)
    requires Placed(hunks, lines).Some? && OneLineBodies(hunks) && AllOneLine(lines)
    ensures AllOneLine(Placed(hunks, lines).value.result)
  {
    if hunks != [] {
      hide OldSide, NewSide, OneLine;
      var n := |hunks| - 1;
      PlacedOneLine(hunks[..n], lines);
      NewSideOneLine(hunks[n].body);
      var spot := Placed(hunks[..n], lines).value;
      OneLineThen(spot.result, lines[spot.cursor..Target(hunks[n])]);
      OneLineThen(spot.result + lines[spot.cursor..Target(hunks[n])], NewSide(hunks[n].body));
    }
  }

  lemma {:induction false} FlippedOneLine(body: seq<string>)
    requires AllOneLine(body)
    ensures AllOneLine(FlipAll(body))
  {
    forall k | 0 <= k < |body| ensures OneLine(FlipAll(body)[k]) {
      assert OneLine(body[k]);
    }
  }

  lemma ReverseSound(h: Hunk, at: nat)
    requires AllBodyLines(h.body) && AllOneLine(h.body) && Counted(h)
    ensures AllOneLine(Reverse(h, at).body) && Counted(Reverse(h, at))
  {
    hide OldSide, NewSide, FlipAll;
    FlippedSides(h.body);
    FlippedOneLine(h.body);
  }

  predicate AllCounted(hunks: seq<Hunk>) {
    forall k | 0 <= k < |hunks| :: Counted(hunks[k])
  }

  lemma {:induction false} LastHunk(hunks: seq<Hunk>)
    requires hunks != [] && Readable(hunks) && OneLineBodies(hunks) && AllCounted(hunks)
    ensures var n := |hunks| - 1;
            && Readable(hunks[..n]) && OneLineBodies(hunks[..n]) && AllCounted(hunks[..n])
            && AllBodyLines(hunks[n].body) && AllOneLine(hunks[n].body) && Counted(hunks[n])
            && Growth(hunks) == Growth(hunks[..n]) + hunks[n].newCount - hunks[n].oldCount
  {
    hide Counted, AllBodyLines, AllOneLine;
  }

  lemma {:induction false} OneMoreHunk(hunks: seq<Hunk>, h: Hunk)
    requires OneLineBodies(hunks) && AllCounted(hunks) && AllOneLine(h.body) && Counted(h)
    ensures OneLineBodies(hunks + [h]) && AllCounted(hunks + [h])
    ensures Growth(hunks + [h]) == Growth(hunks) + h.newCount - h.oldCount
  {
    hide Counted, AllOneLine, Growth;
    GrowthSnoc(hunks, h);
  }

  /** Of the reversed hunks: counts that match, one-line bodies, the opposite growth. */
  lemma {:induction false} ReversedSound(hunks: seq<Hunk>, lines: seq<string>)
    requires Placed(hunks, lines).Some? && Readable(hunks) && OneLineBodies(hunks) && AllCounted(hunks)
    ensures var back := Reversed(hunks, lines);
            OneLineBodies(back) && AllCounted(back) && Growth(back) == -Growth(hunks)
  {
    if hunks != [] {
      hide Reverse, Counted, AllBodyLines, AllOneLine, OneLineBodies, AllCounted, Readable, Growth, Offset;
      var n := |hunks| - 1;
      LastHunk(hunks);
      ReversedSound(hunks[..n], lines);
      var last := Reverse(hunks[n], Offset(hunks, lines, n));
      ReverseSound(hunks[n], Offset(hunks, lines, n));
      ReverseCounts(hunks[n], Offset(hunks, lines, n));
      OneMoreHunk(Reversed(hunks[..n], lines), last);
    }
  }

  lemma ReverseCounts(h: Hunk, at: nat)
    ensures Reverse(h, at).oldCount == h.newCount && Reverse(h, at).newCount == h.oldCount
  {
  }

  lemma {:induction false} AppliedOneLine(hunks: seq<Hunk>, lines: seq<string>)
    requires Applied(hunks, lines).Some? && OneLineBodies(hunks) && AllOneLine(lines)
    ensures AllOneLine(Applied(hunks, lines).value)
  {
    hide AllOneLine, Placed;
    var spot := Placed(hunks, lines).value;
    PlacedOneLine(hunks, lines);
    TailOneLine(lines, spot.cursor);
    OneLineThen(spot.result, lines[spot.cursor..]);
  }

  /** A rendered text never has more lines than it was rendered from. */
  lemma RenderedCount(lines: seq<string>, trailing: bool)
    requires AllOneLine(lines)
    ensures |Lines(Rendered(lines, trailing))| <= |lines|
  {
    hide Lines, OneLine;
    if trailing && lines != [] {
      JoinedClosed(lines);
      ClosedLines(lines);
    } else {
      JoinedLines(lines);
      assert Rendered(lines, trailing) == Joined(lines);
    }
  }

  /** The file keeps what it needs to be patched back: lines, or no last break, and
      no empty line at an unterminated end. */
  predicate Undoable(lines: seq<string>, trailing: bool) {
    if lines == [] then !trailing else trailing || lines[|lines| - 1] != ""
  }

  /** If the new text loses an empty last line, the old one does not come back. */
  lemma {:induction false} LineLost(hunks: seq<Hunk>, before: seq<string>, trailing: bool)
    requires Readable(hunks) && OneLineBodies(hunks) && AllCounted(hunks)
    requires AllOneLine(before) && Applied(hunks, before).Some?
    requires var lines := Applied(hunks, before).value;
             && lines != [] && lines[|lines| - 1] == ""
             && Placed(hunks, before).Some?
    ensures var lines := Applied(hunks, before).value;
            var left := Lines(Rendered(lines, false));
            var again := Applied(Reversed(hunks, before), left);
            again.Some? ==> |Lines(Rendered(again.value, trailing))| < |before|
  {
    hide Lines, OneLine, Readable, OneLineBodies, Counted, Rendered, Reversed, Growth, AllOneLine;
    var lines := Applied(hunks, before).value;
    AppliedOneLine(hunks, before);
    RenderedTrimmed(lines);
    var left, back := lines[..|lines| - 1], Reversed(hunks, before);
    AppliedGrowth(hunks, before);
    ReversedSound(hunks, before);
    if Applied(back, left).Some? {
      AppliedGrowth(back, left);
      HeadOneLine(lines, |lines| - 1);
      AppliedOneLine(back, left);
      RenderedCount(Applied(back, left).value, trailing);
    }
  }

  lemma RenderedTrimmed(lines: seq<string>)
    requires AllOneLine(lines) && lines != [] && lines[|lines| - 1] == ""
    ensures Lines(Rendered(lines, false)) == lines[..|lines| - 1]
  {
    hide Lines, OneLine;
    JoinedLines(lines);
    assert Rendered(lines, false) == Joined(lines);
  }

  lemma HeadOneLine(lines: seq<string>, n: nat)
    requires AllOneLine(lines) && n <= |lines|
    ensures AllOneLine(lines[..n])
  {
  }

  /** A text that ends in a break is not what its lines render to without one. */
  lemma {:induction false} BreakNeeded(text: string)
    requires AllOneLine(Lines(text)) && EndsInBreak(text)
    ensures Rendered(Lines(text), false) != text
  {
    hide Lines, OneLine;
    var lines := Lines(text);
    assert Rendered(lines, false) == Joined(lines);
    if Joined(lines) == text {
      JoinedLines(lines);
      if lines != [] && lines[|lines| - 1] != "" {
        JoinedEnds(lines);
      }
    }
  }

  /** A file patched in place and then patched back has its old text again exactly when
      that text has line feeds only, and the new one keeps what is needed: an emptied
      file loses its last break, and an unterminated empty last line is lost. */
  lemma {:induction false} UndoneIff(item: FilePatch, text: string)
    requires item.oldPath.Some? && item.newPath.Some? && Readable(item.hunks) && OneLineBodies(item.hunks)
    requires AllCounted(item.hunks) && Applied(item.hunks, Lines(text)).Some?
    ensures var back := FilePatch(item.newPath, item.oldPath, Reversed(item.hunks, Lines(text)));
            var patched := AppliedFile(item, Some(text));
            && patched.Ok? && patched.value.Some?
            && (AppliedFile(back, patched.value) == Ok(Some(text))
                <==> text == Rendered(Lines(text), EndsInBreak(text))
                     && Undoable(Applied(item.hunks, Lines(text)).value, EndsInBreak(text)))
  {
    hide Lines, Rendered, EndsInBreak, Placed, Reversed, AllOneLine, Counted, Readable, OneLineBodies;
    var before, lines, ends := Lines(text), Applied(item.hunks, Lines(text)).value, EndsInBreak(text);
    ReversedRestores(item.hunks, before);
    AppliedOneLine(item.hunks, before);
    RenderedLines(lines, ends);
    if lines == [] {
      EmptyRendered(ends);
      if ends {
        BreakNeeded(text);
      }
    } else if ends || lines[|lines| - 1] != "" {
      RenderedEnds(lines, ends);
    } else {
      LineLost(item.hunks, before, EndsInBreak(Rendered(lines, ends)));
    }
  }

  lemma EmptyRendered(trailing: bool)
    ensures Rendered([], trailing) == "" && Lines("") == [] && !EndsInBreak("")
  {
  }

  // ---- a text that does not come back ----

  /** One line is changed. */
  const LETTER_CHANGE := FilePatch(Some("f"), Some("f"), [Hunk(1, 1, 1, 1, ["-a", "+b"])])

  lemma LetterLines()
    ensures Lines("a\r\n") == ["a"] && Lines("b\n") == ["b"]
    ensures EndsInBreak("a\r\n") && EndsInBreak("b\n")
    ensures Rendered(["a"], true) == "a\n" && Rendered(["b"], true) == "b\n"
  {
    assert FirstBreak("a\r\n") == 1 && "a\r\n"[..1] == "a" && "a\r\n"[3..] == "" by {
      assert "a\r\n"[1..][0] == '\r';
    }
    assert FirstBreak("b\n") == 1 && "b\n"[..1] == "b" && "b\n"[2..] == "" by {
      assert "b\n"[1..][0] == '\n';
    }
    assert Lines("") == [];
  }

  lemma {:induction false} LetterChanged()
    ensures Placed(LETTER_CHANGE.hunks, ["a"]) == Some(Spot(["b"], 1))
  {
    var h := LETTER_CHANGE.hunks[0];
    SidesSnoc([], "-a");
    SidesSnoc(["-a"], "+b");
    assert [] + ["-a"] == ["-a"] && ["-a"] + ["+b"] == h.body && "-a"[1..] == "a" && "+b"[1..] == "b";
    assert OldSide(h.body) == ["a"] && NewSide(h.body) == ["b"];
    assert LETTER_CHANGE.hunks == [] + [h];
    PlacedSnoc([], h, ["a"]);
    assert ["a"][0..] == ["a"];
  }

  /** A carriage return is lost: patched and patched back, the line ends in a line
      feed only. */
  lemma {:induction false} CarriageReturnIsLost()
    ensures Placed(LETTER_CHANGE.hunks, Lines("a\r\n")).Some?
    ensures var back := FilePatch(Some("f"), Some("f"), Reversed(LETTER_CHANGE.hunks, Lines("a\r\n")));
            && AppliedFile(LETTER_CHANGE, Some("a\r\n")) == Ok(Some("b\n"))
            && AppliedFile(back, Some("b\n")) == Ok(Some("a\n"))
  {
    hide Lines, EndsInBreak, Rendered, Placed, Reversed;
    LetterLines();
    LetterChanged();
    assert ["a"][1..] == [] && ["b"] + [] == ["b"];
    assert Readable(LETTER_CHANGE.hunks);
    ReversedRestores(LETTER_CHANGE.hunks, ["a"]);
  }

  lemma TailOneLine(lines: seq<string>, n: nat)
    requires AllOneLine(lines) && n <= |lines|
    ensures AllOneLine(lines[n..])
  {
  }
}
