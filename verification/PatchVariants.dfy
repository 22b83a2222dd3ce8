/** Other ways to write the same patch: headers without counts of one, lines that say
    nothing, and marks of missing line breaks. */
module PatchVariants {
  import opened Text
  import opened Messages
  import opened TextLines
  import opened PatchApplying
  import opened PatchParsing
  import opened PatchPrinting
  import opened PatchGrammar

  // ---- headers ----

  /** Two lines that are the same, or hunk headers with the same numbers. */
  ghost predicate SameLine(a: string, b: string) {
    a == b || exists h :: HeaderSays(a, h) && HeaderSays(b, h)
  }

  ghost predicate Alike(a: seq<string>, b: seq<string>) {
    |a| == |b| && forall k | 0 <= k < |a| :: SameLine(a[k], b[k])
  }

  lemma AlikeSlice(a: seq<string>, b: seq<string>, m: nat, n: nat)
    requires Alike(a, b) && m <= n <= |a|
    ensures Alike(a[m..n], b[m..n]) && Alike(a[n..], b[n..]) && Alike(a[..n], b[..n])
  {
    hide SameLine;
  }

  /** A line that is no header has no other form. */
  lemma OneForm(a: string, b: string)
    requires SameLine(a, b) && (InBody(a) || !StartsWith(a, "@@ "))
    ensures a == b
  {
    if a != b {
      var h :| HeaderSays(a, h) && HeaderSays(b, h);
      HeaderStarts(a, h);
      InBodyIs(a);
    }
  }

  lemma HunkAlike(a: seq<string>, b: seq<string>, h: Hunk)
    requires WrittenHunk(a, h) && Alike(a, b)
    ensures WrittenHunk(b, h)
  {
    hide SameLine, HeaderSays, InBody, WithoutMarks, Side;
    forall k | 0 <= k < |a[1..]| ensures a[1..][k] == b[1..][k] {
      assert InBody(a[1..][k]) && SameLine(a[k + 1], b[k + 1]);
      OneForm(a[k + 1], b[k + 1]);
    }
    assert a[1..] == b[1..];
    HeaderAlike(a[0], b[0], Header(h.oldStart, h.oldCount, h.newStart, h.newCount));
  }

  lemma HeaderAlike(a: string, b: string, h: Header)
    requires SameLine(a, b) && HeaderSays(a, h)
    ensures HeaderSays(b, h)
  {
    hide HeaderSays;
    if a != b {
      var g :| HeaderSays(a, g) && HeaderSays(b, g);
      HeaderIff(a, g);
      HeaderIff(a, h);
    }
  }

  lemma {:induction false} HunksAlike(a: seq<string>, b: seq<string>, hunks: seq<Hunk>)
    requires WrittenHunks(a, hunks) && Alike(a, b)
    ensures WrittenHunks(b, hunks)
    decreases |hunks|
  {
    hide WrittenHunk, Alike;
    AlikeLength(a, b);
    if hunks != [] {
      var n :| 0 < n <= |a| && WrittenHunk(a[..n], hunks[0]) && WrittenHunks(a[n..], hunks[1..]);
      AlikeSlice(a, b, 0, n);
      HunkAlike(a[..n], b[..n], hunks[0]);
      HunksAlike(a[n..], b[n..], hunks[1..]);
    }
  }

  lemma AlikeLength(a: seq<string>, b: seq<string>)
    requires Alike(a, b)
    ensures |a| == |b|
  {
  }

  /** A line with another first mark than that of a header. */
  lemma MarkedForm(a: seq<string>, b: seq<string>, k: nat)
    requires Alike(a, b) && k < |a|
    requires StartsWith(a[k], "--- ") || StartsWith(a[k], "+++ ") || StartsWith(a[k], "diff ")
             || StartsWith(a[k], "index ")
    ensures b[k] == a[k]
  {
    hide HeaderSays;
    assert "@@ "[0] == '@' && "--- "[0] == '-' && "+++ "[0] == '+' && "diff "[0] == 'd' && "index "[0] == 'i';
    OneForm(a[k], b[k]);
  }

  lemma FileAlike(a: seq<string>, b: seq<string>, item: FilePatch)
    requires WrittenFile(a, item) && Alike(a, b)
    ensures WrittenFile(b, item)
  {
    hide WrittenHunks, NameSays, SameLine;
    MarkedForm(a, b, 0);
    MarkedForm(a, b, 1);
    AlikeSlice(a, b, 0, 2);
    HunksAlike(a[2..], b[2..], item.hunks);
  }

  lemma BorderAlike(a: seq<string>, b: seq<string>)
    requires AtFileBorder(a) && Alike(a, b)
    ensures AtFileBorder(b)
  {
    if a != [] {
      MarkedForm(a, b, 0);
    }
  }

  lemma FirstAlike(a: seq<string>, b: seq<string>, m: nat, n: nat, item: FilePatch)
    requires Alike(a, b) && m <= n <= |a| && FirstFile(a, m, n, item)
    ensures FirstFile(b, m, n, item)
  {
    hide WrittenFile, AtFileBorder, SameLine;
    forall k | 0 <= k < m ensures Noise(b[k]) {
      assert Noise(a[k]);
      MarkedForm(a, b, k);
    }
    AlikeSlice(a, b, m, n);
    FileAlike(a[m..n], b[m..n], item);
    BorderAlike(a[n..], b[n..]);
  }

  lemma {:induction false} FilesAlike(a: seq<string>, b: seq<string>, items: seq<FilePatch>)
    requires WrittenFiles(a, items) && Alike(a, b)
    ensures WrittenFiles(b, items)
    decreases |items|
  {
    hide FirstFile, Alike;
    AlikeLength(a, b);
    if items == [] {
      forall k | 0 <= k < |b| ensures Noise(b[k]) {
        assert Noise(a[k]);
        MarkedForm(a, b, k);
      }
    } else {
      var m: nat, n: nat :| m <= n <= |a| && FirstFile(a, m, n, items[0]) && WrittenFiles(a[n..], items[1..]);
      FirstAlike(a, b, m, n, items[0]);
      AlikeSlice(a, b, m, n);
      FilesAlike(a[n..], b[n..], items[1..]);
    }
  }

  lemma AlikeBack(a: seq<string>, b: seq<string>)
    requires Alike(a, b)
    ensures Alike(b, a)
  {
    hide HeaderSays;
    forall k | 0 <= k < |b| ensures SameLine(b[k], a[k]) {
      assert SameLine(a[k], b[k]);
    }
  }

  /** How the headers are written does not matter. */
  lemma {:induction false} VariantParses(a: seq<string>, b: seq<string>, fold: string -> string, items: seq<FilePatch>)
    requires AllOneLine(a) && AllOneLine(b) && Alike(a, b)
    ensures ParseDiff(Closed(a), fold) == Ok(items) <==> ParseDiff(Closed(b), fold) == Ok(items)
  {
    hide ParseDiff, WrittenFiles, Alike, Lines, LineFeeds, Closed, AllOneLine, PathOf;
    ReadsIff(Closed(a), fold, items);
    ReadsIff(Closed(b), fold, items);
    LinesOf(a);
    LinesOf(b);
    if WrittenFiles(a, items) {
      FilesAlike(a, b, items);
    }
    if WrittenFiles(b, items) {
      AlikeBack(a, b);
      FilesAlike(b, a, items);
    }
  }

  lemma {:induction false} LinesOf(lines: seq<string>)
    requires AllOneLine(lines)
    ensures Lines(LineFeeds(Closed(lines))) == lines
  {
    ClosedNoReturn(lines);
    NoReturnKept(Closed(lines));
    ClosedLines(lines);
  }

  // ---- a printer that leaves out counts of one ----

  function ShortCount(count: nat): string {
    if count == 1 then "" else "," + Decimal(count)
  }

  function ShortHeader(h: Hunk): string {
    "@@ -" + Decimal(h.oldStart) + ShortCount(h.oldCount) + " +" + Decimal(h.newStart) + ShortCount(h.newCount) + " @@"
  }

  function ShortHunks(hunks: seq<Hunk>): seq<string> {
    if hunks == [] then [] else [ShortHeader(hunks[0])] + hunks[0].body + ShortHunks(hunks[1..])
  }

  function ShortFiles(items: seq<FilePatch>): seq<string> {
    if items == [] then []
    else
      ["--- " + NameOf(items[0].oldPath, "a/"), "+++ " + NameOf(items[0].newPath, "b/")] + ShortHunks(items[0].hunks)
      + ShortFiles(items[1..])
  }

  /** A count as the printers write it. */
  function Written(count: nat, short: bool): Option<string> {
    if short && count == 1 then None else Some(Decimal(count))
  }

  lemma {:induction false} DecimalNumber(n: nat)
    ensures Number(Decimal(n)) && DecimalValue(Decimal(n)) == n
  {
    DecimalRoundTrip(n);
    assert forall k | 0 <= k < |Decimal(n)| :: IsDigit(Decimal(n)[k]);
  }

  lemma {:induction false} WrittenCount(start: nat, count: nat, short: bool)
    ensures var r := Range(Decimal(start), Written(count, short));
            ValidRange(r) && CountOf(r) == count && DecimalValue(r.start) == start
  {
    hide Number, DecimalValue;
    DecimalNumber(start);
    DecimalNumber(count);
  }

  lemma ShortText(h: Hunk)
    ensures var older, newer := Range(Decimal(h.oldStart), Written(h.oldCount, true)),
                                Range(Decimal(h.newStart), Written(h.newCount, true));
            ShortHeader(h) == HeaderText(older, newer, "")
    ensures var older, newer := Range(Decimal(h.oldStart), Written(h.oldCount, false)),
                                Range(Decimal(h.newStart), Written(h.newCount, false));
            HeaderLine(h) == HeaderText(older, newer, "")
  {
    hide Decimal;
  }

  /** Both printers' headers say the same. */
  lemma HeadersAlike(h: Hunk)
    ensures SameLine(HeaderLine(h), ShortHeader(h))
  {
    hide HeaderLine, ShortHeader, HeaderText, DecimalValue, CountOf, ValidRange;
    var says := Header(h.oldStart, h.oldCount, h.newStart, h.newCount);
    ShortText(h);
    WrittenCount(h.oldStart, h.oldCount, true);
    WrittenCount(h.newStart, h.newCount, true);
    WrittenCount(h.oldStart, h.oldCount, false);
    WrittenCount(h.newStart, h.newCount, false);
    assert HeaderMeans(HeaderLine(h), says, Range(Decimal(h.oldStart), Written(h.oldCount, false)),
                       Range(Decimal(h.newStart), Written(h.newCount, false)), "");
    assert HeaderMeans(ShortHeader(h), says, Range(Decimal(h.oldStart), Written(h.oldCount, true)),
                       Range(Decimal(h.newStart), Written(h.newCount, true)), "");
    assert HeaderSays(HeaderLine(h), says) && HeaderSays(ShortHeader(h), says);
  }

  lemma AlikeThen(a: seq<string>, b: seq<string>, c: seq<string>, d: seq<string>)
    requires Alike(a, b) && Alike(c, d)
    ensures Alike(a + c, b + d)
  {
    hide SameLine;
  }

  lemma AlikeSame(a: seq<string>)
    ensures Alike(a, a)
  {
  }

  lemma {:induction false} PrintedHunksAlike(hunks: seq<Hunk>)
    ensures Alike(AllHunkLines(hunks), ShortHunks(hunks))
  {
    hide HeaderLine, ShortHeader, SameLine, Alike;
    AlikeSame([]);
    if hunks != [] {
      var h := hunks[0];
      OneAlike(HeaderLine(h), ShortHeader(h)) by {
        HeadersAlike(h);
      }
      AlikeSame(h.body);
      AlikeThen([HeaderLine(h)], [ShortHeader(h)], h.body, h.body);
      PrintedHunksAlike(hunks[1..]);
      AlikeThen(HunkLines(h), [ShortHeader(h)] + h.body, AllHunkLines(hunks[1..]), ShortHunks(hunks[1..]));
    }
  }

  lemma OneAlike(a: string, b: string)
    requires SameLine(a, b)
    ensures Alike([a], [b])
  {
  }

  lemma {:induction false} PrintedAlike(items: seq<FilePatch>)
    ensures Alike(AllFileLines(items), ShortFiles(items))
  {
    hide NameOf, Alike, AllHunkLines, ShortHunks;
    AlikeSame([]);
    if items != [] {
      var names := ["--- " + NameOf(items[0].oldPath, "a/"), "+++ " + NameOf(items[0].newPath, "b/")];
      AlikeSame(names);
      PrintedHunksAlike(items[0].hunks);
      AlikeThen(names, names, AllHunkLines(items[0].hunks), ShortHunks(items[0].hunks));
      PrintedAlike(items[1..]);
      AlikeThen(FileLines(items[0]), names + ShortHunks(items[0].hunks), AllFileLines(items[1..]),
        ShortFiles(items[1..]));
    }
  }

  lemma ShortOneLine(h: Hunk)
    ensures OneLine(ShortHeader(h))
  {
    hide Decimal;
    var a, b, c, d := Decimal(h.oldStart), ShortCount(h.oldCount), Decimal(h.newStart), ShortCount(h.newCount);
    CountOneLine(h.oldCount);
    CountOneLine(h.newCount);
    DigitsOneLine(a);
    DigitsOneLine(c);
    MarksOneLine();
    OneLineConcat("@@ -", a);
    OneLineConcat("@@ -" + a, b);
    OneLineConcat("@@ -" + a + b, " +");
    OneLineConcat("@@ -" + a + b + " +", c);
    OneLineConcat("@@ -" + a + b + " +" + c, d);
    OneLineConcat("@@ -" + a + b + " +" + c + d, " @@");
  }

  lemma CountOneLine(count: nat)
    ensures OneLine(ShortCount(count))
  {
    hide Decimal;
    DigitsOneLine(Decimal(count));
    MarksOneLine();
    OneLineConcat(",", Decimal(count));
  }

  lemma {:induction false} ShortHunksOneLine(hunks: seq<Hunk>)
    requires forall k | 0 <= k < |hunks| :: AllOneLine(hunks[k].body)
    ensures AllOneLine(ShortHunks(hunks))
  {
    hide OneLine, ShortHeader;
    if hunks != [] {
      ShortOneLine(hunks[0]);
      ShortHunksOneLine(hunks[1..]);
      LinesThen([ShortHeader(hunks[0])], hunks[0].body);
      LinesThen([ShortHeader(hunks[0])] + hunks[0].body, ShortHunks(hunks[1..]));
    }
  }

  lemma {:induction false} ShortFilesOneLine(items: seq<FilePatch>)
    requires forall k | 0 <= k < |items| :: SoundFile(items[k])
    ensures AllOneLine(ShortFiles(items))
  {
    hide OneLine, NameOf, SoundPath, ShortHunks, SoundHunk;
    if items != [] {
      var item := items[0];
      assert SoundFile(item);
      MarksOneLine();
      NameOneLine(item.oldPath, "a/", "--- ");
      NameOneLine(item.newPath, "b/", "+++ ");
      BodiesOneLine(item);
      ShortHunksOneLine(item.hunks);
      var names := ["--- " + NameOf(item.oldPath, "a/"), "+++ " + NameOf(item.newPath, "b/")];
      LinesThen(names, ShortHunks(item.hunks));
      ShortFilesOneLine(items[1..]);
      LinesThen(names + ShortHunks(item.hunks), ShortFiles(items[1..]));
    }
  }

  lemma BodiesOneLine(item: FilePatch)
    requires SoundFile(item)
    ensures forall k | 0 <= k < |item.hunks| :: AllOneLine(item.hunks[k].body)
  {
    forall k | 0 <= k < |item.hunks| ensures AllOneLine(item.hunks[k].body) {
      assert SoundHunk(item.hunks[k]);
    }
  }

  /** A patch printed without its counts of one reads back under the same condition as
      one printed in full. */
  lemma {:induction false} ShortParsesIff(items: seq<FilePatch>, fold: string -> string)
    requires Drafted(items, fold)
    ensures ParseDiff(Closed(ShortFiles(items)), fold) == Ok(items) <==> !LooksLikeHeader(items) && Clean(items)
  {
    hide ParseDiff, Clean, FoldedPaths, ShortFiles, AllFileLines, Closed, AllOneLine, Alike;
    PrintedParsesIff(items, fold);
    if LooksLikeHeader(items) {
      if ParseDiff(Closed(ShortFiles(items)), fold) == Ok(items) {
        NoneLooksLikeHeader(Closed(ShortFiles(items)), items, fold);
      }
    } else {
      DraftSound(items, fold);
      FileLinesOneLine(items);
      ShortFilesOneLine(items);
      PrintedAlike(items);
      VariantParses(AllFileLines(items), ShortFiles(items), fold, items);
    }
  }

  lemma NoneLooksLikeHeader(text: string, items: seq<FilePatch>, fold: string -> string)
    requires ParseDiff(text, fold) == Ok(items)
    ensures !LooksLikeHeader(items)
  {
    hide ParseDiff;
    ParsedSound(text, fold);
    forall k, l, m | 0 <= k < |items| && 0 <= l < |items[k].hunks| && 0 <= m < |items[k].hunks[l].body|
      ensures !StartsWith(items[k].hunks[l].body[m], "--- ")
    {
      assert SoundFile(items[k]) && SoundHunk(items[k].hunks[l]) && !EndsBody(items[k].hunks[l].body[m]);
    }
  }

  // ---- lines that say nothing ----

  /** A mark of a missing line break may stand anywhere behind the header of a hunk. */
  lemma {:induction false} MarkBetween(header: string, a: seq<string>, mark: string, b: seq<string>, h: Hunk)
    requires WrittenHunk([header] + (a + b), h) && IsMark(mark)
    ensures WrittenHunk([header] + (a + [mark] + b), h)
  {
    hide HeaderSays, WithoutMarks, Side, IsMark;
    assert ([header] + (a + b))[1..] == a + b && ([header] + (a + [mark] + b))[1..] == a + [mark] + b;
    MarksGo(a, mark, b);
    MarkInBody(a, mark, b);
  }

  lemma MarkInBody(a: seq<string>, mark: string, b: seq<string>)
    requires AllInBody(a + b) && IsMark(mark)
    ensures AllInBody(a + [mark] + b)
  {
    var more := a + [mark] + b;
    forall j | 0 <= j < |more| ensures InBody(more[j]) {
      assert j < |a| ==> more[j] == (a + b)[j];
      assert j > |a| ==> more[j] == (a + b)[j - 1];
    }
  }

  lemma {:induction false} MarksGo(a: seq<string>, mark: string, b: seq<string>)
    requires IsMark(mark)
    ensures WithoutMarks(a + [mark] + b) == WithoutMarks(a + b)
  {
    hide IsMark;
    var more := a + [mark] + b;
    if a == [] {
      assert more == [mark] + b && more[1..] == b && a + b == b;
    } else {
      MarksGo(a[1..], mark, b);
      assert more[1..] == a[1..] + [mark] + b && (a + b)[1..] == a[1..] + b;
    }
  }

  /** Lines that name the two versions may stand ahead of a patch, and behind a file if
      the first of them starts with `diff `. */
  lemma {:induction false} NoiseBetween(
    front: seq<string>, items: seq<FilePatch>, noise: seq<string>, rest: seq<string>, n: nat)
    requires WrittenFiles(front, items) && n + |items| <= 50 && AtFileBorder(rest)
    requires (forall k | 0 <= k < |noise| :: Noise(noise[k])) && (noise != [] ==> StartsWith(noise[0], "diff "))
    ensures ParseFiles(front + (noise + rest), n) == ParseFiles(front + rest, n)
  {
    hide ParseFiles, WrittenFiles;
    assert noise == [] ==> noise + rest == rest;
    FilesThen(front, items, noise + rest, n);
    FilesThen(front, items, rest, n);
    var all := noise + rest;
    forall k | 0 <= k < |noise| ensures Noise(all[k]) {
      assert all[k] == noise[k];
    }
    NoiseReads(all, |noise|, n + |items|);
    assert all[|noise|..] == rest;
  }
}
