/** What the lines of a plan mean, said without the functions that read them. */
module PlanLines {
  import opened Text
  import opened PlanMarkdown

  // ---- words ----

  predicate Gap(s: string) {
    forall k | 0 <= k < |s| :: IsSpace(s[k])
  }

  /** The 29 characters that count as space. */
  lemma SpacesAre(c: char)
    ensures IsSpace(c)
            <==> var n := c as int;
                 9 <= n <= 13 || 28 <= n <= 32 || n in {0x85, 0xA0, 0x1680} || 0x2000 <= n <= 0x200A
                 || n in {0x2028, 0x2029, 0x202F, 0x205F, 0x3000}
  {
  }

  /** The text consists of these words, with some space between two of them and any
      space around them. */
  ghost predicate Spells(s: string, words: seq<string>)
    decreases |words|
  {
    if words == [] then Gap(s)
    else exists gap: string, rest: string :: Starts(s, gap, words[0], rest) && Spells(rest, words[1..])
  }

  ghost predicate Starts(s: string, gap: string, word: string, rest: string) {
    s == gap + word + rest && Gap(gap) && Word(word) && (rest != "" ==> IsSpace(rest[0]))
  }

  lemma {:induction false} StripLeftIs(s: string) returns (gap: string)
    ensures Gap(gap) && s == gap + StripLeft(s) && (StripLeft(s) != "" ==> !IsSpace(StripLeft(s)[0]))
  {
    hide IsSpace;
    gap := "";
    if s != "" && IsSpace(s[0]) {
      var more := StripLeftIs(s[1..]);
      gap := [s[0]] + more;
      assert s == [s[0]] + s[1..];
    }
  }

  lemma {:induction false} StripGap(gap: string, s: string)
    requires Gap(gap) && (s != "" ==> !IsSpace(s[0]))
    ensures StripLeft(gap + s) == s
  {
    hide IsSpace;
    if gap == "" {
      assert gap + s == s;
    } else {
      StripGap(gap[1..], s);
      assert (gap + s)[0] == gap[0] && (gap + s)[1..] == gap[1..] + s;
    }
  }

  lemma {:induction false} WordEnds(word: string, rest: string)
    requires Word(word) && (rest != "" ==> IsSpace(rest[0]))
    ensures WordLength(word + rest) == |word|
  {
    var s := word + rest;
    assert forall k | 0 <= k < |word| :: s[k] == word[k];
    assert rest != "" ==> s[|word|] == rest[0];
  }

  lemma {:induction false} FirstWord(s: string)
    requires StripLeft(s) != ""
    ensures var t := StripLeft(s);
            var n := WordLength(t);
            && |t[n..]| < |s| && Words(s) == [t[..n]] + Words(t[n..])
            && Word(t[..n]) && (t[n..] != "" ==> IsSpace(t[n..][0]))
  {
    hide IsSpace;
    StripLeftShorter(s);
  }

  lemma {:induction false} NoWord(s: string)
    requires StripLeft(s) == ""
    ensures Words(s) == []
  {
  }

  /** `split()` finds the words a text is spelled with. */
  lemma {:induction false} WordsSpell(s: string)
    ensures Spells(s, Words(s))
    decreases |s|
  {
    hide Words, StripLeft, WordLength, Gap, Word, IsSpace;
    var gap := StripLeftIs(s);
    var t := StripLeft(s);
    if t == "" {
      NoWord(s);
      assert gap + t == gap;
    } else {
      FirstWord(s);
      var n := WordLength(t);
      WordsSpell(t[n..]);
      assert t == t[..n] + t[n..] && gap + t == gap + t[..n] + t[n..];
      assert Starts(s, gap, Words(s)[0], t[n..]);
      assert Words(s)[1..] == Words(t[n..]);
    }
  }

  /** It finds no others. */
  lemma {:induction false} SpelledWords(s: string, words: seq<string>)
    requires Spells(s, words)
    ensures Words(s) == words
    decreases |words|
  {
    hide Words, StripLeft, WordLength, IsSpace;
    if words == [] {
      StripGap(s, "");
      assert s + "" == s;
      NoWord(s);
    } else {
      var gap: string, rest: string :| Starts(s, gap, words[0], rest) && Spells(rest, words[1..]);
      SpelledWords(rest, words[1..]);
      StripGap(gap, words[0] + rest);
      assert gap + (words[0] + rest) == s;
      WordEnds(words[0], rest);
      FirstWord(s);
      var t := StripLeft(s);
      assert t[..|words[0]|] == words[0] && t[|words[0]|..] == rest;
      assert words == [words[0]] + words[1..];
    }
  }

  // ---- space at the end ----

  lemma {:induction false} StripRightIs(s: string) returns (gap: string)
    ensures Gap(gap) && s == StripRight(s) + gap
            && (StripRight(s) != "" ==> !IsSpace(StripRight(s)[|StripRight(s)| - 1]))
  {
    hide IsSpace;
    gap := "";
    if s != "" && IsSpace(s[|s| - 1]) {
      var more := StripRightIs(s[..|s| - 1]);
      gap := more + [s[|s| - 1]];
    }
  }

  lemma {:induction false} SpellsMore(s: string, words: seq<string>, gap: string)
    requires Spells(s, words) && Gap(gap)
    ensures Spells(s + gap, words)
    decreases |words|
  {
    hide IsSpace, Word;
    if words != [] {
      var first: string, rest: string :| Starts(s, first, words[0], rest) && Spells(rest, words[1..]);
      SpellsMore(rest, words[1..], gap);
      assert s + gap == first + words[0] + (rest + gap);
      assert Starts(s + gap, first, words[0], rest + gap);
    }
  }

  /** Space at the ends of a text does not change its words. */
  lemma {:induction false} WordsWithin(s: string, gap: string)
    requires Gap(gap)
    ensures Words(s + gap) == Words(s) && Words(StripLeft(s)) == Words(s)
  {
    hide Words, StripLeft, Spells;
    WordsSpell(s);
    SpellsMore(s, Words(s), gap);
    SpelledWords(s + gap, Words(s));
    var before := StripLeftIs(s);
    StripTwice(s);
  }

  lemma {:induction false} StripTwice(s: string)
    ensures Words(StripLeft(s)) == Words(s)
  {
    var gap := StripLeftIs(s);
    StripGap("", StripLeft(s));
    assert "" + StripLeft(s) == StripLeft(s);
    var t := StripLeft(s);
    assert StripLeft(t) == t;
  }

  // ---- lines ----

  /** The words behind the first `n` characters, with single spaces. */
  function Behind(raw: string, n: nat): string
    requires n <= |raw|
  {
    Spaced(Words(raw[n..]))
  }

  /** How many digits a line starts with, at most two. */
  function Digits(raw: string): (n: nat)
    ensures n <= |raw|
  {
    if raw == "" || !('0' <= raw[0] <= '9') then 0 else if |raw| == 1 || !('0' <= raw[1] <= '9') then 1 else 2
  }

  /** `12. text`. */
  predicate IsItem(raw: string): (b: bool)
    ensures b ==> Digits(raw) + 1 < |raw|
  {
    var n := Digits(raw);
    n > 0 && |raw| > n + 1 && raw[n] == '.' && IsSpace(raw[n + 1])
  }

  predicate IsHeading(raw: string): (b: bool)
    ensures b ==> |raw| > 1
  {
    |raw| > 1 && raw[0] == '#' && IsSpace(raw[1])
  }

  /** A line without the space at its end. */
  predicate Trim(line: string) {
    line != "" && !IsSpace(line[0]) && !IsSpace(line[|line| - 1])
  }

  lemma HeadingIs(line: string, gap: string)
    requires Trim(line) && Gap(gap)
    ensures var raw := line + gap;
            if HeadingOf(line).Some? then IsHeading(raw) && Normalised(HeadingOf(line).value) == Behind(raw, 1)
            else IsHeading(raw) ==> Behind(raw, 1) == ""
  {
    hide Words, StripLeft, IsSpace, Spaced;
    var raw := line + gap;
    assert raw[1..] == line[1..] + gap;
    WordsWithin(line[1..], gap);
    if |line| == 1 {
      assert raw[1..] == gap;
      GapIsEmpty(gap);
    }
  }

  lemma {:induction false} GapIsEmpty(gap: string)
    requires Gap(gap)
    ensures Spaced(Words(gap)) == ""
  {
    SpelledWords(gap, []);
  }

  lemma ItemIs(line: string, gap: string)
    requires Trim(line) && Gap(gap)
    ensures var raw := line + gap;
            var n := Digits(raw);
            if StepOf(line).Some? then
              && IsItem(raw) && StepOf(line).value.number == DecimalOf(raw[..n])
              && Normalised(StepOf(line).value.text) == Behind(raw, n + 1)
            else IsItem(raw) ==> Behind(raw, n + 1) == ""
  {
    hide Words, StripLeft, Spaced, DecimalValue;
    var raw := line + gap;
    GapHasNoDigits(line, gap);
    var n := Digits(raw);
    assert n == Digits(line) <= |line|;
    assert raw[..n] == line[..n];
    if |line| > n + 1 {
      assert raw[n + 1..] == line[n + 1..] + gap;
      WordsWithin(line[n + 1..], gap);
    } else if IsItem(raw) {
      assert |line| == n + 1 by {
        assert n < |line| && raw[n] == '.';
      }
      assert raw[n + 1..] == gap;
      GapIsEmpty(gap);
    }
  }

  function DecimalOf(digits: string): nat {
    if AllDigits(digits) then DecimalValue(digits) else 0
  }

  lemma GapHasNoDigits(line: string, gap: string)
    requires Trim(line) && Gap(gap)
    ensures Digits(line + gap) == Digits(line) <= |line| && AllDigits((line + gap)[..Digits(line + gap)])
    ensures Digits(line) == |line| ==> !IsItem(line + gap)
  {
    assert gap != "" ==> IsSpace(gap[0]);
  }

  /** A line is only one thing. */
  lemma OneKind(line: string, gap: string)
    ensures var raw := line + gap;
            && !(IsHeading(raw) && IsItem(raw))
            && (OtherList(line) ==> !IsHeading(raw) && !IsItem(raw))
  {
    assert "```"[0] == '`' && "|"[0] == '|' && "- "[0] == '-' && "* "[0] == '*';
    assert line != "" ==> (line + gap)[0] == line[0];
  }

  /** An empty line means nothing. A line that starts with a mark is a heading, if it is
      the first thing in the plan, and one that starts with the next number is a step;
      both need words, and no markup among them. Anything else is refused. */
  lemma {:induction false} LineIs(at: Reading, raw: string, scan: Scan)
    ensures ReadLine(at, raw, scan)
            == if raw == "" then Some(at)
               else if IsSpace(raw[0]) then None
               else if IsHeading(raw) then
                 var text := Behind(raw, 1);
                 if at.seenHeading || at.steps != [] || text == "" || scan.tagged(text) then None
                 else Some(Reading(text, [], true))
               else if IsItem(raw) then
                 var n := Digits(raw);
                 var number, text := DecimalOf(raw[..n]), Behind(raw, n + 1);
                 if number != |at.steps| + 1 || number > 32 || text == "" || |text| > 2_000
                   || scan.tagged(text) then None
                 else Some(at.(steps := at.steps + [Step(number, SplitStep(text).0, SplitStep(text).1)]))
               else None
  {
    hide Words, StripLeft, StripRight, IsSpace, SplitStep, Spaced, DecimalValue, HeadingOf, StepOf, OtherList, Behind,
         IsHeading, IsItem, Digits;
    if raw == "" {
      StripGap("", "");
      var gap := StripRightIs("");
      assert "" + "" == "";
    } else if !IsSpace(raw[0]) {
      StripGap("", raw);
      assert "" + raw == raw && StripLeft(raw) == raw;
      var gap := StripRightIs(raw);
      var line := Strip(raw);
      assert raw == line + gap;
      assert line != "" by {
        assert line == "" ==> raw == gap;
      }
      assert line[0] == raw[0];
      HeadingIs(line, gap);
      ItemIs(line, gap);
      OneKind(line, gap);
    }
  }

  // ---- whole plans ----

  /** Empty lines may stand anywhere. */
  lemma {:induction false} EmptyLines(before: seq<string>, after: seq<string>, scan: Scan)
    ensures ReadLines(before + [""] + after, scan) == ReadLines(before + after, scan)
  {
    hide ReadLine;
    if after == [] {
      assert before + [] == before && before + [""] + [] == before + [""];
      assert (before + [""])[..|before|] == before;
      if ReadLines(before, scan).Some? {
        LineIs(ReadLines(before, scan).value, "", scan);
      }
    } else {
      var n := |after| - 1;
      EmptyLines(before, after[..n], scan);
      var with, without := before + [""] + after, before + after;
      assert with[..|with| - 1] == before + [""] + after[..n];
      assert without[..|without| - 1] == before + after[..n];
    }
  }

  /** What is printed are the enabled steps, numbered in their order. */
  lemma {:induction false} PrintedAre(stored: seq<Stored>, last: Stored)
    ensures EnabledSteps([]) == []
    ensures var older := EnabledSteps(stored);
            EnabledSteps(stored + [last])
            == older + if last.enabled then [Step(|older| + 1, last.title, last.instruction)] else []
  {
    assert (stored + [last])[..|stored|] == stored;
  }

  // ---- titles ----

  predicate Stars(s: string) {
    forall k | 0 <= k < |s| :: s[k] == '*' || s[k] == ' '
  }

  ghost predicate CutAs(s: string, a: string, core: string, b: string) {
    s == a + core + b && Stars(a) && Stars(b)
  }

  /** What is left when stars and spaces are taken off both ends. */
  ghost predicate Core(s: string, core: string) {
    && (exists a, b :: CutAs(s, a, core, b))
    && (core != "" ==> core[0] !in {'*', ' '} && core[|core| - 1] !in {'*', ' '})
  }

  lemma CutLeft(c: char, s: string, a: string, core: string, b: string)
    requires Starry(c) && CutAs(s, a, core, b)
    ensures CutAs([c] + s, [c] + a, core, b)
  {
    assert [c] + (a + core + b) == [c] + a + core + b;
  }

  lemma CutRight(s: string, c: char, a: string, core: string, b: string)
    requires Starry(c) && CutAs(s, a, core, b)
    ensures CutAs(s + [c], a, core, b + [c])
  {
    assert a + core + b + [c] == a + core + (b + [c]);
  }

  lemma CutNothing(s: string)
    ensures CutAs(s, "", s, "")
  {
    assert "" + s + "" == s;
  }

  lemma {:induction false} StarsOffIs(s: string)
    ensures Core(s, StripStars(s))
    decreases |s|
  {
    hide CutAs;
    if s != "" && Starry(s[0]) {
      StarsOffIs(s[1..]);
      var a, b :| CutAs(s[1..], a, StripStars(s), b);
      assert s == [s[0]] + s[1..];
      CutLeft(s[0], s[1..], a, StripStars(s), b);
    } else if s != "" && Starry(s[|s| - 1]) {
      var n := |s| - 1;
      StarsOffIs(s[..n]);
      var a, b :| CutAs(s[..n], a, StripStars(s), b);
      assert s == s[..n] + [s[n]];
      CutRight(s[..n], s[n], a, StripStars(s), b);
    } else {
      CutNothing(s);
    }
  }

  ghost predicate TitleOf(s: string, title: string) {
    (title == "步骤" && Core(s, "")) || (title != "" && Core(s, title))
  }

  predicate HasDash(s: string) {
    exists k | 0 <= k < |s| - 2 :: s[k] == ' ' && s[k + 1] == '-' && s[k + 2] == ' '
  }

  lemma DashFree(s: string)
    ensures HasDash(s) <==> exists k :: 0 <= k < |s| && DashAt(s, k)
  {
    if HasDash(s) {
      var k :| 0 <= k < |s| - 2 && s[k] == ' ' && s[k + 1] == '-' && s[k + 2] == ' ';
      assert DashAt(s, k);
    }
  }

  lemma TitleIs(s: string)
    ensures TitleOf(s, TitleFrom(s))
  {
    hide StripStars, Core;
    StarsOffIs(s);
  }

  /** The title and the instruction are parted by the first dash between spaces. */
  ghost predicate PartedAt(value: string, head: string, title: string, instruction: string) {
    value == head + " - " + instruction && !HasDash(head + " -") && TitleOf(head, title)
  }

  /** The first dash between spaces parts the title from the instruction; without one
      the first 80 characters are the title and the whole text is the instruction. */
  lemma SplitIs(value: string)
    requires IsNormal(value)
    ensures var (title, instruction) := SplitStep(value);
            if HasDash(value) then exists head :: PartedAt(value, head, title, instruction)
            else instruction == value && TitleOf(if |value| > 80 then value[..80] else value, title)
  {
    hide TitleFrom, IsNormal, Strip, TitleOf, HasDash;
    var n := FirstDash(value);
    DashFree(value);
    if n < |value| {
      TitleIs(value[..n]);
      DashRestIs(value, n);
      assert PartedAt(value, value[..n], SplitStep(value).0, SplitStep(value).1);
    } else {
      TitleIs(if |value| > 80 then value[..80] else value);
    }
  }

  lemma DashRestIs(value: string, n: nat)
    requires IsNormal(value) && DashAt(value, n) && forall k: nat | k < n :: !DashAt(value, k)
    ensures value == value[..n] + " - " + Strip(value[n + 3..]) && !HasDash(value[..n] + " -")
  {
    hide Strip, HasDash;
    NormalTail(value, n + 2);
    NormalEdges(value[n + 3..]);
    var head := value[..n] + " -";
    DashFree(head);
    forall k: nat | k < |head| ensures !DashAt(head, k) {
      assert k < n ==> !DashAt(value, k);
    }
  }
}
