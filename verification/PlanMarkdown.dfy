/** The small Markdown plan format: parser and printer
    (src/leanharness/planning/parser.py). The scan for raw HTML tags is a parameter. */
module PlanMarkdown {
  import opened Text
  import opened TextLines

  const MAX_PLAN_BYTES := 32 * 1024
  const MAX_PLAN_STEPS := 32
  const MAX_STEP_CHARS := 2_000
  const SHORT_TITLE_CHARS := 80
  const DEFAULT_TITLE := "执行计划"
  const DEFAULT_STEP := "步骤"

  datatype Step = Step(number: nat, title: string, instruction: string)

  datatype Plan = Plan(title: string, steps: seq<Step>)

  /** What the parser needs to know of a text besides its characters. */
  datatype Scan = Scan(tagged: string -> bool, size: string -> nat)

  // ---- words ----

  function WordLength(s: string): (n: nat)
    ensures n <= |s| && (forall k | 0 <= k < n :: !IsSpace(s[k])) && (n < |s| ==> IsSpace(s[n]))
  {
    if s == "" || IsSpace(s[0]) then 0
    else
      var n := WordLength(s[1..]);
      assert forall k | 0 < k <= n :: s[k] == s[1..][k - 1];
      1 + n
  }

  /** `s.split()`. */
  function Words(s: string): seq<string>
    decreases |s|
  {
    var t := StripLeft(s);
    StripLeftShorter(s);
    if t == "" then []
    else
      var n := WordLength(t);
      [t[..n]] + Words(t[n..])
  }

  lemma {:induction false} StripLeftShorter(s: string)
    ensures |StripLeft(s)| <= |s| && (StripLeft(s) != "" ==> !IsSpace(StripLeft(s)[0]))
  {
    if s != "" && IsSpace(s[0]) {
      StripLeftShorter(s[1..]);
    }
  }

  function Spaced(words: seq<string>): string {
    if words == [] then "" else if |words| == 1 then words[0] else words[0] + " " + Spaced(words[1..])
  }

  /** `" ".join(s.split())`. */
  function Normalised(s: string): string {
    Spaced(Words(s))
  }

  /** Words separated by single spaces. */
  predicate IsNormal(s: string) {
    && s != "" && s[0] != ' ' && s[|s| - 1] != ' '
    && (forall k | 0 <= k < |s| :: IsSpace(s[k]) ==> s[k] == ' ')
    && (forall k | 0 < k < |s| :: s[k - 1] == ' ' ==> s[k] != ' ')
  }

  lemma NormalTail(s: string, n: nat)
    requires IsNormal(s) && n < |s| && s[n] == ' '
    ensures n + 1 < |s| && IsNormal(s[n + 1..])
  {
    var t := s[n + 1..];
    forall k | 0 < k < |t| ensures t[k - 1] == ' ' ==> t[k] != ' ' {
      assert s[n + 1 + k - 1] == t[k - 1];
    }
  }

  /** Normal text stays as it is. */
  lemma {:induction false} NormalFixed(s: string)
    requires IsNormal(s)
    ensures Normalised(s) == s && Words(s) != []
    decreases |s|
  {
    hide Words, IsNormal, IsSpace, Spaced;
    NormalWords(s);
    var n := WordLength(s);
    if n == |s| {
      NoWords();
      assert s[..n] == s && s[n..] == "";
      SpacedOne(s);
    } else {
      NormalSpace(s, n);
      NormalTail(s, n);
      var t := s[n + 1..];
      NormalFixed(t);
      SkipSpace(s[n..], t);
      SpacedNext(s[..n], Words(t));
      assert s == s[..n] + " " + t;
    }
  }

  /** The first word, and the words behind it. */
  lemma {:induction false} NormalWords(s: string)
    requires IsNormal(s)
    ensures Words(s) == [s[..WordLength(s)]] + Words(s[WordLength(s)..])
  {
    assert StripLeft(s) == s;
  }

  lemma NormalSpace(s: string, n: nat)
    requires IsNormal(s) && n < |s| && IsSpace(s[n])
    ensures s[n] == ' ' && IsSpace(' ')
  {
  }

  lemma SpacedOne(w: string)
    ensures Spaced([w]) == w && [w] + [] == [w]
  {
  }

  lemma {:induction false} SpacedNext(w: string, words: seq<string>)
    requires words != []
    ensures Spaced([w] + words) == w + " " + Spaced(words)
  {
    assert ([w] + words)[1..] == words;
  }

  lemma NoWords()
    ensures Words("") == []
  {
  }

  lemma {:induction false} SkipSpace(s: string, t: string)
    requires s != "" && IsSpace(s[0]) && s[1..] == t
    ensures Words(s) == Words(t)
  {
    assert StripLeft(s) == StripLeft(t);
  }

  predicate Word(w: string) {
    w != "" && forall k | 0 <= k < |w| :: !IsSpace(w[k])
  }

  lemma {:induction false} WordsAreWords(s: string)
    ensures forall k | 0 <= k < |Words(s)| :: Word(Words(s)[k])
    decreases |s|
  {
    var t := StripLeft(s);
    StripLeftShorter(s);
    if t != "" {
      var n := WordLength(t);
      assert Word(t[..n]);
      WordsAreWords(t[n..]);
    }
  }

  lemma NormalThen(w: string, s: string)
    requires Word(w) && IsNormal(s)
    ensures IsNormal(w + " " + s)
  {
    var t := w + " " + s;
    forall k | 0 < k < |t| ensures t[k - 1] == ' ' ==> t[k] != ' ' {
      if k > |w| + 1 {
        assert t[k - 1] == s[k - |w| - 2] && t[k] == s[k - |w| - 1];
      }
    }
  }

  lemma {:induction false} SpacedNormal(words: seq<string>)
    requires words != [] && forall k | 0 <= k < |words| :: Word(words[k])
    ensures IsNormal(Spaced(words))
  {
    if |words| > 1 {
      SpacedNormal(words[1..]);
      NormalThen(words[0], Spaced(words[1..]));
    } else {
      assert Word(words[0]);
    }
  }

  /** Normalising gives normal text, or nothing for blank text. */
  lemma NormalisedNormal(s: string)
    ensures Normalised(s) == "" || IsNormal(Normalised(s))
  {
    WordsAreWords(s);
    if Words(s) != [] {
      SpacedNormal(Words(s));
    }
  }

  /** `_clean_text`. */
  function Clean(value: string, scan: Scan): Option<string> {
    var cleaned := Normalised(value);
    if cleaned == "" || scan.tagged(cleaned) then None else Some(cleaned)
  }

  // ---- steps ----

  const DASH := " - "

  predicate DashAt(s: string, k: nat) {
    k + 3 <= |s| && s[k] == ' ' && s[k + 1] == '-' && s[k + 2] == ' '
  }

  /** The position of the first dash between spaces, or the length. */
  function FirstDash(s: string): (n: nat)
    ensures n <= |s| && (n < |s| ==> DashAt(s, n)) && forall k | 0 <= k < n :: !DashAt(s, k)
  {
    if s == "" || DashAt(s, 0) then 0
    else
      var n := FirstDash(s[1..]);
      assert forall k | 0 < k <= n :: DashAt(s, k) <==> DashAt(s[1..], k - 1);
      1 + n
  }

  predicate Starry(c: char) {
    c == '*' || c == ' '
  }

  function StripStars(s: string): string {
    if s != "" && Starry(s[0]) then StripStars(s[1..])
    else if s != "" && Starry(s[|s| - 1]) then StripStars(s[..|s| - 1])
    else s
  }

  function TitleFrom(s: string): string {
    if StripStars(s) == "" then DEFAULT_STEP else StripStars(s)
  }

  /** `_split_step`. */
  function SplitStep(value: string): (string, string) {
    var n := FirstDash(value);
    if n < |value| then (TitleFrom(value[..n]), Strip(value[n + 3..]))
    else (TitleFrom(if |value| > SHORT_TITLE_CHARS then value[..SHORT_TITLE_CHARS] else value), value)
  }

  /** A step title that survives being printed. */
  predicate SafeTitle(title: string) {
    title != "" && !Starry(title[0]) && !Starry(title[|title| - 1]) && forall k: nat | k < |title| :: !DashAt(title, k)
  }

  lemma {:induction false} StripStarsSafe(s: string)
    requires forall k: nat | k < |s| :: !DashAt(s, k)
    ensures StripStars(s) == "" || SafeTitle(StripStars(s))
    decreases |s|
  {
    if s != "" && Starry(s[0]) {
      var t := s[1..];
      forall k: nat | k < |t| ensures !DashAt(t, k) {
        assert !DashAt(s, k + 1);
      }
      StripStarsSafe(t);
    } else if s != "" && Starry(s[|s| - 1]) {
      var t := s[..|s| - 1];
      forall k: nat | k < |t| ensures !DashAt(t, k) {
        assert !DashAt(s, k);
      }
      StripStarsSafe(t);
    }
  }

  /** Every title the parser makes is safe to print. */
  lemma SplitSafe(value: string)
    ensures SafeTitle(SplitStep(value).0)
  {
    var n := FirstDash(value);
    var part := if n < |value| then value[..n] else if |value| > SHORT_TITLE_CHARS then value[..SHORT_TITLE_CHARS]
      else value;
    forall k: nat | k < |part| ensures !DashAt(part, k) {
      assert !DashAt(value, k);
    }
    StripStarsSafe(part);
  }

  // ---- lines ----

  /** `# title`: the text after the mark, if the line is a heading. */
  function HeadingOf(line: string): Option<string> {
    if |line| >= 2 && line[0] == '#' && IsSpace(line[1]) then Some(StripLeft(line[1..])) else None
  }

  datatype Numbered = Numbered(number: nat, text: string)

  /** `12. text`: one or two digits, a dot, space, text. */
  function StepOf(line: string): Option<Numbered> {
    var n := if |line| >= 2 && IsDigit(line[0]) && IsDigit(line[1]) then 2
             else if |line| >= 1 && IsDigit(line[0]) then 1 else 0;
    if n == 0 || |line| < n + 2 || line[n] != '.' || !IsSpace(line[n + 1]) then None
    else Some(Numbered(DecimalValue(line[..n]), StripLeft(line[n + 1..])))
  }

  datatype Reading = Reading(title: string, steps: seq<Step>, seenHeading: bool)

  const START := Reading(DEFAULT_TITLE, [], false)

  function ReadHeading(at: Reading, text: string, scan: Scan): Option<Reading> {
    if at.seenHeading || at.steps != [] || Clean(text, scan).None? then None
    else Some(Reading(Clean(text, scan).value, [], true))
  }

  function ReadStep(at: Reading, read: Numbered, scan: Scan): Option<Reading> {
    if read.number != |at.steps| + 1 || Clean(read.text, scan).None? then None
    else
      var value := Clean(read.text, scan).value;
      if |value| > MAX_STEP_CHARS || |at.steps| + 1 > MAX_PLAN_STEPS then None
      else
        var (title, instruction) := SplitStep(value);
        Some(at.(steps := at.steps + [Step(read.number, title, instruction)]))
  }

  predicate OtherList(line: string) {
    StartsWith(line, "```") || StartsWith(line, "|") || StartsWith(line, "- ") || StartsWith(line, "* ")
  }

  function ReadLine(at: Reading, raw: string, scan: Scan): Option<Reading> {
    if raw != "" && IsSpace(raw[0]) then None
    else
      var line := Strip(raw);
      if line == "" then Some(at)
      else if OtherList(line) then None
      else if HeadingOf(line).Some? then ReadHeading(at, HeadingOf(line).value, scan)
      else if StepOf(line).Some? then ReadStep(at, StepOf(line).value, scan)
      else None
  }

  function ReadLines(lines: seq<string>, scan: Scan): Option<Reading> {
    if lines == [] then Some(START)
    else
      var before := ReadLines(lines[..|lines| - 1], scan);
      if before.None? then None else ReadLine(before.value, lines[|lines| - 1], scan)
  }

  function Parsed(markdown: string, scan: Scan): Option<Plan> {
    if !NonBlank(markdown) || scan.size(markdown) > MAX_PLAN_BYTES then None
    else
      var read := ReadLines(Lines(LineFeeds(markdown)), scan);
      if read.None? || read.value.steps == [] then None else Some(Plan(read.value.title, read.value.steps))
  }

  /** `parse_plan_markdown`. */
  method ParsePlanMarkdown(markdown: string, scan: Scan) returns (plan: Option<Plan>)
    ensures plan == Parsed(markdown, scan)
  {
    hide ReadLine, Lines, LineFeeds, NonBlank;
    if !NonBlank(markdown) || scan.size(markdown) > MAX_PLAN_BYTES {
      return None;
    }
    var lines := Lines(LineFeeds(markdown));
    var at := START;
    for k := 0 to |lines|
      invariant ReadLines(lines[..k], scan) == Some(at)
    {
      assert lines[..k + 1][..k] == lines[..k];
      var next := ReadLine(at, lines[k], scan);
      if next.None? {
        NoneAfter(lines, k + 1, scan);
        return None;
      }
      at := next.value;
    }
    assert lines[..|lines|] == lines;
    plan := if at.steps == [] then None else Some(Plan(at.title, at.steps));
  }

  lemma {:induction false} NoneAfter(lines: seq<string>, n: nat, scan: Scan)
    requires n <= |lines| && ReadLines(lines[..n], scan).None?
    ensures ReadLines(lines, scan).None?
  {
    if n == |lines| {
      assert lines[..n] == lines;
    } else {
      var older := lines[..|lines| - 1];
      assert older[..n] == lines[..n];
      NoneAfter(older, n, scan);
    }
  }

  // ---- what an accepted plan is ----

  predicate SoundStep(step: Step) {
    SafeTitle(step.title) && IsNormal(step.title) && IsNormal(step.instruction)
  }

  predicate SoundSteps(steps: seq<Step>) {
    && |steps| <= MAX_PLAN_STEPS
    && forall k | 0 <= k < |steps| :: steps[k].number == k + 1 && SoundStep(steps[k])
  }

  predicate SoundPlan(plan: Plan) {
    plan.steps != [] && SoundSteps(plan.steps) && IsNormal(plan.title)
  }

  lemma NormalSlice(s: string, a: nat, b: nat)
    requires IsNormal(s) && a < b <= |s| && s[a] != ' ' && s[b - 1] != ' '
    ensures IsNormal(s[a..b])
  {
    var t := s[a..b];
    forall k | 0 < k < |t| ensures t[k - 1] == ' ' ==> t[k] != ' ' {
      assert s[a + k - 1] == t[k - 1] && s[a + k] == t[k];
    }
  }

  /** Stripping takes a slice that neither starts nor ends with a space. */
  lemma {:induction false} StripStarsSlice(s: string) returns (a: nat, b: nat)
    ensures a <= b <= |s| && StripStars(s) == s[a..b] && (a < b ==> !Starry(s[a]) && !Starry(s[b - 1]))
    decreases |s|
  {
    if s != "" && Starry(s[0]) {
      a, b := StripStarsSlice(s[1..]);
      a, b := a + 1, b + 1;
    } else if s != "" && Starry(s[|s| - 1]) {
      a, b := StripStarsSlice(s[..|s| - 1]);
    } else {
      a, b := 0, |s|;
    }
  }

  lemma DefaultsNormal()
    ensures IsNormal(DEFAULT_TITLE) && IsNormal(DEFAULT_STEP)
  {
  }

  lemma TitleNormal(value: string, n: nat)
    requires IsNormal(value) && n <= |value|
    ensures IsNormal(TitleFrom(value[..n]))
  {
    DefaultsNormal();
    var a, b := StripStarsSlice(value[..n]);
    if a < b {
      assert value[..n][a..b] == value[a..b];
      NormalSlice(value, a, b);
    }
  }

  lemma {:induction false} StripKeeps(s: string)
    requires s != "" ==> !IsSpace(s[0]) && !IsSpace(s[|s| - 1])
    ensures Strip(s) == s
  {
  }

  lemma {:induction false} NormalEdges(s: string)
    requires IsNormal(s)
    ensures !IsSpace(s[0]) && !IsSpace(s[|s| - 1]) && Strip(s) == s && StripLeft(s) == s
  {
    StripKeeps(s);
  }

  /** Both parts of a split step are normal, and the title is safe. */
  lemma SplitSound(value: string, number: nat)
    requires IsNormal(value)
    ensures SoundStep(Step(number, SplitStep(value).0, SplitStep(value).1))
  {
    hide TitleFrom, IsNormal, Strip;
    SplitSafe(value);
    var n := FirstDash(value);
    if n < |value| {
      TitleNormal(value, n);
      DashRest(value, n);
    } else {
      TitleNormal(value, if |value| > SHORT_TITLE_CHARS then SHORT_TITLE_CHARS else |value|);
      assert value[..|value|] == value;
    }
  }

  lemma DashRest(value: string, n: nat)
    requires IsNormal(value) && DashAt(value, n)
    ensures IsNormal(Strip(value[n + 3..]))
  {
    NormalTail(value, n + 2);
    NormalEdges(value[n + 3..]);
  }

  lemma {:induction false} ReadSound(lines: seq<string>, scan: Scan)
    requires ReadLines(lines, scan).Some?
    ensures SoundSteps(ReadLines(lines, scan).value.steps) && IsNormal(ReadLines(lines, scan).value.title)
  {
    DefaultsNormal();
    if lines != [] {
      hide SoundStep, IsNormal, SplitStep, HeadingOf, StepOf, Clean, Strip;
      var n := |lines| - 1;
      ReadSound(lines[..n], scan);
      LineSound(ReadLines(lines[..n], scan).value, lines[n], scan);
    }
  }

  lemma LineSound(at: Reading, raw: string, scan: Scan)
    requires SoundSteps(at.steps) && IsNormal(at.title) && ReadLine(at, raw, scan).Some?
    ensures SoundSteps(ReadLine(at, raw, scan).value.steps) && IsNormal(ReadLine(at, raw, scan).value.title)
  {
    hide SoundStep, IsNormal, SplitStep, HeadingOf, StepOf, Normalised, Strip;
    var line := Strip(raw);
    if line != "" {
      if HeadingOf(line).Some? {
        NormalisedNormal(HeadingOf(line).value);
      } else {
        var read := StepOf(line).value;
        NormalisedNormal(read.text);
        SplitSound(Normalised(read.text), read.number);
      }
    }
  }

  /** Every accepted plan has 1 to 32 steps numbered from 1, whose titles and
      instructions are normal text and whose titles are safe to print. */
  lemma ParsedSound(markdown: string, scan: Scan)
    requires Parsed(markdown, scan).Some?
    ensures SoundPlan(Parsed(markdown, scan).value)
  {
    hide ReadLines, SoundStep, IsNormal;
    ReadSound(Lines(LineFeeds(markdown)), scan);
  }

  // ---- printing ----

  function Body(step: Step): string {
    "**" + step.title + "**" + DASH + step.instruction
  }

  function StepLine(step: Step): string {
    Decimal(step.number) + ". " + Body(step)
  }

  function StepLines(steps: seq<Step>): seq<string> {
    if steps == [] then [] else StepLines(steps[..|steps| - 1]) + [StepLine(steps[|steps| - 1])]
  }

  function Rendered(plan: Plan): string {
    Joined(["# " + plan.title] + StepLines(plan.steps))
  }

  /** A step of a stored plan. */
  datatype Stored = Stored(title: string, instruction: string, enabled: bool)

  /** The enabled steps, numbered from 1. */
  function EnabledSteps(stored: seq<Stored>): seq<Step> {
    if stored == [] then []
    else
      var older, last := EnabledSteps(stored[..|stored| - 1]), stored[|stored| - 1];
      if last.enabled then older + [Step(|older| + 1, last.title, last.instruction)] else older
  }

  /** `render_plan_markdown`. */
  method RenderPlanMarkdown(title: string, stored: seq<Stored>) returns (markdown: string)
    ensures markdown == Rendered(Plan(title, EnabledSteps(stored)))
  {
    hide StepLine, Joined;
    var lines := ["# " + title];
    var index := 1;
    for k := 0 to |stored|
      invariant index == |EnabledSteps(stored[..k])| + 1
      invariant lines == ["# " + title] + StepLines(EnabledSteps(stored[..k]))
    {
      assert stored[..k + 1][..k] == stored[..k];
      if stored[k].enabled {
        var step := Step(index, stored[k].title, stored[k].instruction);
        StepLinesSnoc(EnabledSteps(stored[..k]), step);
        lines := lines + [StepLine(step)];
        index := index + 1;
      }
    }
    assert stored[..|stored|] == stored;
    markdown := Joined(lines);
  }

  lemma {:induction false} StepLinesSnoc(steps: seq<Step>, step: Step)
    ensures StepLines(steps + [step]) == StepLines(steps) + [StepLine(step)]
  {
    assert (steps + [step])[..|steps|] == steps;
  }

  // ---- reading a printed plan ----

  /** The printed form of a step is within the parser's limits. */
  predicate StepFits(step: Step, scan: Scan) {
    |Body(step)| <= MAX_STEP_CHARS && !scan.tagged(Body(step))
  }

  predicate AllFit(steps: seq<Step>, scan: Scan) {
    forall k | 0 <= k < |steps| :: StepFits(steps[k], scan)
  }

  /** The parser's limits leave room for the printed form. */
  predicate Fits(plan: Plan, scan: Scan) {
    && scan.size(Rendered(plan)) <= MAX_PLAN_BYTES && !scan.tagged(plan.title)
    && AllFit(plan.steps, scan)
  }

  lemma HeadingPrinted(title: string, scan: Scan)
    requires IsNormal(title)
    ensures ReadLine(START, "# " + title, scan) == if scan.tagged(title) then None else Some(Reading(title, [], true))
  {
    var line := "# " + title;
    NormalEdges(title);
    StripKeeps(line);
    NormalFixed(title);
    assert line[1..] == " " + title && line[1..][1..] == title;
    assert StripLeft(line[1..]) == StripLeft(title);
  }

  lemma {:induction false} NumberPrinted(n: nat, rest: string)
    requires 0 < n < 100 && rest != "" && !IsSpace(rest[0])
    ensures StepOf(Decimal(n) + ". " + rest) == Some(Numbered(n, rest))
    ensures HeadingOf(Decimal(n) + ". " + rest) == None
  {
    var d := Decimal(n);
    var line := d + ". " + rest;
    DecimalRoundTrip(n);
    DigitsOf(n);
    assert line[..|d|] == d && line[|d|] == '.' && line[|d| + 1] == ' ' && line[|d| + 1..] == " " + rest;
    assert StripLeft(" " + rest) == StripLeft((" " + rest)[1..]) == rest;
    assert IsDigit(d[0]) && line[0] == d[0];
  }

  lemma {:induction false} DigitsOf(n: nat)
    requires n < 100
    ensures |Decimal(n)| == if n < 10 then 1 else 2
  {
  }

  lemma BodyNormal(step: Step)
    requires IsNormal(step.title) && IsNormal(step.instruction)
    ensures IsNormal(Body(step))
  {
    var t, i, s := step.title, step.instruction, Body(step);
    forall k | 0 <= k < |s| ensures IsSpace(s[k]) ==> s[k] == ' ' {
      assert s[k] == BodyChar(t, i, k);
    }
    forall k | 0 < k < |s| ensures s[k - 1] == ' ' ==> s[k] != ' ' {
      assert s[k - 1] == BodyChar(t, i, k - 1) && s[k] == BodyChar(t, i, k);
    }
    assert s[0] == '*' && s[|s| - 1] == i[|i| - 1];
  }

  /** Character by character, the body of a step line. */
  function BodyChar(t: string, i: string, k: nat): char
    requires k < |t| + |i| + 7
  {
    if k < 2 then '*'
    else if k < |t| + 2 then t[k - 2]
    else if k < |t| + 4 then '*'
    else if k == |t| + 5 then '-'
    else if k < |t| + 7 then ' '
    else i[k - |t| - 7]
  }

  lemma BodyDash(step: Step)
    requires SafeTitle(step.title)
    ensures FirstDash(Body(step)) == |step.title| + 4
  {
    var t, s := step.title, Body(step);
    var n := |t| + 4;
    assert DashAt(s, n);
    forall k | 0 <= k < n ensures !DashAt(s, k) {
      assert forall l | k <= l < n :: s[l] == BodyChar(t, step.instruction, l);
      if DashAt(s, k) {
        assert 2 <= k && k + 2 < |t| + 2;
        assert DashAt(t, k - 2);
      }
    }
  }

  lemma StarsOff(t: string)
    requires t != "" && !Starry(t[0]) && !Starry(t[|t| - 1])
    ensures TitleFrom("**" + t + "**") == t
  {
    LeftStar("*" + t + "**");
    LeftStar(t + "**");
    RightStar(t + "*");
    RightStar(t);
    assert "**" + t + "**" == "*" + ("*" + (t + "**")) && "*" + t + "**" == "*" + (t + "**");
    assert t + "**" == t + "*" + "*";
  }

  lemma {:induction false} LeftStar(s: string)
    ensures StripStars("*" + s) == StripStars(s)
  {
    assert ("*" + s)[1..] == s;
  }

  lemma {:induction false} RightStar(s: string)
    requires s != "" && !Starry(s[0])
    ensures StripStars(s + "*") == StripStars(s)
  {
    assert (s + "*")[..|s|] == s;
  }

  lemma BodySplit(step: Step)
    requires SafeTitle(step.title) && IsNormal(step.instruction)
    ensures SplitStep(Body(step)) == (step.title, step.instruction)
  {
    hide StripStars, IsNormal, Strip, TitleFrom, SafeTitle, FirstDash;
    var n, s := |step.title| + 4, Body(step);
    BodyDash(step);
    SafeStars(step.title);
    assert s[..n] == "**" + step.title + "**" && s[n + 3..] == step.instruction && n < |s|;
    NormalEdges(step.instruction);
  }

  lemma SafeStars(t: string)
    requires SafeTitle(t)
    ensures TitleFrom("**" + t + "**") == t
  {
    StarsOff(t);
  }

  lemma StepPrinted(at: Reading, step: Step, scan: Scan)
    requires SoundStep(step) && step.number == |at.steps| + 1 <= MAX_PLAN_STEPS
    ensures ReadLine(at, StepLine(step), scan)
            == if StepFits(step, scan) then Some(at.(steps := at.steps + [step])) else None
  {
    hide SplitStep, StripLeft, StripRight, Words, IsNormal, SafeTitle, Body;
    var line, body := StepLine(step), Body(step);
    BodyNormal(step);
    NormalEdges(body);
    NumberPrinted(step.number, body);
    LineEdges(step);
    StripKeeps(line);
    NormalFixed(body);
    BodySplit(step);
  }

  lemma LineEdges(step: Step)
    requires IsNormal(Body(step))
    ensures var line := StepLine(step);
            line != "" && !IsSpace(line[0]) && !IsSpace(line[|line| - 1]) && !OtherList(line)
  {
    var line, body := StepLine(step), Body(step);
    NormalEdges(body);
    assert line[0] == Decimal(step.number)[0] && IsDigit(line[0]);
    assert line[|line| - 1] == body[|body| - 1];
    assert "```"[0] == '`' && "|"[0] == '|' && "- "[0] == '-' && "* "[0] == '*';
  }

  lemma {:induction false} StepsPrinted(title: string, steps: seq<Step>, scan: Scan)
    requires IsNormal(title) && SoundSteps(steps)
    ensures ReadLines(["# " + title] + StepLines(steps), scan)
            == if !scan.tagged(title) && AllFit(steps, scan) then Some(Reading(title, steps, true)) else None
  {
    hide SoundStep, IsNormal, Body, StepLine, ReadLine, StepFits;
    var lines := ["# " + title] + StepLines(steps);
    if steps == [] {
      HeadingPrinted(title, scan);
      assert lines[..0] == [] && lines == ["# " + title];
    } else {
      var n := |steps| - 1;
      StepsPrinted(title, steps[..n], scan);
      StepPrinted(Reading(title, steps[..n], true), steps[n], scan);
      assert lines[..|lines| - 1] == ["# " + title] + StepLines(steps[..n]);
      assert steps[..n] + [steps[n]] == steps;
    }
  }

  lemma NormalOneLine(s: string)
    requires IsNormal(s)
    ensures OneLine(s)
  {
    forall k | 0 <= k < |s| ensures !IsBreak(s[k]) {
      assert IsSpace(s[k]) ==> s[k] == ' ';
    }
  }

  lemma {:induction false} PrintedOneLine(steps: seq<Step>)
    requires SoundSteps(steps)
    ensures AllOneLine(StepLines(steps)) && |StepLines(steps)| == |steps|
    ensures steps != [] ==> StepLines(steps)[|steps| - 1] != ""
  {
    if steps != [] {
      hide IsNormal, Body, OneLine;
      var n := |steps| - 1;
      PrintedOneLine(steps[..n]);
      assert SoundStep(steps[n]);
      LineOneLine(steps[n]);
    }
  }

  lemma LineOneLine(step: Step)
    requires SoundStep(step)
    ensures OneLine(StepLine(step)) && StepLine(step) != ""
  {
    hide Body;
    BodyNormal(step);
    NormalOneLine(Body(step));
    var d := Decimal(step.number);
    forall k | 0 <= k < |d| ensures !IsBreak(d[k]) {
      assert IsDigit(d[k]);
    }
  }

  /** A sound plan is read back from its printed form if that is within the limits,
      and rejected otherwise. */
  lemma PrintedParses(plan: Plan, scan: Scan)
    requires SoundPlan(plan)
    ensures Parsed(Rendered(plan), scan) == if Fits(plan, scan) then Some(plan) else None
  {
    hide SoundStep, IsNormal, Body, StepLine, ReadLines, Joined, Lines, LineFeeds, OneLine, NonBlank, StepFits;
    var lines := ["# " + plan.title] + StepLines(plan.steps);
    PrintedOneLine(plan.steps);
    HeadOneLine(plan.title);
    assert AllOneLine(lines) && lines[|lines| - 1] != "";
    JoinedNoReturn(lines);
    NoReturnKept(Rendered(plan));
    JoinedLines(lines);
    StepsPrinted(plan.title, plan.steps, scan);
    RenderedNonBlank(plan);
  }

  lemma HeadOneLine(title: string)
    requires IsNormal(title)
    ensures OneLine("# " + title)
  {
    NormalOneLine(title);
  }

  lemma RenderedNonBlank(plan: Plan)
    requires plan.steps != []
    ensures NonBlank(Rendered(plan))
  {
    var text := Rendered(plan);
    assert |["# " + plan.title] + StepLines(plan.steps)| > 1;
    assert text[0] == '#' && !IsSpace(text[0]);
  }

  /** A plan of normal texts with consecutively numbered steps comes back from its
      printed form exactly when that is within the limits of the parser and its step
      titles are safe: without a dash between spaces and without stars or spaces at
      their ends. */
  lemma RoundTripIff(plan: Plan, scan: Scan)
    requires 0 < |plan.steps| <= MAX_PLAN_STEPS && IsNormal(plan.title)
    requires forall k | 0 <= k < |plan.steps| ::
               plan.steps[k].number == k + 1 && IsNormal(plan.steps[k].title) && IsNormal(plan.steps[k].instruction)
    ensures Parsed(Rendered(plan), scan) == Some(plan)
            <==> Fits(plan, scan) && forall k | 0 <= k < |plan.steps| :: SafeTitle(plan.steps[k].title)
  {
    hide IsNormal, SafeTitle, Parsed, Rendered, Fits;
    if Parsed(Rendered(plan), scan) == Some(plan) {
      ParsedSound(Rendered(plan), scan);
      forall k | 0 <= k < |plan.steps| ensures SafeTitle(plan.steps[k].title) {
        assert SoundStep(plan.steps[k]);
      }
    }
    if forall k | 0 <= k < |plan.steps| :: SafeTitle(plan.steps[k].title) {
      forall k | 0 <= k < |plan.steps| ensures SoundStep(plan.steps[k]) {}
      PrintedParses(plan, scan);
    }
  }

  /** Printing an accepted plan and parsing it again gives the same plan exactly when
      the printed form is within the limits; otherwise it is rejected. */
  lemma ParsedPrinted(markdown: string, scan: Scan)
    requires Parsed(markdown, scan).Some?
    ensures var plan := Parsed(markdown, scan).value;
            Parsed(Rendered(plan), scan) == if Fits(plan, scan) then Some(plan) else None
  {
    hide Parsed, Rendered, Fits, SoundPlan;
    ParsedSound(markdown, scan);
    PrintedParses(Parsed(markdown, scan).value, scan);
  }

  function Letters(n: nat): (s: string)
    ensures |s| == n && forall k | 0 <= k < n :: s[k] == 'a'
  {
    seq(n, k requires 0 <= k < n => 'a')
  }

  lemma {:induction false} LongStepRead(scan: Scan)
    requires !scan.tagged(Letters(1_990)) && scan.size("1. " + Letters(1_990)) <= MAX_PLAN_BYTES
    ensures Parsed("1. " + Letters(1_990), scan)
            == Some(Plan(DEFAULT_TITLE, [Step(1, Letters(1_990)[..SHORT_TITLE_CHARS], Letters(1_990))]))
  {
    hide Words, Lines, LineFeeds, ReadLine;
    var rest := Letters(1_990);
    var text := "1. " + rest;
    assert OneLine(text) && AllOneLine([text]) && Decimal(1) == "1";
    JoinedNoReturn([text]);
    assert Joined([text]) == text;
    NoReturnKept(text);
    JoinedLines([text]);
    LongLine(scan);
    assert ReadLines([text][..0], scan) == Some(START);
    assert NonBlank(text) by {
      assert !IsSpace(text[0]);
    }
  }

  lemma {:induction false} LongLine(scan: Scan)
    requires !scan.tagged(Letters(1_990))
    ensures ReadLine(START, "1. " + Letters(1_990), scan)
            == Some(START.(steps := [Step(1, Letters(1_990)[..SHORT_TITLE_CHARS], Letters(1_990))]))
  {
    hide Words, Normalised, StripLeft, StripRight, Strip, StepOf, HeadingOf, SplitStep, IsNormal;
    var rest := Letters(1_990);
    var text := "1. " + rest;
    LettersNormal(rest);
    NumberPrinted(1, rest);
    NormalFixed(rest);
    StripKeeps(text);
    assert text[0] == '1' && text[|text| - 1] == 'a';
    assert "```"[0] == '`' && "|"[0] == '|' && "- "[0] == '-' && "* "[0] == '*';
    NoDashes(rest);
    assert Decimal(1) == "1" && Decimal(1) + ". " + rest == text;
    assert !OtherList(text) && START.steps + [Step(1, rest[..SHORT_TITLE_CHARS], rest)]
           == [Step(1, rest[..SHORT_TITLE_CHARS], rest)];
  }

  lemma LettersNormal(s: string)
    requires s != "" && forall k | 0 <= k < |s| :: s[k] == 'a'
    ensures IsNormal(s)
  {
  }

  lemma {:induction false} NoDashes(s: string)
    requires forall k | 0 <= k < |s| :: s[k] == 'a'
    requires |s| > SHORT_TITLE_CHARS
    ensures SplitStep(s) == (s[..SHORT_TITLE_CHARS], s)
  {
    var title := s[..SHORT_TITLE_CHARS];
    assert StripStars(title) == title;
  }

  /** A step of 1,990 letters without a dash is accepted, with its first 80 letters as
      its title; printed it is too long to be read again. */
  lemma {:induction false} LongStepIsLost(scan: Scan)
    requires !scan.tagged(Letters(1_990)) && scan.size("1. " + Letters(1_990)) <= MAX_PLAN_BYTES
    ensures var plan := Parsed("1. " + Letters(1_990), scan);
            && plan.Some? && !Fits(plan.value, scan)
            && Parsed(Rendered(plan.value), scan).None?
  {
    hide Parsed, Rendered;
    LongStepRead(scan);
    ParsedPrinted("1. " + Letters(1_990), scan);
    var step := Step(1, Letters(1_990)[..SHORT_TITLE_CHARS], Letters(1_990));
    assert |Body(step)| == 2_077;
    assert !StepFits([step][0], scan);
  }
}
