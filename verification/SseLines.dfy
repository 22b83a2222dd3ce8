/** What the lines of a server-sent event stream yield, written out as bytes. */
module SseLines {
  import opened Text
  import opened SseDecoding

  /** The bytes of an ASCII text. */
  function Ascii(s: string): (bytes: seq<Byte>)
    requires forall k | 0 <= k < |s| :: s[k] < '\U{80}'
    ensures |bytes| == |s| && forall k | 0 <= k < |s| :: bytes[k] == s[k] as int
  {
    seq(|s|, k requires 0 <= k < |s| => s[k] as int)
  }

  /** A line of a stream: a data field with a number of spaces ahead of its value, or
      anything that is no data field: an empty line, a comment, another field. */
  datatype Written = Field(spaces: nat, value: seq<Byte>) | Other(bytes: seq<Byte>)

  function Spaces(n: nat): (bytes: seq<Byte>)
    ensures |bytes| == n && forall k | 0 <= k < n :: bytes[k] == ' ' as int
  {
    seq(n, _ => 32)
  }

  function Returns(n: nat): (bytes: seq<Byte>)
    ensures |bytes| == n && forall k | 0 <= k < n :: bytes[k] == '\r' as int
  {
    seq(n, _ => 13)
  }

  function Bytes(line: Written): seq<Byte> {
    match line
    case Field(spaces, value) => Ascii("data:") + Spaces(spaces) + value
    case Other(bytes) => bytes
  }

  /** No line feed inside, no carriage return at the end, no space ahead of a value. */
  predicate WellWritten(line: Written) {
    && (forall k | 0 <= k < |Bytes(line)| :: Bytes(line)[k] != '\n' as int)
    && (Bytes(line) != [] ==> Bytes(line)[|Bytes(line)| - 1] != '\r' as int)
    && match line
       case Field(_, value) => value == [] || value[0] != ' ' as int
       case Other(bytes) => !(Ascii("data:") <= bytes)
  }

  lemma {:induction false} SpacesGo(n: nat, value: seq<Byte>)
    requires value == [] || value[0] != SPACE
    ensures WithoutSpaces(Spaces(n) + value) == value
  {
    if n == 0 {
      assert Spaces(0) + value == value;
    } else {
      assert (Spaces(n) + value)[1..] == Spaces(n - 1) + value;
      SpacesGo(n - 1, value);
    }
  }

  /** A data field yields exactly the text of its value, or is no text; every other
      line yields nothing. */
  lemma LineYields(line: Written, decode: seq<Byte> -> Option<string>)
    requires WellWritten(line)
    ensures ParseLine(Bytes(line), decode)
            == match line
               case Other(_) => Nothing
               case Field(_, value) => if decode(value) == None then Bad else Data(decode(value).value)
  {
    assert Ascii("data:") == DATA;
    match line
    case Other(bytes) =>
    case Field(spaces, value) =>
      SpacesGo(spaces, value);
      assert Bytes(line)[5..] == Spaces(spaces) + value && Bytes(line)[..5] == DATA;
  }

  lemma {:induction false} ReturnsGo(line: seq<Byte>, n: nat)
    requires line == [] || line[|line| - 1] != CR
    ensures WithoutReturns(line + Returns(n)) == line
  {
    if n == 0 {
      assert line + Returns(0) == line;
    } else {
      assert (line + Returns(n))[..|line| + n - 1] == line + Returns(n - 1);
      ReturnsGo(line, n - 1);
    }
  }

  // ---- streams ----

  /** Lines closed by a line feed, each with a number of carriage returns ahead of it. */
  function Encoded(lines: seq<Written>, ends: seq<nat>): seq<Byte>
    requires |ends| == |lines|
  {
    if lines == [] then []
    else Bytes(lines[0]) + Returns(ends[0]) + ['\n' as int] + Encoded(lines[1..], ends[1..])
  }

  /** The texts of the data fields in order, up to the first line that is too long or
      is no text. */
  function Yielded(lines: seq<Written>, decode: seq<Byte> -> Option<string>): Stream {
    if lines == [] then Stream([], false)
    else if |Bytes(lines[0])| > 1_048_576 then Stream([], true)
    else if lines[0].Other? then Yielded(lines[1..], decode)
    else if decode(lines[0].value) == None then Stream([], true)
    else
      var rest := Yielded(lines[1..], decode);
      Stream([decode(lines[0].value).value] + rest.data, rest.failed)
  }

  lemma {:induction false} FeedBehind(line: seq<Byte>, rest: seq<Byte>)
    requires LF !in line
    ensures FirstFeed(line + [LF] + rest) == |line|
  {
    if line == [] {
      assert (line + [LF] + rest)[0] == LF;
    } else {
      assert (line + [LF] + rest)[1..] == line[1..] + [LF] + rest;
      FeedBehind(line[1..], rest);
    }
  }

  lemma FirstOf(line: Written, ends: nat, rest: seq<Byte>)
    requires WellWritten(line)
    ensures var bytes, n := Bytes(line) + Returns(ends) + [LF] + rest, |Bytes(line)| + ends;
            && FirstFeed(bytes) == n && n < |bytes| && WithoutReturns(bytes[..n]) == Bytes(line)
            && bytes[n + 1..] == rest
  {
    var front := Bytes(line) + Returns(ends);
    FeedBehind(front, rest);
    ReturnsGo(Bytes(line), ends);
    assert (front + [LF] + rest)[..|front|] == front && (front + [LF] + rest)[|front| + 1..] == rest;
  }

  /** A stream of such lines yields their texts in order. */
  lemma {:induction false} StreamYields(lines: seq<Written>, ends: seq<nat>, decode: seq<Byte> -> Option<string>)
    requires |ends| == |lines| && forall k | 0 <= k < |lines| :: WellWritten(lines[k])
    ensures Decoded(Encoded(lines, ends), decode) == Yielded(lines, decode)
  {
    hide ParseLine, WithoutReturns, WellWritten, Bytes, Returns, FirstFeed;
    if lines == [] {
      Rest([], decode);
    } else {
      var rest := Encoded(lines[1..], ends[1..]);
      FirstOf(lines[0], ends[0], rest);
      LineYields(lines[0], decode);
      StreamYields(lines[1..], ends[1..], decode);
    }
  }

  /** The last line counts even when it is not closed. */
  lemma OpenLineYields(line: Written, decode: seq<Byte> -> Option<string>)
    requires WellWritten(line)
    ensures Decoded(Bytes(line), decode) == Yielded([line], decode)
  {
    hide ParseLine, WithoutReturns, Bytes;
    ReturnsGo(Bytes(line), 0);
    assert Bytes(line) + Returns(0) == Bytes(line);
    Rest(Bytes(line), decode);
    LineYields(line, decode);
    assert [line][1..] == [];
    assert LF !in Bytes(line);
  }
}
