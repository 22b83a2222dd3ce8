/** Decoding a server-sent event stream chunk by chunk (`_iter_sse_data` and
    `_parse_sse_line` in src/leanharness/models/openai_compatible.py). Each data
    line is its own event: a subset of section 9.2.5 of the WHATWG HTML Living
    Standard. */
module SseDecoding {
  import opened Text

  type Byte = b: int | 0 <= b < 256

  const MAX_RESPONSE_BYTES := 1_048_576
  const LF: Byte := 10
  const CR: Byte := 13
  const SPACE: Byte := 32
  const COLON: Byte := 58
  const DATA: seq<Byte> := [100, 97, 116, 97, 58]

  /** The data values yielded, and whether the stream was then rejected. */
  datatype Stream = Stream(data: seq<string>, failed: bool)

  datatype Line = Nothing | Data(value: string) | Bad

  /** The position of the first line feed, or the length. */
  function FirstFeed(bytes: seq<Byte>): (n: nat)
    ensures n <= |bytes| && LF !in bytes[..n] && (n < |bytes| ==> bytes[n] == LF)
  {
    if bytes == [] || bytes[0] == LF then 0
    else
      var n := 1 + FirstFeed(bytes[1..]);
      assert bytes[..n] == [bytes[0]] + bytes[1..][..n - 1];
      n
  }

  function WithoutReturns(line: seq<Byte>): (out: seq<Byte>)
    ensures |out| <= |line|
  {
    if line != [] && line[|line| - 1] == CR then WithoutReturns(line[..|line| - 1]) else line
  }

  function WithoutSpaces(line: seq<Byte>): seq<Byte> {
    if line != [] && line[0] == SPACE then WithoutSpaces(line[1..]) else line
  }

  function ParseLine(line: seq<Byte>, decode: seq<Byte> -> Option<string>): Line {
    if line == [] || line[0] == COLON || !(DATA <= line) then Nothing
    else
      var text := decode(WithoutSpaces(line[5..]));
      if text.None? then Bad else Data(text.value)
  }

  // ---- the stream as a whole ----

  function Followed(line: Line, rest: Stream): Stream {
    match line
    case Nothing => rest
    case Data(value) => Stream([value] + rest.data, rest.failed)
    case Bad => Stream([], true)
  }

  /** What a whole byte stream decodes to: its lines in order, until one is too
      long or is not text. */
  function Decoded(bytes: seq<Byte>, decode: seq<Byte> -> Option<string>): Stream {
    var n := FirstFeed(bytes);
    if n == |bytes| then
      if n > MAX_RESPONSE_BYTES then Stream([], true)
      else Followed(ParseLine(WithoutReturns(bytes), decode), Stream([], false))
    else if |WithoutReturns(bytes[..n])| > MAX_RESPONSE_BYTES then Stream([], true)
    else Followed(ParseLine(WithoutReturns(bytes[..n]), decode), Decoded(bytes[n + 1..], decode))
  }

  /** A terminated line that is over the limit by its carriage returns alone. */
  predicate Unsteady(line: seq<Byte>) {
    |line| > MAX_RESPONSE_BYTES && |WithoutReturns(line)| <= MAX_RESPONSE_BYTES
  }

  /** Decoding reaches an unsteady line, and does not reject the stream from there
      on anyway without another value. */
  predicate Sensitive(bytes: seq<Byte>, decode: seq<Byte> -> Option<string>) {
    var n := FirstFeed(bytes);
    n < |bytes|
    && if Unsteady(bytes[..n]) then Decoded(bytes, decode) != Stream([], true)
       else
         && |WithoutReturns(bytes[..n])| <= MAX_RESPONSE_BYTES
         && !ParseLine(WithoutReturns(bytes[..n]), decode).Bad?
         && Sensitive(bytes[n + 1..], decode)
  }

  /** Some line is over the limit. */
  ghost predicate Overlong(bytes: seq<Byte>) {
    var n := FirstFeed(bytes);
    if n == |bytes| then n > MAX_RESPONSE_BYTES
    else |WithoutReturns(bytes[..n])| > MAX_RESPONSE_BYTES || Overlong(bytes[n + 1..])
  }

  function Concat(chunks: seq<seq<Byte>>): seq<Byte> {
    if chunks == [] then [] else chunks[0] + Concat(chunks[1..])
  }

  function After(data: seq<string>, rest: Stream): Stream {
    Stream(data + rest.data, rest.failed)
  }

  lemma {:induction false} FeedInFront(buffer: seq<Byte>, rest: seq<Byte>)
    ensures FirstFeed(buffer) < |buffer| ==> FirstFeed(buffer + rest) == FirstFeed(buffer)
    ensures FirstFeed(buffer) == |buffer| ==> FirstFeed(buffer + rest) >= |buffer|
  {
    if buffer != [] && buffer[0] != LF {
      assert (buffer + rest)[1..] == buffer[1..] + rest;
      FeedInFront(buffer[1..], rest);
    }
  }

  /** The first line of a buffer is the first line of all that follows it. */
  lemma {:induction false} SplitInFront(buffer: seq<Byte>, rest: seq<Byte>)
    requires FirstFeed(buffer) < |buffer|
    ensures var n := FirstFeed(buffer);
            && FirstFeed(buffer + rest) == n < |buffer + rest|
            && (buffer + rest)[..n] == buffer[..n] && (buffer + rest)[n + 1..] == buffer[n + 1..] + rest
  {
    FeedInFront(buffer, rest);
  }

  /** What a complete line in front of the buffer decodes to. */
  lemma {:induction false} LineInFront(buffer: seq<Byte>, rest: seq<Byte>, decode: seq<Byte> -> Option<string>)
    requires FirstFeed(buffer) < |buffer|
    ensures var n := FirstFeed(buffer);
            var line := WithoutReturns(buffer[..n]);
            && Decoded(buffer + rest, decode)
               == (if |line| > MAX_RESPONSE_BYTES then Stream([], true)
                   else Followed(ParseLine(line, decode), Decoded(buffer[n + 1..] + rest, decode)))
            && (Sensitive(buffer + rest, decode)
                <==> if Unsteady(buffer[..n]) then Decoded(buffer + rest, decode) != Stream([], true)
                     else |line| <= MAX_RESPONSE_BYTES && !ParseLine(line, decode).Bad?
                          && Sensitive(buffer[n + 1..] + rest, decode))
            && (Overlong(buffer + rest) <==> |line| > MAX_RESPONSE_BYTES || Overlong(buffer[n + 1..] + rest))
  {
    hide ParseLine, WithoutReturns, FirstFeed, Unsteady, Followed;
    SplitInFront(buffer, rest);
  }

  lemma FollowedAfter(out: seq<string>, line: Line, rest: Stream)
    ensures line.Nothing? ==> After(out, Followed(line, rest)) == After(out, rest)
    ensures line.Data? ==> After(out, Followed(line, rest)) == After(out + [line.value], rest)
    ensures line.Bad? ==> After(out, Followed(line, rest)) == Stream(out, true)
  {
    if line.Data? {
      assert out + ([line.value] + rest.data) == out + [line.value] + rest.data;
    }
  }

  // ---- the stream chunk by chunk ----

  /** What is left of a buffer, the values of its complete lines, and whether one of
      them was rejected. */
  datatype Taken = Taken(left: seq<Byte>, data: seq<string>, failed: bool)

  /** Takes the complete lines out of a buffer. */
  function Drained(buffer: seq<Byte>, decode: seq<Byte> -> Option<string>): Taken {
    var n := FirstFeed(buffer);
    if n == |buffer| then Taken(buffer, [], false)
    else
      var line := WithoutReturns(buffer[..n]);
      if |line| > MAX_RESPONSE_BYTES then Taken(buffer[n + 1..], [], true)
      else
        match ParseLine(line, decode)
        case Nothing => Drained(buffer[n + 1..], decode)
        case Data(value) =>
          var rest := Drained(buffer[n + 1..], decode);
          Taken(rest.left, [value] + rest.data, rest.failed)
        case Bad => Taken(buffer[n + 1..], [], true)
  }

  /** What the reader yields for the chunks that follow a buffered rest. */
  function Read(buffer: seq<Byte>, chunks: seq<seq<Byte>>, decode: seq<Byte> -> Option<string>): Stream
    decreases |chunks|
  {
    if chunks == [] then Decoded(buffer, decode)
    else
      var filled := buffer + chunks[0];
      if |filled| > MAX_RESPONSE_BYTES && LF !in filled then Stream([], true)
      else
        var taken := Drained(filled, decode);
        if taken.failed then Stream(taken.data, true) else After(taken.data, Read(taken.left, chunks[1..], decode))
  }

  lemma AfterNothing(rest: Stream)
    ensures After([], rest) == rest
  {
    assert [] + rest.data == rest.data;
  }

  lemma AfterThen(a: seq<string>, b: seq<string>, rest: Stream)
    ensures After(a, After(b, rest)) == After(a + b, rest)
  {
    assert a + (b + rest.data) == a + b + rest.data;
  }

  /** Taking lines out changes nothing of what the bytes decode to. */
  lemma {:induction false} DrainedDecodes(buffer: seq<Byte>, rest: seq<Byte>, decode: seq<Byte> -> Option<string>)
    ensures var taken := Drained(buffer, decode);
            && (taken.failed ==> Decoded(buffer + rest, decode) == Stream(taken.data, true))
            && (!taken.failed ==>
                  && LF !in taken.left
                  && Decoded(buffer + rest, decode) == After(taken.data, Decoded(taken.left + rest, decode))
                  && (Overlong(buffer + rest) ==> Overlong(taken.left + rest)))
    decreases |buffer|
  {
    hide Decoded, Overlong, ParseLine, WithoutReturns, Sensitive, Unsteady;
    var n := FirstFeed(buffer);
    if n == |buffer| {
      FeedOrNone(buffer);
      AfterNothing(Decoded(buffer + rest, decode));
    } else {
      LineInFront(buffer, rest, decode);
      var parsed := ParseLine(WithoutReturns(buffer[..n]), decode);
      if |WithoutReturns(buffer[..n])| <= MAX_RESPONSE_BYTES && !parsed.Bad? {
        DrainedDecodes(buffer[n + 1..], rest, decode);
        if parsed.Data? {
          var taken := Drained(buffer[n + 1..], decode);
          AfterThen([parsed.value], taken.data, Decoded(taken.left + rest, decode));
        }
      }
    }
  }

  /** Taking lines out of a buffer leaves nothing sensitive behind where nothing was,
      or leaves what is rejected without another value. */
  lemma {:induction false} DrainedInsensitive(buffer: seq<Byte>, rest: seq<Byte>, decode: seq<Byte> -> Option<string>)
    requires !Sensitive(buffer + rest, decode) && !Drained(buffer, decode).failed
    ensures var left := Drained(buffer, decode).left;
            !Sensitive(left + rest, decode) || Decoded(left + rest, decode) == Stream([], true)
    decreases |buffer|
  {
    hide Decoded, Overlong, ParseLine, WithoutReturns, Sensitive, Unsteady;
    var n := FirstFeed(buffer);
    if n < |buffer| {
      LineInFront(buffer, rest, decode);
      if Unsteady(buffer[..n]) {
        DrainedDecodes(buffer, rest, decode);
      } else {
        DrainedInsensitive(buffer[n + 1..], rest, decode);
      }
    }
  }

  lemma {:induction false} ConcatNext(buffer: seq<Byte>, chunks: seq<seq<Byte>>)
    ensures chunks == [] ==> buffer + Concat(chunks) == buffer
    ensures chunks != [] ==> buffer + Concat(chunks) == buffer + chunks[0] + Concat(chunks[1..])
  {
  }

  /** A buffer over the limit without a line feed. */
  lemma {:induction false} LongInFront(buffer: seq<Byte>, rest: seq<Byte>, decode: seq<Byte> -> Option<string>)
    requires |buffer| > MAX_RESPONSE_BYTES && LF !in buffer
    ensures !Sensitive(buffer + rest, decode) ==> Decoded(buffer + rest, decode) == Stream([], true)
  {
    FeedOrNone(buffer);
    FeedInFront(buffer, rest);
  }

  /** What is rejected without a value in one chunk is so in every chunking. */
  lemma {:induction false} RejectedAnyway(
    buffer: seq<Byte>, chunks: seq<seq<Byte>>, decode: seq<Byte> -> Option<string>)
    requires Decoded(buffer + Concat(chunks), decode) == Stream([], true)
    ensures Read(buffer, chunks, decode) == Stream([], true)
    decreases |chunks|
  {
    hide Decoded, Drained;
    ConcatNext(buffer, chunks);
    if chunks != [] {
      var filled := buffer + chunks[0];
      if |filled| <= MAX_RESPONSE_BYTES || LF in filled {
        DrainedDecodes(filled, Concat(chunks[1..]), decode);
        if !Drained(filled, decode).failed {
          RejectedAnyway(Drained(filled, decode).left, chunks[1..], decode);
        }
      }
    }
  }

  /** A stream that is not sensitive decodes alike in every chunking. */
  lemma {:induction false} InsensitiveAgrees(
    buffer: seq<Byte>, chunks: seq<seq<Byte>>, decode: seq<Byte> -> Option<string>)
    requires !Sensitive(buffer + Concat(chunks), decode)
    ensures Read(buffer, chunks, decode) == Decoded(buffer + Concat(chunks), decode)
    decreases |chunks|
  {
    hide Decoded, Drained, Sensitive;
    ConcatNext(buffer, chunks);
    if chunks != [] {
      var filled, rest := buffer + chunks[0], Concat(chunks[1..]);
      if |filled| > MAX_RESPONSE_BYTES && LF !in filled {
        LongInFront(filled, rest, decode);
      } else {
        DrainedDecodes(filled, rest, decode);
        var taken := Drained(filled, decode);
        if !taken.failed {
          DrainedInsensitive(filled, rest, decode);
          if Decoded(taken.left + rest, decode) == Stream([], true) {
            RejectedAnyway(taken.left, chunks[1..], decode);
          } else {
            InsensitiveAgrees(taken.left, chunks[1..], decode);
          }
        }
      }
    }
  }

  /** A line over the limit is rejected in every chunking. */
  lemma {:induction false} OverlongRejected(
    buffer: seq<Byte>, chunks: seq<seq<Byte>>, decode: seq<Byte> -> Option<string>)
    requires Overlong(buffer + Concat(chunks))
    ensures Read(buffer, chunks, decode).failed
    decreases |chunks|
  {
    hide Drained, ParseLine;
    ConcatNext(buffer, chunks);
    if chunks == [] {
      OverlongFails(buffer, decode);
    } else {
      var filled := buffer + chunks[0];
      if |filled| <= MAX_RESPONSE_BYTES || LF in filled {
        DrainedDecodes(filled, Concat(chunks[1..]), decode);
        if !Drained(filled, decode).failed {
          OverlongRejected(Drained(filled, decode).left, chunks[1..], decode);
        }
      }
    }
  }

  lemma {:induction false} OverlongFails(bytes: seq<Byte>, decode: seq<Byte> -> Option<string>)
    requires Overlong(bytes)
    ensures Decoded(bytes, decode).failed
    decreases |bytes|
  {
    hide ParseLine, WithoutReturns;
    var n := FirstFeed(bytes);
    if n < |bytes| && |WithoutReturns(bytes[..n])| <= MAX_RESPONSE_BYTES {
      OverlongFails(bytes[n + 1..], decode);
    }
  }

  lemma {:induction false} FirstLine(bytes: seq<Byte>)
    requires FirstFeed(bytes) < |bytes|
    ensures var n := FirstFeed(bytes);
            && LF !in bytes[..n] && bytes[..n] + [LF] == bytes[..n + 1]
            && FirstFeed(bytes[..n + 1]) == n && FirstFeed([]) == 0
            && bytes == bytes[..n + 1] + bytes[n + 1..]
  {
    var n := FirstFeed(bytes);
    FeedOrNone(bytes[..n]);
    FeedInFront(bytes[..n], [LF]);
    assert bytes[..n + 1] == bytes[..n] + [LF];
  }

  /** A chunking that decodes a sensitive stream otherwise: cut behind every line
      before the first unsteady one, and before the line feed of that one. */
  lemma {:induction false} SensitiveDiffers(bytes: seq<Byte>, decode: seq<Byte> -> Option<string>)
    returns (chunks: seq<seq<Byte>>)
    requires Sensitive(bytes, decode)
    ensures Concat(chunks) == bytes && Read([], chunks, decode) != Decoded(bytes, decode)
    decreases |bytes|
  {
    hide ParseLine, WithoutReturns, Drained, Decoded, Read, Concat, Unsteady;
    var n := FirstFeed(bytes);
    FirstLine(bytes);
    var rest := bytes[n + 1..];
    if Unsteady(bytes[..n]) {
      chunks := [bytes[..n], [LF] + rest];
      CutBeforeFeed(bytes[..n], [LF] + rest, decode);
      assert bytes == bytes[..n] + ([LF] + rest);
    } else {
      var more := SensitiveDiffers(rest, decode);
      chunks := [bytes[..n + 1]] + more;
      Halves(bytes, n);
      CutBehindFeed(bytes[..n + 1], rest, more, decode);
    }
  }

  lemma Halves<T>(s: seq<T>, n: nat)
    requires n < |s|
    ensures s[..n + 1][..n] == s[..n] && s == s[..n + 1] + s[n + 1..]
  {
  }

  /** A difference behind a line is a difference with that line read first. */
  lemma {:induction false} CutBehindFeed(
    line: seq<Byte>, rest: seq<Byte>, more: seq<seq<Byte>>, decode: seq<Byte> -> Option<string>)
    requires line != [] && FirstFeed(line) == |line| - 1
    requires |WithoutReturns(line[..|line| - 1])| <= MAX_RESPONSE_BYTES
    requires !ParseLine(WithoutReturns(line[..|line| - 1]), decode).Bad?
    requires Concat(more) == rest && Read([], more, decode) != Decoded(rest, decode)
    ensures Concat([line] + more) == line + rest && Read([], [line] + more, decode) != Decoded(line + rest, decode)
  {
    hide ParseLine, WithoutReturns, Drained, Decoded;
    assert ([line] + more)[1..] == more && [] + line == line && [] + rest == rest;
    FeedOrNone(line);
    OneDrained(line, decode);
    DifferAfter(Drained(line, decode).data, Read([], more, decode), Decoded(rest, decode));
    DrainedDecodes(line, rest, decode);
  }

  lemma CutBeforeFeed(line: seq<Byte>, rest: seq<Byte>, decode: seq<Byte> -> Option<string>)
    requires Unsteady(line) && LF !in line
    ensures Concat([line, rest]) == line + rest && Read([], [line, rest], decode) == Stream([], true)
  {
    hide ParseLine, WithoutReturns, Drained, Decoded;
    assert Concat([rest]) == rest + Concat([]) == rest;
    assert [line, rest][1..] == [rest] && [] + line == line;
  }

  lemma {:induction false} OneDrained(line: seq<Byte>, decode: seq<Byte> -> Option<string>)
    requires line != [] && FirstFeed(line) == |line| - 1
    requires |WithoutReturns(line[..|line| - 1])| <= MAX_RESPONSE_BYTES
    requires !ParseLine(WithoutReturns(line[..|line| - 1]), decode).Bad?
    ensures !Drained(line, decode).failed && Drained(line, decode).left == []
  {
    hide ParseLine, WithoutReturns;
    assert line[|line|..] == [];
    assert Drained([], decode) == Taken([], [], false);
  }

  lemma DifferAfter(data: seq<string>, a: Stream, b: Stream)
    requires a != b
    ensures After(data, a) != After(data, b)
  {
    assert (data + a.data)[|data|..] == a.data;
    assert (data + b.data)[|data|..] == b.data;
  }

  /** Some chunking of a stream yields something else than its bytes in one chunk
      exactly when decoding reaches a line that is over the limit by its carriage
      returns alone, and does not reject the stream from there on anyway. */
  lemma {:induction false} ChunksMatterIff(bytes: seq<Byte>, decode: seq<Byte> -> Option<string>)
    ensures Read([], [bytes], decode) == Decoded(bytes, decode)
    ensures (exists chunks :: Concat(chunks) == bytes && Read([], chunks, decode) != Decoded(bytes, decode))
            <==> Sensitive(bytes, decode)
  {
    hide Sensitive, Decoded, Drained;
    InOneChunk(bytes, decode);
    if Sensitive(bytes, decode) {
      var chunks := SensitiveDiffers(bytes, decode);
    }
    forall chunks | Concat(chunks) == bytes && !Sensitive(bytes, decode)
      ensures Read([], chunks, decode) == Decoded(bytes, decode)
    {
      assert [] + Concat(chunks) == bytes;
      InsensitiveAgrees([], chunks, decode);
    }
  }

  lemma {:induction false} InOneChunk(bytes: seq<Byte>, decode: seq<Byte> -> Option<string>)
    ensures Read([], [bytes], decode) == Decoded(bytes, decode)
  {
    hide Drained, ParseLine, WithoutReturns, Overlong, Sensitive;
    assert [] + bytes == bytes && bytes + [] == bytes;
    if |bytes| > MAX_RESPONSE_BYTES && LF !in bytes {
      FeedOrNone(bytes);
    } else {
      DrainedDecodes(bytes, [], decode);
      var taken := Drained(bytes, decode);
      assert taken.left + [] == taken.left && [bytes][1..] == [];
    }
  }

  // ---- the code ----

  /** Takes the complete lines out of the buffer, one after another. */
  method Drain(buffer: seq<Byte>, out: seq<string>, decode: seq<Byte> -> Option<string>)
    returns (left: seq<Byte>, data: seq<string>, failed: bool)
    ensures var taken := Drained(buffer, decode);
            left == taken.left && data == out + taken.data && failed == taken.failed
  {
    hide ParseLine, WithoutReturns;
    left, data, failed := buffer, out, false;
    while true
      invariant Drained(buffer, decode).left == Drained(left, decode).left
      invariant Drained(buffer, decode).failed == Drained(left, decode).failed
      invariant out + Drained(buffer, decode).data == data + Drained(left, decode).data
      decreases |left|
    {
      var newline := FirstFeed(left);
      if newline == |left| {
        return;
      }
      var line := WithoutReturns(left[..newline]);
      left := left[newline + 1..];
      if |line| > MAX_RESPONSE_BYTES {
        return left, data, true;
      }
      match ParseLine(line, decode)
      case Nothing =>
      case Data(value) =>
        assert data + ([value] + Drained(left, decode).data) == data + [value] + Drained(left, decode).data;
        data := data + [value];
      case Bad => return left, data, true;
    }
  }

  /** `_iter_sse_data`: what is yielded is what the reader's specification says. A
      stream that is not sensitive is decoded alike whatever its chunks; a line over
      the limit is always rejected. */
  method IterSseData(chunks: seq<seq<Byte>>, decode: seq<Byte> -> Option<string>) returns (stream: Stream)
    ensures stream == Read([], chunks, decode)
    ensures !Sensitive(Concat(chunks), decode) ==> stream == Decoded(Concat(chunks), decode)
    ensures Overlong(Concat(chunks)) ==> stream.failed
  {
    hide Decoded, Drained, Overlong, ParseLine, WithoutReturns, Sensitive;
    ReadMeans(chunks, decode);
    var buffer: seq<Byte> := [];
    var data: seq<string> := [];
    assert chunks[0..] == chunks;
    AfterNothing(Read([], chunks, decode));
    for k := 0 to |chunks|
      invariant LF !in buffer
      invariant Read([], chunks, decode) == After(data, Read(buffer, chunks[k..], decode))
    {
      assert chunks[k..][1..] == chunks[k + 1..];
      ghost var before := data;
      buffer := buffer + chunks[k];
      if |buffer| > MAX_RESPONSE_BYTES && LF !in buffer {
        AfterFailure(data, []);
        return Stream(data, true);
      }
      DrainedDecodes(buffer, [], decode);
      var taken := Drained(buffer, decode);
      var failed;
      buffer, data, failed := Drain(buffer, data, decode);
      AfterThen(before, taken.data, Read(taken.left, chunks[k + 1..], decode));
      AfterFailure(before, taken.data);
      if failed {
        return Stream(data, true);
      }
    }
    assert chunks[|chunks|..] == [];
    Rest(buffer, decode);
    AfterFailure(data, []);
    if buffer != [] {
      if |buffer| > MAX_RESPONSE_BYTES {
        return Stream(data, true);
      }
      var parsed := ParseLine(WithoutReturns(buffer), decode);
      FollowedAfter(data, parsed, Stream([], false));
      match parsed
      case Nothing =>
      case Data(value) => data := data + [value];
      case Bad => return Stream(data, true);
    }
    assert data + [] == data;
    stream := Stream(data, false);
  }

  lemma {:induction false} ReadMeans(chunks: seq<seq<Byte>>, decode: seq<Byte> -> Option<string>)
    ensures !Sensitive(Concat(chunks), decode) ==> Read([], chunks, decode) == Decoded(Concat(chunks), decode)
    ensures Overlong(Concat(chunks)) ==> Read([], chunks, decode).failed
  {
    hide Read, Sensitive, Overlong, Decoded;
    assert [] + Concat(chunks) == Concat(chunks);
    if !Sensitive(Concat(chunks), decode) {
      InsensitiveAgrees([], chunks, decode);
    }
    if Overlong(Concat(chunks)) {
      OverlongRejected([], chunks, decode);
    }
  }

  lemma AfterFailure(out: seq<string>, data: seq<string>)
    ensures After(out, Stream(data, true)) == Stream(out + data, true)
    ensures out + [] == out
  {
  }

  lemma {:induction false} FeedOrNone(bytes: seq<Byte>)
    ensures LF !in bytes <==> FirstFeed(bytes) == |bytes|
  {
    assert bytes[..|bytes|] == bytes;
  }

  /** The unterminated rest at the end of the stream. */
  lemma {:induction false} Rest(buffer: seq<Byte>, decode: seq<Byte> -> Option<string>)
    requires LF !in buffer
    ensures Decoded(buffer, decode) ==
            if |buffer| > MAX_RESPONSE_BYTES then Stream([], true)
            else Followed(ParseLine(WithoutReturns(buffer), decode), Stream([], false))
    ensures buffer == [] ==> Decoded(buffer, decode) == Stream([], false)
  {
    FeedOrNone(buffer);
  }

  // ---- a concrete family ----

  lemma {:induction false} ReturnsStripped(body: seq<Byte>)
    requires body != [] && body[|body| - 1] != CR
    ensures WithoutReturns(body + [CR]) == body
  {
    assert (body + [CR])[..|body|] == body;
  }

  /** A line that exceeds the limit by its carriage return alone makes its stream
      sensitive unless it is no text. */
  lemma {:induction false} ReturnsMatter(body: seq<Byte>, decode: seq<Byte> -> Option<string>)
    requires |body| == MAX_RESPONSE_BYTES && LF !in body && CR !in body
    ensures Sensitive(body + [CR] + [LF], decode) <==> !ParseLine(body, decode).Bad?
  {
    hide ParseLine;
    var line := body + [CR];
    var bytes := line + [LF];
    assert LF !in line;
    FeedOrNone(line);
    FeedInFront(line, [LF]);
    assert bytes[|line|] == LF && bytes[..|line|] == line && bytes[|line| + 1..] == [];
    ReturnsStripped(body);
    Rest([], decode);
  }
}
