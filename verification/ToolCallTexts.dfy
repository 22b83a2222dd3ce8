/** Which streams and responses give which tool calls, read off their texts. */
module ToolCallTexts {
  import opened Text
  import opened Messages
  import opened ToolCallDeltas

  // ---- sizes ----

  /** The bytes of a character in UTF-8 (RFC 3629, section 3). */
  function Encoded(c: char): (bytes: seq<nat>)
    ensures bytes != [] && forall k | 0 <= k < |bytes| :: bytes[k] < 256
  {
    var n := c as int;
    if n < 0x80 then [n]
    else if n < 0x800 then [0xC0 + n / 64, 0x80 + n % 64]
    else if n < 0x10000 then [0xE0 + n / 4096, 0x80 + n / 64 % 64, 0x80 + n % 64]
    else [0xF0 + n / 262144, 0x80 + n / 4096 % 64, 0x80 + n / 64 % 64, 0x80 + n % 64]
  }

  function AllEncoded(s: string): seq<nat> {
    if s == "" then [] else AllEncoded(s[..|s| - 1]) + Encoded(s[|s| - 1])
  }

  /** The size of a text is that of its encoding. */
  lemma {:induction false} SizeIs(s: string)
    ensures Utf8Length(s) == |AllEncoded(s)|
  {
    if s != "" {
      SizeIs(s[..|s| - 1]);
    }
  }

  // ---- streams ----

  /** A value that may be missing, but is text if it is there. */
  predicate TextOrNothing(field: Field) {
    field == Missing || field.Given?
  }

  /** What an item of a stream must be: an object for one of 64 calls whose parts are
      texts, if they are there, and whose kind, if it has one, is a function. */
  predicate Typed(item: Item) {
    && item.Item? && item.index.Index? && item.index.value <= 63
    && TextOrNothing(item.id) && (item.kind == NoKind || item.kind == NullKind || item.kind == FunctionKind)
    && (item.function_ == NoFunction
        || (item.function_.Function? && TextOrNothing(item.function_.name) && TextOrNothing(item.function_.arguments)))
  }

  lemma TypedIs(item: Item)
    ensures ValidItem(item) <==> Typed(item)
  {
  }

  function Part(field: Field): string {
    match field
    case Given(text) => text
    case _ => ""
  }

  /** The id, the name and the arguments of one call: all parts of it in their order. */
  function Texts(items: seq<Item>, index: nat): Buffer {
    if items == [] then Buffer("", "", "")
    else
      var rest := Texts(items[1..], index);
      if !items[0].Item? || items[0].index != Index(index) then rest
      else if !items[0].function_.Function? then rest.(id := Part(items[0].id) + rest.id)
      else
        Buffer(Part(items[0].id) + rest.id, Part(items[0].function_.name) + rest.name,
               Part(items[0].function_.arguments) + rest.arguments)
  }

  function Joins(a: Buffer, b: Buffer): Buffer {
    Buffer(a.id + b.id, a.name + b.name, a.arguments + b.arguments)
  }

  lemma JoinsAgain(a: Buffer, b: Buffer, c: Buffer)
    ensures Joins(a, Joins(b, c)) == Joins(Joins(a, b), c)
  {
    assert a.id + (b.id + c.id) == a.id + b.id + c.id;
    assert a.name + (b.name + c.name) == a.name + b.name + c.name;
    assert a.arguments + (b.arguments + c.arguments) == a.arguments + b.arguments + c.arguments;
  }

  /** The texts of one item alone. */
  function OneText(item: Item, index: nat): Buffer {
    if !item.Item? || item.index != Index(index) then EMPTY
    else if item.function_.Function? then
      Buffer(Part(item.id), Part(item.function_.name), Part(item.function_.arguments))
    else Buffer(Part(item.id), "", "")
  }

  lemma {:induction false} TextsFirst(item: Item, items: seq<Item>, index: nat)
    ensures Texts([item] + items, index) == Joins(OneText(item, index), Texts(items, index))
  {
    assert ([item] + items)[1..] == items;
    var rest := Texts(items, index);
    assert "" + rest.id == rest.id && "" + rest.name == rest.name && "" + rest.arguments == rest.arguments;
  }

  lemma {:induction false} TextsLast(items: seq<Item>, item: Item, index: nat)
    ensures Texts(items + [item], index) == Joins(Texts(items, index), OneText(item, index))
  {
    hide Texts, OneText, Joins;
    NoTexts(OneText(item, index), index);
    if items == [] {
      assert items + [item] == [item] == [item] + [];
      TextsFirst(item, [], index);
    } else {
      var first, rest := items[0], items[1..];
      assert items == [first] + rest && items + [item] == [first] + (rest + [item]);
      TextsLast(rest, item, index);
      TextsFirst(first, rest, index);
      TextsFirst(first, rest + [item], index);
      JoinsAgain(OneText(first, index), Texts(rest, index), OneText(item, index));
    }
  }

  lemma {:induction false} NoTexts(b: Buffer, index: nat)
    ensures Texts([], index) == EMPTY && Joins(EMPTY, b) == b == Joins(b, EMPTY)
  {
    assert "" + b.id == b.id == b.id + "" && "" + b.name == b.name == b.name + "";
    assert "" + b.arguments == b.arguments == b.arguments + "";
  }

  lemma {:induction false} JoinedTexts(items: seq<Item>, index: nat)
    requires AllValid(items)
    ensures Joined(items, index) == Texts(items, index)
  {
    hide Texts, OneText;
    if items == [] {
      NoTexts(EMPTY, index);
    } else {
      var older, last := items[..|items| - 1], items[|items| - 1];
      assert items == older + [last];
      JoinedTexts(older, index);
      TextsLast(older, last, index);
      OneIs(last, index);
      NoTexts(Texts(older, index), index);
    }
  }

  lemma OneIs(item: Item, index: nat)
    requires ValidItem(item)
    ensures OneText(item, index) == if item.index.value == index then FragmentOf(item) else EMPTY
  {
  }

  /** These texts make this call: an id and a name, and arguments of at most 32,768 bytes
      that can be read. */
  predicate Makes(texts: Buffer, call: ToolCall, parse: string -> Option<string>) {
    && call.id == texts.id && call.name == texts.name && call.id != "" && call.name != ""
    && |AllEncoded(texts.arguments)| <= 32_768 && parse(texts.arguments) == Some(call.arguments)
  }

  lemma MakesIs(texts: Buffer, call: ToolCall, parse: string -> Option<string>)
    ensures Built(texts, parse) == Some(call) <==> Makes(texts, call, parse)
  {
    SizeIs(texts.arguments);
  }

  /** Some item is about this call. */
  ghost predicate Speaks(items: seq<Item>, i: nat) {
    exists k :: 0 <= k < |items| && items[k].Item? && items[k].index == Index(i)
  }

  /** A stream gives these calls exactly when every item is well typed, the items speak of
      the calls 0 to n - 1, the texts of each make that call, and no id occurs twice. */
  ghost predicate Gives(items: seq<Item>, calls: seq<ToolCall>, parse: string -> Option<string>) {
    && (forall k | 0 <= k < |items| :: Typed(items[k]))
    && (forall i: nat :: Speaks(items, i) <==> i < |calls|)
    && (forall k | 0 <= k < |calls| :: Makes(Texts(items, k), calls[k], parse))
    && (forall k, l | 0 <= k < l < |calls| :: calls[k].id != calls[l].id)
  }

  lemma {:induction false} GivesValid(items: seq<Item>, calls: seq<ToolCall>, parse: string -> Option<string>)
    ensures Gives(items, calls, parse)
            <==> AllValid(items) && (forall i: nat :: Mentions(items, i) <==> i < |calls|)
                 && (forall k | 0 <= k < |calls| :: Built(Joined(items, k), parse) == Some(calls[k]))
                 && Distinct(CallIdsOf(calls))
  {
    hide Texts, Built, Makes, Joined, ValidItem, Typed;
    AllTyped(items);
    forall i: nat ensures Mentions(items, i) <==> Speaks(items, i) {}
    if AllValid(items) {
      forall k | 0 <= k < |calls|
        ensures Built(Joined(items, k), parse) == Some(calls[k]) <==> Makes(Texts(items, k), calls[k], parse) {
        JoinedTexts(items, k);
        MakesIs(Texts(items, k), calls[k], parse);
      }
    }
    DistinctIds(calls);
  }

  lemma AllTyped(items: seq<Item>)
    ensures AllValid(items) <==> forall k | 0 <= k < |items| :: Typed(items[k])
  {
    hide ValidItem, Typed;
    forall k | 0 <= k < |items| ensures ValidItem(items[k]) <==> Typed(items[k]) {
      TypedIs(items[k]);
    }
  }

  lemma DistinctIds(calls: seq<ToolCall>)
    ensures Distinct(CallIdsOf(calls)) <==> forall k, l | 0 <= k < l < |calls| :: calls[k].id != calls[l].id
  {
    var ids := CallIdsOf(calls);
    if Distinct(ids) {
      forall k, l | 0 <= k < l < |calls| ensures calls[k].id != calls[l].id {
        assert ids[k] != ids[l];
      }
    }
  }

  lemma {:induction false} StreamGives(items: seq<Item>, calls: seq<ToolCall>, parse: string -> Option<string>)
    ensures Assembled(items, parse) == Some(calls) <==> Gives(items, calls, parse)
  {
    hide Built, Joined, Gives, Mentions, Utf8Length;
    GivesValid(items, calls, parse);
    if Assembled(items, parse) == Some(calls) {
      AssembledSound(items, parse);
    }
    if Gives(items, calls, parse) {
      AccumulatedIs(items);
      GivenFits(items, calls, parse);
      var buffers := AllAccumulated(items).value;
      forall k: nat ensures (k in buffers <==> k < |calls|)
                            && (k < |calls| ==> Built(At(buffers, k), parse) == Some(calls[k])) {
      }
      FinalizedAs(buffers, calls, parse);
    }
  }

  lemma {:induction false} GivenFits(items: seq<Item>, calls: seq<ToolCall>, parse: string -> Option<string>)
    requires AllValid(items) && forall i: nat :: Mentions(items, i) <==> i < |calls|
    requires forall k | 0 <= k < |calls| :: Built(Joined(items, k), parse) == Some(calls[k])
    ensures WithinLimits(items)
  {
    hide Joined, Mentions, Utf8Length, AllValid;
    EmptyFits();
    forall i: nat | i < MAX_MODEL_TOOL_CALLS
      ensures Utf8Length(Joined(items, i).arguments) <= MAX_TOOL_ARGUMENT_BYTES {
      if i < |calls| {
        assert Built(Joined(items, i), parse) == Some(calls[i]);
      } else {
        Unmentioned(items, i);
      }
    }
  }

  // ---- whole responses ----

  /** One object of a response makes this call: its parts are all there. */
  predicate Spells(item: Item, call: ToolCall, parse: string -> Option<string>) {
    && item.Item? && (item.kind == NoKind || item.kind == FunctionKind)
    && item.id == Given(call.id) && item.function_.Function? && item.function_.name == Given(call.name)
    && item.function_.arguments.Given? && Makes(Buffer(call.id, call.name, item.function_.arguments.text), call, parse)
  }

  lemma SpellsIs(item: Item, call: ToolCall, parse: string -> Option<string>)
    ensures ParsedCall(item, parse) == Some(call) <==> Spells(item, call, parse)
  {
    hide Utf8Length, AllEncoded;
    if item.Item? && item.id.Given? && item.function_.Function? && item.function_.name.Given?
       && item.function_.arguments.Given? {
      MakesIs(Buffer(item.id.text, item.function_.name.text, item.function_.arguments.text), call, parse);
    }
  }

  /** A response gives these calls exactly when it has one object for each, at most 64,
      and no id occurs twice. */
  lemma {:induction false} ResponseGives(items: seq<Item>, calls: seq<ToolCall>, parse: string -> Option<string>)
    ensures Parsed(items, parse) == Some(calls)
            <==> |items| == |calls| <= 64 && (forall k | 0 <= k < |calls| :: Spells(items[k], calls[k], parse))
                 && forall k, l | 0 <= k < l < |calls| :: calls[k].id != calls[l].id
  {
    hide ParsedCall, Spells;
    ParsedIff(items, calls, parse);
    forall k | 0 <= k < |items| && k < |calls|
      ensures ParsedCall(items[k], parse) == Some(calls[k]) <==> Spells(items[k], calls[k], parse) {
      SpellsIs(items[k], calls[k], parse);
    }
    assert forall k | 0 <= k < |calls| :: CallIdsOf(calls)[k] == calls[k].id;
  }
}
