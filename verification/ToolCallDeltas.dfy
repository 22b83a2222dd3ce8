/** Assembling tool calls from a model response
    (src/leanharness/models/openai_compatible.py). The JSON text of arguments is
    read by a function parameter. */
module ToolCallDeltas {
  import opened Text
  import opened Messages

  const MAX_TOOL_ARGUMENT_BYTES := 32 * 1024
  const MAX_MODEL_TOOL_CALLS := 64

  /** A JSON value where text is expected. */
  datatype Field = Missing | Given(text: string) | WrongType

  datatype Kind = NoKind | NullKind | FunctionKind | OtherKind

  datatype Function = NoFunction | WrongFunction | Function(name: Field, arguments: Field)

  datatype Index = BadIndex | Index(value: nat)

  datatype Item = NotObject | Item(index: Index, id: Field, kind: Kind, function_: Function)

  datatype Delta = NoCalls | NotList | Calls(items: seq<Item>)

  datatype Buffer = Buffer(id: string, name: string, arguments: string)

  const EMPTY := Buffer("", "", "")

  function Utf8Width(c: char): nat {
    if c < '\U{80}' then 1 else if c < '\U{800}' then 2 else if c < '\U{10000}' then 3 else 4
  }

  function Utf8Length(s: string): nat {
    if s == "" then 0 else Utf8Length(s[..|s| - 1]) + Utf8Width(s[|s| - 1])
  }

  lemma {:induction false} Utf8Grows(a: string, b: string)
    ensures Utf8Length(a) <= Utf8Length(a + b)
  {
    if b == "" {
      assert a + b == a;
    } else {
      Utf8Grows(a, b[..|b| - 1]);
      assert (a + b)[..|a + b| - 1] == a + b[..|b| - 1];
    }
  }

  // ---- one delta item ----

  function TextOf(field: Field): string {
    if field.Given? then field.text else ""
  }

  predicate ValidItem(item: Item) {
    && item.Item? && item.index.Index? && item.index.value < MAX_MODEL_TOOL_CALLS
    && !item.id.WrongType? && !item.kind.OtherKind? && !item.function_.WrongFunction?
    && (item.function_.Function? ==> !item.function_.name.WrongType? && !item.function_.arguments.WrongType?)
  }

  function FragmentOf(item: Item): Buffer
    requires item.Item?
  {
    if item.function_.Function? then
      Buffer(TextOf(item.id), TextOf(item.function_.name), TextOf(item.function_.arguments))
    else Buffer(TextOf(item.id), "", "")
  }

  function Extended(b: Buffer, f: Buffer): Buffer {
    Buffer(b.id + f.id, b.name + f.name, b.arguments + f.arguments)
  }

  function At(buffers: map<nat, Buffer>, index: nat): Buffer {
    if index in buffers then buffers[index] else EMPTY
  }

  function Accumulated(buffers: map<nat, Buffer>, item: Item): Option<map<nat, Buffer>> {
    if !ValidItem(item) then None
    else
      var next := Extended(At(buffers, item.index.value), FragmentOf(item));
      if Utf8Length(next.arguments) > MAX_TOOL_ARGUMENT_BYTES then None
      else Some(buffers[item.index.value := next])
  }

  function AllAccumulated(items: seq<Item>): Option<map<nat, Buffer>> {
    if items == [] then Some(map[])
    else
      var before := AllAccumulated(items[..|items| - 1]);
      if before.None? then None else Accumulated(before.value, items[|items| - 1])
  }

  // ---- what accumulating amounts to ----

  predicate AllValid(items: seq<Item>) {
    forall k | 0 <= k < |items| :: ValidItem(items[k])
  }

  /** The fragments of one index, concatenated field by field. */
  function Joined(items: seq<Item>, index: nat): Buffer
    requires AllValid(items)
  {
    if items == [] then EMPTY
    else
      var last := items[|items| - 1];
      var before := Joined(items[..|items| - 1], index);
      if last.index.value == index then Extended(before, FragmentOf(last)) else before
  }

  predicate Mentions(items: seq<Item>, index: nat) {
    exists k | 0 <= k < |items| :: items[k].Item? && items[k].index == Index(index)
  }

  predicate WithinLimits(items: seq<Item>)
    requires AllValid(items)
  {
    forall i | 0 <= i < MAX_MODEL_TOOL_CALLS :: Utf8Length(Joined(items, i).arguments) <= MAX_TOOL_ARGUMENT_BYTES
  }

  lemma MentionsSnoc(items: seq<Item>, item: Item, index: nat)
    ensures Mentions(items + [item], index) <==> Mentions(items, index) || (item.Item? && item.index == Index(index))
  {
    var all := items + [item];
    if Mentions(items, index) {
      var k :| 0 <= k < |items| && items[k].Item? && items[k].index == Index(index);
      assert all[k] == items[k];
    }
    assert all[|items|] == item;
  }

  lemma {:induction false} JoinedSnoc(items: seq<Item>, item: Item, index: nat)
    requires AllValid(items) && ValidItem(item)
    ensures AllValid(items + [item])
    ensures Joined(items + [item], index)
            == if item.index.value == index then Extended(Joined(items, index), FragmentOf(item))
               else Joined(items, index)
  {
    assert (items + [item])[..|items|] == items;
  }

  lemma {:induction false} Unmentioned(items: seq<Item>, index: nat)
    requires AllValid(items) && !Mentions(items, index)
    ensures Joined(items, index) == EMPTY
  {
    if items != [] {
      var older, last := items[..|items| - 1], items[|items| - 1];
      assert items == older + [last];
      MentionsSnoc(older, last, index);
      Unmentioned(older, index);
      JoinedSnoc(older, last, index);
    }
  }

  /** A stream of items is accepted exactly when every item is well typed and no
      concatenation of arguments is too large; then the buffers are exactly the
      concatenations of the indexes mentioned. */
  lemma {:induction false} AccumulatedIs(items: seq<Item>)
    ensures AllAccumulated(items).Some? <==> AllValid(items) && WithinLimits(items)
    ensures AllAccumulated(items).Some? ==>
              forall i :: (i in AllAccumulated(items).value <==> Mentions(items, i))
                          && (i in AllAccumulated(items).value ==> AllAccumulated(items).value[i] == Joined(items, i))
  {
    if items == [] {
      NothingJoined();
    } else {
      var older, last := items[..|items| - 1], items[|items| - 1];
      assert items == older + [last];
      AccumulatedIs(older);
      ValidSnoc(older, last);
      if AllValid(items) {
        OneMore(older, last);
      }
    }
  }

  lemma NothingJoined()
    ensures AllValid([]) && WithinLimits([])
    ensures forall i :: !Mentions([], i)
  {
  }

  lemma ValidSnoc(items: seq<Item>, item: Item)
    ensures AllValid(items + [item]) <==> AllValid(items) && ValidItem(item)
  {
    var all := items + [item];
    assert all[|items|] == item;
    if AllValid(all) {
      forall k | 0 <= k < |items| ensures ValidItem(items[k]) {
        assert all[k] == items[k];
      }
    }
  }

  lemma {:induction false} LimitsSnoc(items: seq<Item>, item: Item)
    requires AllValid(items) && ValidItem(item)
    ensures AllValid(items + [item])
    ensures WithinLimits(items + [item])
            <==> WithinLimits(items)
                 && Utf8Length(Joined(items + [item], item.index.value).arguments) <= MAX_TOOL_ARGUMENT_BYTES
  {
    hide Utf8Length, Joined, FragmentOf;
    forall i ensures Joined(items + [item], i)
                     == if item.index.value == i then Extended(Joined(items, i), FragmentOf(item)) else Joined(items, i)
    {
      JoinedSnoc(items, item, i);
    }
    ValidSnoc(items, item);
    Utf8Grows(Joined(items, item.index.value).arguments, FragmentOf(item).arguments);
  }

  lemma {:induction false} OneMore(older: seq<Item>, last: Item)
    requires AllValid(older) && ValidItem(last)
    requires AllAccumulated(older).Some? <==> WithinLimits(older)
    requires AllAccumulated(older).Some? ==>
               forall i :: (i in AllAccumulated(older).value <==> Mentions(older, i))
                           && (i in AllAccumulated(older).value ==> AllAccumulated(older).value[i] == Joined(older, i))
    ensures AllValid(older + [last])
    ensures AllAccumulated(older + [last]).Some? <==> WithinLimits(older + [last])
    ensures AllAccumulated(older + [last]).Some? ==>
              forall i :: (i in AllAccumulated(older + [last]).value <==> Mentions(older + [last], i))
                          && (i in AllAccumulated(older + [last]).value ==>
                                AllAccumulated(older + [last]).value[i] == Joined(older + [last], i))
  {
    hide Utf8Length, Joined, FragmentOf, Mentions, WithinLimits;
    var items, index := older + [last], last.index.value;
    assert items[..|older|] == older && items[|older|] == last;
    LimitsSnoc(older, last);
    JoinedSnoc(older, last, index);
    if !Mentions(older, index) {
      Unmentioned(older, index);
    }
    forall i
      ensures Mentions(items, i) <==> Mentions(older, i) || i == index
      ensures i != index ==> Joined(items, i) == Joined(older, i) {
      MentionsSnoc(older, last, i);
      JoinedSnoc(older, last, i);
    }
  }

  // ---- finished calls ----

  /** One finished call, if its id, name and arguments are acceptable. */
  function Built(b: Buffer, parse: string -> Option<string>): Option<ToolCall> {
    if b.id == "" || b.name == "" || Utf8Length(b.arguments) > MAX_TOOL_ARGUMENT_BYTES
      || parse(b.arguments).None? then None
    else Some(ToolCall(b.id, b.name, parse(b.arguments).value))
  }

  predicate Contiguous(buffers: map<nat, Buffer>) {
    forall k | k in buffers :: k < |buffers|
  }

  /** The first `n` buffers in index order. */
  function BuiltUpTo(buffers: map<nat, Buffer>, parse: string -> Option<string>, n: nat): (calls: Option<seq<ToolCall>>)
    ensures calls.Some? ==> |calls.value| == n
  {
    if n == 0 then Some([])
    else
      var older, last := BuiltUpTo(buffers, parse, n - 1), Built(At(buffers, n - 1), parse);
      if older.None? || last.None? then None else Some(older.value + [last.value])
  }

  function CallIdsOf(calls: seq<ToolCall>): (ids: seq<string>)
    ensures |ids| == |calls|
    ensures forall k | 0 <= k < |calls| :: ids[k] == calls[k].id
  {
    seq(|calls|, k requires 0 <= k < |calls| => calls[k].id)
  }

  function Finalized(buffers: map<nat, Buffer>, parse: string -> Option<string>): Option<seq<ToolCall>> {
    if !Contiguous(buffers) then None
    else
      var calls := BuiltUpTo(buffers, parse, |buffers|);
      if calls.None? || !Distinct(CallIdsOf(calls.value)) then None else calls
  }

  /** A whole stream of delta items. */
  function Assembled(items: seq<Item>, parse: string -> Option<string>): Option<seq<ToolCall>> {
    if AllAccumulated(items).None? then None else Finalized(AllAccumulated(items).value, parse)
  }

  /** Two streams that mention the same indexes and concatenate to the same texts
      give the same calls in the same order, or are both rejected. */
  lemma {:induction false} FragmentationIrrelevant(a: seq<Item>, b: seq<Item>, parse: string -> Option<string>)
    requires AllValid(a) && AllValid(b)
    requires forall i :: Mentions(a, i) <==> Mentions(b, i)
    requires forall i :: Joined(a, i) == Joined(b, i)
    ensures Assembled(a, parse) == Assembled(b, parse)
  {
    hide Joined, Mentions, AllValid, Utf8Length;
    AccumulatedIs(a);
    AccumulatedIs(b);
    assert WithinLimits(a) <==> WithinLimits(b);
    if AllAccumulated(a).Some? {
      var x, y := AllAccumulated(a).value, AllAccumulated(b).value;
      assert forall i :: i in x <==> i in y;
      assert x.Keys == y.Keys;
      assert x == y;
    }
  }

  lemma {:induction false} BuiltAre(buffers: map<nat, Buffer>, parse: string -> Option<string>, n: nat)
    ensures BuiltUpTo(buffers, parse, n).Some? <==> forall k | 0 <= k < n :: Built(At(buffers, k), parse).Some?
    ensures BuiltUpTo(buffers, parse, n).Some? ==>
              forall k | 0 <= k < n :: BuiltUpTo(buffers, parse, n).value[k] == Built(At(buffers, k), parse).value
  {
    if n > 0 {
      BuiltAre(buffers, parse, n - 1);
    }
  }

  lemma FullRange(buffers: map<nat, Buffer>)
    ensures Contiguous(buffers) <==> forall k: nat :: k in buffers <==> k < |buffers|
  {
    if Contiguous(buffers) {
      assert buffers.Keys <= Range(|buffers|) && |buffers.Keys| == |buffers|;
      SameSizeSame(buffers.Keys, Range(|buffers|));
    }
  }

  function Range(n: nat): (r: set<nat>)
    ensures |r| == n && forall k: nat :: k in r <==> k < n
  {
    if n == 0 then {} else Range(n - 1) + {n - 1}
  }

  lemma SameSizeSame<T>(a: set<T>, b: set<T>)
    requires a <= b && |a| == |b|
    ensures a == b
  {
    assert b == a + (b - a);
  }

  /** Accepted calls stand at the indexes 0 to n - 1, each built from its own
      concatenation; their ids are distinct and not empty. */
  lemma {:induction false} AssembledSound(items: seq<Item>, parse: string -> Option<string>)
    requires Assembled(items, parse).Some?
    ensures var calls := Assembled(items, parse).value;
            && AllValid(items) && (forall i: nat :: Mentions(items, i) <==> i < |calls|)
            && (forall k | 0 <= k < |calls| :: Some(calls[k]) == Built(Joined(items, k), parse))
            && Distinct(CallIdsOf(calls)) && "" !in CallIdsOf(calls)
  {
    hide Joined, Mentions, AllValid, Utf8Length, WithinLimits;
    AccumulatedIs(items);
    var buffers := AllAccumulated(items).value;
    FullRange(buffers);
    BuiltAre(buffers, parse, |buffers|);
    var calls := Assembled(items, parse).value;
    forall k | 0 <= k < |calls| ensures Some(calls[k]) == Built(Joined(items, k), parse) {
      assert k in buffers;
    }
    forall k | 0 <= k < |calls| ensures CallIdsOf(calls)[k] != "" {
      assert calls[k] == Built(At(buffers, k), parse).value;
    }
  }

  // ---- the code's loops ----

  class ToolCallBuffers {
    var buffers: map<nat, Buffer>

    constructor ()
      ensures buffers == map[]
    {
      buffers := map[];
    }

    /** `_accumulate_tool_call_deltas`: adds the items of one delta, or rejects it. */
    method Accumulate(delta: Delta) returns (ok: bool)
      modifies this
      ensures delta.NotList? ==> !ok
      ensures delta.NoCalls? ==> ok && buffers == old(buffers)
      ensures delta.Calls? ==> (ok <==> Continued(old(buffers), delta.items).Some?)
      ensures ok && delta.Calls? ==> Some(buffers) == Continued(old(buffers), delta.items)
    {
      hide ValidItem, FragmentOf, Utf8Length;
      ok := !delta.NotList?;
      if delta.Calls? {
        for k := 0 to |delta.items|
          invariant ok && Some(buffers) == Continued(old(buffers), delta.items[..k])
        {
          assert delta.items[..k + 1][..k] == delta.items[..k];
          assert delta.items[..k + 1][k] == delta.items[k];
          ok := AddItem(delta.items[k]);
          if !ok {
            ContinuedNone(old(buffers), delta.items, k + 1);
            return;
          }
        }
        assert delta.items[..|delta.items|] == delta.items;
      }
    }

    method AddItem(item: Item) returns (ok: bool)
      modifies this
      ensures ok <==> Accumulated(old(buffers), item).Some?
      ensures ok ==> Some(buffers) == Accumulated(old(buffers), item)
    {
      hide Utf8Length;
      if item.NotObject? || item.index.BadIndex? || item.index.value >= MAX_MODEL_TOOL_CALLS {
        return false;
      }
      var b := At(buffers, item.index.value);
      if item.id.WrongType? {
        return false;
      }
      b := b.(id := b.id + TextOf(item.id));
      if item.kind.OtherKind? || item.function_.WrongFunction? {
        return false;
      }
      if item.function_.Function? {
        if item.function_.name.WrongType? || item.function_.arguments.WrongType? {
          return false;
        }
        b := b.(name := b.name + TextOf(item.function_.name),
          arguments := b.arguments + TextOf(item.function_.arguments));
      }
      SameFragment(At(buffers, item.index.value), item, b);
      buffers := buffers[item.index.value := b];
      ok := Utf8Length(b.arguments) <= MAX_TOOL_ARGUMENT_BYTES;
    }

    /** `_finalize_tool_call_buffers`. */
    method Finalize(parse: string -> Option<string>) returns (calls: Option<seq<ToolCall>>)
      ensures calls == Finalized(buffers, parse)
    {
      hide Built;
      var n := |buffers|;
      var contiguous := forall k | k in buffers :: k < n;
      if !contiguous {
        return None;
      }
      var made: seq<ToolCall> := [];
      for k := 0 to n
        invariant BuiltUpTo(buffers, parse, k) == Some(made)
      {
        var call := Built(At(buffers, k), parse);
        if call.None? {
          BuiltAre(buffers, parse, n);
          return None;
        }
        made := made + [call.value];
      }
      calls := if Distinct(CallIdsOf(made)) then Some(made) else None;
    }
  }

  lemma SameFragment(b: Buffer, item: Item, next: Buffer)
    requires item.Item? && next.id == b.id + TextOf(item.id)
    requires item.function_.Function? ==>
               next.name == b.name + TextOf(item.function_.name)
                 && next.arguments == b.arguments + TextOf(item.function_.arguments)
    requires !item.function_.Function? ==> next.name == b.name && next.arguments == b.arguments
    ensures next == Extended(b, FragmentOf(item))
  {
    assert b.name + "" == b.name && b.arguments + "" == b.arguments;
  }

  function Continued(buffers: map<nat, Buffer>, items: seq<Item>): Option<map<nat, Buffer>> {
    if items == [] then Some(buffers)
    else
      var before := Continued(buffers, items[..|items| - 1]);
      if before.None? then None else Accumulated(before.value, items[|items| - 1])
  }

  lemma {:induction false} ContinuedNone(buffers: map<nat, Buffer>, items: seq<Item>, n: nat)
    requires n <= |items| && Continued(buffers, items[..n]).None?
    ensures Continued(buffers, items).None?
  {
    if n == |items| {
      assert items[..n] == items;
    } else {
      var older := items[..|items| - 1];
      assert older[..n] == items[..n];
      ContinuedNone(buffers, older, n);
    }
  }

  /** One delta after another accumulates to the whole stream, wherever it is cut. */
  lemma {:induction false} DeltasJoin(first: seq<Item>, second: seq<Item>)
    ensures AllAccumulated(first + second)
            == if AllAccumulated(first).None? then None else Continued(AllAccumulated(first).value, second)
  {
    if second == [] {
      assert first + second == first;
    } else {
      var older := second[..|second| - 1];
      DeltasJoin(first, older);
      assert (first + second)[..|first + second| - 1] == first + older;
    }
  }

  // ---- the whole response at once ----

  /** One call of `_parse_tool_calls`; the delta fields carry its values. */
  function ParsedCall(item: Item, parse: string -> Option<string>): Option<ToolCall> {
    if item.NotObject? || item.kind.OtherKind? || item.kind.NullKind? then None
    else if !item.id.Given? || !item.function_.Function? then None
    else if !item.function_.name.Given? || !item.function_.arguments.Given? then None
    else Built(Buffer(item.id.text, item.function_.name.text, item.function_.arguments.text), parse)
  }

  function ParsedUpTo(items: seq<Item>, parse: string -> Option<string>): (calls: Option<seq<ToolCall>>)
    ensures calls.Some? ==> |calls.value| == |items|
  {
    if items == [] then Some([])
    else
      var older := ParsedUpTo(items[..|items| - 1], parse);
      var last := ParsedCall(items[|items| - 1], parse);
      if older.None? || last.None? || last.value.id in CallIdsOf(older.value) then None
      else Some(older.value + [last.value])
  }

  function Parsed(items: seq<Item>, parse: string -> Option<string>): Option<seq<ToolCall>> {
    if |items| > MAX_MODEL_TOOL_CALLS then None else ParsedUpTo(items, parse)
  }

  /** The loop of `_parse_tool_calls`. */
  method ParseToolCalls(items: seq<Item>, parse: string -> Option<string>) returns (calls: Option<seq<ToolCall>>)
    ensures calls == Parsed(items, parse)
    ensures calls.Some? ==> Distinct(CallIdsOf(calls.value)) && "" !in CallIdsOf(calls.value)
  {
    hide ParsedCall;
    if |items| > MAX_MODEL_TOOL_CALLS {
      return None;
    }
    var made: seq<ToolCall> := [];
    var seen: set<string> := {};
    for k := 0 to |items|
      invariant ParsedUpTo(items[..k], parse) == Some(made)
      invariant forall id :: id in seen <==> id in CallIdsOf(made)
    {
      assert items[..k + 1][..k] == items[..k];
      var call := ParsedCall(items[k], parse);
      if call.None? || call.value.id in seen {
        ParsedNone(items, k + 1, parse);
        return None;
      }
      assert CallIdsOf(made + [call.value]) == CallIdsOf(made) + [call.value.id];
      made, seen := made + [call.value], seen + {call.value.id};
    }
    assert items[..|items|] == items;
    ParsedSound(items, parse);
    calls := Some(made);
  }

  lemma {:induction false} ParsedNone(items: seq<Item>, n: nat, parse: string -> Option<string>)
    requires n <= |items| && ParsedUpTo(items[..n], parse).None?
    ensures ParsedUpTo(items, parse).None?
  {
    if n == |items| {
      assert items[..n] == items;
    } else {
      var older := items[..|items| - 1];
      assert older[..n] == items[..n];
      ParsedNone(older, n, parse);
    }
  }

  lemma {:induction false} ParsedSound(items: seq<Item>, parse: string -> Option<string>)
    requires ParsedUpTo(items, parse).Some?
    ensures Distinct(CallIdsOf(ParsedUpTo(items, parse).value)) && "" !in CallIdsOf(ParsedUpTo(items, parse).value)
  {
    if items != [] {
      ParsedSound(items[..|items| - 1], parse);
    }
  }

  lemma {:induction false} ParsedEach(items: seq<Item>, parse: string -> Option<string>)
    requires ParsedUpTo(items, parse).Some?
    ensures forall k | 0 <= k < |items| :: ParsedCall(items[k], parse) == Some(ParsedUpTo(items, parse).value[k])
  {
    hide ParsedCall;
    if items != [] {
      ParsedEach(items[..|items| - 1], parse);
    }
  }

  lemma {:induction false} ParsedWhen(items: seq<Item>, calls: seq<ToolCall>, parse: string -> Option<string>)
    requires |calls| == |items| && Distinct(CallIdsOf(calls))
    requires forall k | 0 <= k < |items| :: ParsedCall(items[k], parse) == Some(calls[k])
    ensures ParsedUpTo(items, parse) == Some(calls)
  {
    hide ParsedCall;
    if items != [] {
      var n := |items| - 1;
      forall k | 0 <= k < n ensures CallIdsOf(calls[..n])[k] == CallIdsOf(calls)[k] {}
      ParsedWhen(items[..n], calls[..n], parse);
      assert calls == calls[..n] + [calls[n]] && CallIdsOf(calls)[n] == calls[n].id;
    }
  }

  /** The calls of a response are these exactly when each is well formed by itself
      and no two share an id. */
  lemma {:induction false} ParsedIff(items: seq<Item>, calls: seq<ToolCall>, parse: string -> Option<string>)
    ensures ParsedUpTo(items, parse) == Some(calls) <==>
              && |calls| == |items| && Distinct(CallIdsOf(calls))
              && forall k | 0 <= k < |items| :: ParsedCall(items[k], parse) == Some(calls[k])
  {
    hide ParsedUpTo, ParsedCall;
    if ParsedUpTo(items, parse) == Some(calls) {
      ParsedEach(items, parse);
      ParsedSound(items, parse);
    }
    if |calls| == |items| && Distinct(CallIdsOf(calls)) {
      if forall k | 0 <= k < |items| :: ParsedCall(items[k], parse) == Some(calls[k]) {
        ParsedWhen(items, calls, parse);
      }
    }
  }

  /** The same calls sent as one delta item each. */
  function Numbered(items: seq<Item>): (out: seq<Item>)
    ensures |out| == |items|
    ensures forall k | 0 <= k < |items| :: out[k] == if items[k].Item? then items[k].(index := Index(k)) else NotObject
  {
    seq(|items|, k requires 0 <= k < |items| => if items[k].Item? then items[k].(index := Index(k)) else NotObject)
  }

  lemma NumberedMentions(items: seq<Item>, i: nat)
    requires AllValid(Numbered(items))
    ensures Mentions(Numbered(items), i) <==> i < |items|
  {
    if i < |items| {
      assert ValidItem(Numbered(items)[i]) && Numbered(items)[i].index == Index(i);
    }
  }

  lemma {:induction false} NumberedJoined(items: seq<Item>, i: nat)
    requires AllValid(Numbered(items)) && i < |items|
    ensures Joined(Numbered(items), i) == FragmentOf(Numbered(items)[i])
  {
    var all, n := Numbered(items), |items| - 1;
    var older := Numbered(items[..n]);
    assert all[..n] == older && all == older + [all[n]];
    ValidSnoc(older, all[n]);
    assert ValidItem(all[n]) && items[n].Item? && all[n].index == Index(n);
    hide Joined, FragmentOf, Mentions;
    JoinedSnoc(older, all[n], i);
    if i == n {
      NumberedMentions(items[..n], n);
      Unmentioned(older, n);
      ExtendedEmpty(FragmentOf(all[n]));
    } else {
      NumberedJoined(items[..n], i);
    }
  }

  lemma ExtendedEmpty(f: Buffer)
    ensures Extended(EMPTY, f) == f
  {
    assert "" + f.id == f.id && "" + f.name == f.name && "" + f.arguments == f.arguments;
  }

  /** A parsed response is accepted as a stream of whole calls too, with the same
      calls in the same order. */
  lemma ParsedStreams(items: seq<Item>, parse: string -> Option<string>)
    requires Parsed(items, parse).Some?
    ensures Assembled(Numbered(items), parse) == Parsed(items, parse)
  {
    hide Joined, Mentions, Utf8Length, ParsedUpTo;
    var stream, calls := Numbered(items), Parsed(items, parse).value;
    ParsedEach(items, parse);
    ParsedSound(items, parse);
    forall k | 0 <= k < |items| ensures ValidItem(stream[k]) && Built(FragmentOf(stream[k]), parse) == Some(calls[k]) {
      assert ParsedCall(items[k], parse) == Some(calls[k]);
    }
    AccumulatedIs(stream);
    forall i: nat ensures Mentions(stream, i) <==> i < |items| {
      NumberedMentions(items, i);
    }
    forall i: nat | i < |items| ensures Joined(stream, i) == FragmentOf(stream[i]) {
      NumberedJoined(items, i);
    }
    WholeCalls(items, stream, calls, parse);
  }

  lemma {:induction false} WholeCallsFit(items: seq<Item>, stream: seq<Item>, calls: seq<ToolCall>,
      parse: string -> Option<string>)
    requires |stream| == |items| == |calls| <= MAX_MODEL_TOOL_CALLS && AllValid(stream)
    requires forall k | 0 <= k < |items| ::
             ValidItem(stream[k]) && Built(FragmentOf(stream[k]), parse) == Some(calls[k])
    requires forall i: nat :: Mentions(stream, i) <==> i < |items|
    requires forall i: nat | i < |items| :: Joined(stream, i) == FragmentOf(stream[i])
    ensures WithinLimits(stream)
  {
    hide Joined, Mentions, Utf8Length, FragmentOf, AllValid;
    forall i | 0 <= i < MAX_MODEL_TOOL_CALLS
      ensures Utf8Length(Joined(stream, i).arguments) <= MAX_TOOL_ARGUMENT_BYTES {
      if i < |items| {
        assert ValidItem(stream[i]) && Built(FragmentOf(stream[i]), parse) == Some(calls[i]);
      } else {
        Unmentioned(stream, i);
        EmptyFits();
      }
    }
  }

  lemma {:induction false} WholeCalls(items: seq<Item>, stream: seq<Item>, calls: seq<ToolCall>,
      parse: string -> Option<string>)
    requires |stream| == |items| == |calls| <= MAX_MODEL_TOOL_CALLS && AllValid(stream)
    requires forall k | 0 <= k < |items| ::
             ValidItem(stream[k]) && Built(FragmentOf(stream[k]), parse) == Some(calls[k])
    requires forall i: nat :: Mentions(stream, i) <==> i < |items|
    requires forall i: nat | i < |items| :: Joined(stream, i) == FragmentOf(stream[i])
    requires AllAccumulated(stream).Some? <==> WithinLimits(stream)
    requires AllAccumulated(stream).Some? ==>
               forall i :: (i in AllAccumulated(stream).value <==> Mentions(stream, i))
                           && (i in AllAccumulated(stream).value
                              ==> AllAccumulated(stream).value[i] == Joined(stream, i))
    requires Distinct(CallIdsOf(calls))
    ensures Assembled(stream, parse) == Some(calls)
  {
    hide Joined, Mentions, Utf8Length, FragmentOf, AllAccumulated, WithinLimits, Finalized, Built;
    WholeCallsFit(items, stream, calls, parse);
    var buffers := AllAccumulated(stream).value;
    forall k: nat
      ensures (k in buffers <==> k < |items|) && (k < |items| ==> Built(At(buffers, k), parse) == Some(calls[k])) {
      if k < |items| {
        assert ValidItem(stream[k]) && Built(FragmentOf(stream[k]), parse) == Some(calls[k]);
      }
    }
    FinalizedAs(buffers, calls, parse);
  }

  lemma FinalizedAs(buffers: map<nat, Buffer>, calls: seq<ToolCall>, parse: string -> Option<string>)
    requires Distinct(CallIdsOf(calls)) && forall k: nat :: k in buffers <==> k < |calls|
    requires forall k | 0 <= k < |calls| :: Built(At(buffers, k), parse) == Some(calls[k])
    ensures Finalized(buffers, parse) == Some(calls)
  {
    hide Built, At;
    assert buffers.Keys == Range(|calls|);
    assert |buffers| == |calls|;
    BuiltAre(buffers, parse, |calls|);
    assert BuiltUpTo(buffers, parse, |calls|).value == calls;
  }

  lemma EmptyFits()
    ensures Utf8Length(EMPTY.arguments) <= MAX_TOOL_ARGUMENT_BYTES
  {
  }
}
