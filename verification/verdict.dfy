/**
 The JSON path's verdict on a finished completion (validateJSONCompletion in
 internal/server/responses.go), and its agreement with the streaming path.
 */
module Verdicts {
  import opened Wrappers
  import opened ResponseEvents
  import opened ToolPolicy
  import opened ResponsesStream
  import opened ResponsesInvariant
  import opened ResponsesSteps
  import opened ResponsesFinish

  // ---- The JSON path ----

  /** arguments is None when it is missing or not a string. */
  datatype JsonCall = JsonCall(name: string, arguments: Option<string>)

  datatype CallsField = NoCalls | CallsMalformed | Calls(calls: seq<JsonCall>)

  datatype FunctionField = FunctionMissing | FunctionMalformed | FunctionCall(call: JsonCall)

  datatype Message = Message(content: string, refusal: string, tools: CallsField, legacy: FunctionField)

  function TextOf(arguments: Option<string>): string {
    if arguments.Some? then arguments.value else ""
  }

  function ModernCalls(m: Message): seq<JsonCall> {
    if m.tools.Calls? then m.tools.calls else []
  }

  function LegacyCalls(m: Message): seq<JsonCall> {
    if m.legacy.FunctionCall? && !(m.legacy.call.name == "" && TextOf(m.legacy.call.arguments) == "") then [m.legacy.call] else []
  }

  function ToolCalls(m: Message): seq<JsonCall> {
    if ModernCalls(m) != [] then ModernCalls(m) else LegacyCalls(m)
  }

  function JsonInvocations(calls: seq<JsonCall>): (r: seq<Invocation>)
    ensures |r| == |calls|
  {
    seq(|calls|, i requires 0 <= i < |calls| => Invocation(calls[i].name, TextOf(calls[i].arguments)))
  }

  predicate AllJsonValid(contract: Contract, calls: seq<JsonCall>) {
    forall i :: 0 <= i < |calls| ==> CallValid(contract, calls[i].name, TextOf(calls[i].arguments), calls[i].arguments.Some?)
  }

  function ValidateJson(contract: Contract, finishReason: string, m: Message): Option<string> {
    var calls := ToolCalls(m);
    if CutShort(finishReason) then None
    else if m.tools.CallsMalformed? then Some("upstream tool_calls must be an array")
    else if m.legacy.FunctionMalformed? then Some("upstream function_call must be an object")
    else if ModernCalls(m) != [] && LegacyCalls(m) != [] then Some("upstream mixed legacy and modern tool calls")
    else if ToolFinish(finishReason) && calls == [] then Some("upstream ended with a tool finish reason but no tool call")
    else if contract.forbidParallel && |calls| > 1 then Some("model returned parallel tool calls")
    else if !AllJsonValid(contract, calls) then Some("invalid tool call")
    else if !PolicyAccepts(contract.policy, JsonInvocations(calls), m.refusal != "") then Some("tool contract violation")
    else if calls != [] || m.refusal != "" then None
    else if contract.outputAccepts(m.content) then None
    else Some("response format violation")
  }

  // ---- Folding a stream of deltas back into a message ----

  /** The delta of a single choice whose calls, modern or legacy, are objects with string arguments. */
  predicate Benign(choice: Choice) {
    && choice.Choice? && choice.first
    && (choice.delta.Some? ==>
          && !choice.delta.value.legacy.NotAFunction?
          && (choice.delta.value.legacy.Legacy? ==> !choice.delta.value.legacy.fn.arguments.NotAString?)
          && !choice.delta.value.tools.NotAnArray?
          && (choice.delta.value.tools.Tools? ==> BenignItems(choice.delta.value.tools.items)))
  }

  predicate BenignItems(items: seq<ToolItem>) {
    forall i :: 0 <= i < |items| ==> BenignItem(items[i])
  }

  predicate BenignItem(item: ToolItem) {
    item.ToolDelta? && (item.fn.Some? ==> !item.fn.value.arguments.NotAString?)
  }

  function ItemsOf(choice: Choice): seq<ToolItem> {
    if choice.Choice? && choice.delta.Some? && choice.delta.value.tools.Tools? then choice.delta.value.tools.items else []
  }

  function Fragments(choices: seq<Choice>): seq<ToolItem> {
    if choices == [] then [] else Fragments(choices[..|choices| - 1]) + ItemsOf(choices[|choices| - 1])
  }

  /** A placeholder that names nothing and brings no argument text. */
  predicate EmptyFunction(f: FunctionDelta) {
    f.name == "" && !(f.arguments.Arguments? && f.arguments.text != "")
  }

  /** The deltas of the legacy call; placeholders before it begins do not count. */
  function LegacyOf(choices: seq<Choice>): seq<FunctionDelta> {
    if choices == [] then []
    else
      var before, last := LegacyOf(choices[..|choices| - 1]), choices[|choices| - 1];
      if last.Choice? && last.delta.Some? && last.delta.value.legacy.Legacy? && !(before == [] && EmptyFunction(last.delta.value.legacy.fn))
      then before + [last.delta.value.legacy.fn] else before
  }

  const LEGACY_KEY := -1

  /** The legacy call as fragments of one more call, under the first generated id. */
  function LegacyItem(f: FunctionDelta): ToolItem {
    ToolDelta(LEGACY_KEY, Generated(0), Some(f))
  }

  function LegacyItems(fs: seq<FunctionDelta>): (r: seq<ToolItem>)
    ensures |r| == |fs|
  {
    seq(|fs|, i requires 0 <= i < |fs| => LegacyItem(fs[i]))
  }

  predicate Unmixed(choices: seq<Choice>) {
    Fragments(choices) == [] || LegacyOf(choices) == []
  }

  /** All fragments of a completion that uses one of the two forms. */
  function ItemsIn(choices: seq<Choice>): seq<ToolItem> {
    Fragments(choices) + LegacyItems(LegacyOf(choices))
  }

  function ContentOf(choices: seq<Choice>): string {
    if choices == [] then ""
    else
      var last := choices[|choices| - 1];
      ContentOf(choices[..|choices| - 1]) + if last.Choice? && last.delta.Some? then last.delta.value.content else ""
  }

  function RefusalOf(choices: seq<Choice>): string {
    if choices == [] then ""
    else
      var last := choices[|choices| - 1];
      RefusalOf(choices[..|choices| - 1]) + if last.Choice? && last.delta.Some? then last.delta.value.refusal else ""
  }

  function FinishOf(choices: seq<Choice>): string {
    if choices == [] then ""
    else
      var last := choices[|choices| - 1];
      if last.Choice? && last.finishReason != "" then last.finishReason else FinishOf(choices[..|choices| - 1])
  }

  /** Call keys in order of first appearance. */
  function KeysOf(items: seq<ToolItem>): seq<int> {
    if items == [] then []
    else
      var keys, last := KeysOf(items[..|items| - 1]), items[|items| - 1];
      if last.ToolDelta? && last.key !in keys then keys + [last.key] else keys
  }

  function NameIn(item: ToolItem, key: int): string {
    if item.ToolDelta? && item.key == key && item.fn.Some? then item.fn.value.name else ""
  }

  function IdIn(item: ToolItem, key: int): CallId {
    if item.ToolDelta? && item.key == key then item.id else NoId
  }

  function ArgumentsIn(item: ToolItem, key: int): Option<string> {
    if item.ToolDelta? && item.key == key && item.fn.Some? && item.fn.value.arguments.Arguments?
    then Some(item.fn.value.arguments.text) else None
  }

  function NameOf(items: seq<ToolItem>, key: int): string {
    if items == [] then ""
    else
      var last := NameIn(items[|items| - 1], key);
      if last != "" then last else NameOf(items[..|items| - 1], key)
  }

  function IdOf(items: seq<ToolItem>, key: int): CallId {
    if items == [] then NoId
    else
      var last := IdIn(items[|items| - 1], key);
      if last != NoId then last else IdOf(items[..|items| - 1], key)
  }

  function ArgumentsOfKey(items: seq<ToolItem>, key: int): Option<string> {
    if items == [] then None
    else
      var before, last := ArgumentsOfKey(items[..|items| - 1], key), ArgumentsIn(items[|items| - 1], key);
      if last.None? then before else Some(TextOf(before) + last.value)
  }

  /** No fragment contradicts the name or the id its call already has. */
  predicate Stable(items: seq<ToolItem>) {
    items == [] ||
    (var before, last := items[..|items| - 1], items[|items| - 1];
     && Stable(before)
     && (last.ToolDelta? ==> Agrees(before, last)))
  }

  predicate Agrees(before: seq<ToolItem>, item: ToolItem)
    requires item.ToolDelta?
  {
    && (NameIn(item, item.key) != "" && NameOf(before, item.key) != "" ==> NameIn(item, item.key) == NameOf(before, item.key))
    && (item.id != NoId && IdOf(before, item.key) != NoId ==> item.id == IdOf(before, item.key))
  }

  /** The aggregation lists modern calls by index, however they were interleaved. */
  function InsertKey(keys: seq<int>, key: int): seq<int> {
    if keys == [] || keys[|keys| - 1] <= key then keys + [key]
    else InsertKey(keys[..|keys| - 1], key) + [keys[|keys| - 1]]
  }

  function SortKeys(keys: seq<int>): seq<int> {
    if keys == [] then [] else InsertKey(SortKeys(keys[..|keys| - 1]), keys[|keys| - 1])
  }

  function FoldedCall(items: seq<ToolItem>, key: int): JsonCall {
    JsonCall(NameOf(items, key), ArgumentsOfKey(items, key))
  }

  function FoldedCalls(items: seq<ToolItem>, keys: seq<int>): (r: seq<JsonCall>)
    ensures |r| == |keys|
  {
    seq(|keys|, j requires 0 <= j < |keys| => FoldedCall(items, keys[j]))
  }

  function Fold(choices: seq<Choice>): Message {
    var items, legacy := Fragments(choices), LegacyItems(LegacyOf(choices));
    Message(ContentOf(choices), RefusalOf(choices),
            Calls(FoldedCalls(items, SortKeys(KeysOf(items)))),
            if legacy == [] then FunctionMissing else FunctionCall(FoldedCall(legacy, LEGACY_KEY)))
  }

  /** The aggregation reports a finish reason even where the stream gave none. */
  function FoldedFinish(choices: seq<Choice>): string {
    if FinishOf(choices) == "" then "stop" else FinishOf(choices)
  }

  // ---- The writer mirrors the fold ----

  predicate MirrorsCall(items: seq<ToolItem>, key: int, call: Call) {
    && call.key == key
    && call.name == NameOf(items, key)
    && call.id == IdOf(items, key)
    && call.arguments == TextOf(ArgumentsOfKey(items, key))
    && call.argumentsSeen == ArgumentsOfKey(items, key).Some?
  }

  predicate Mirrors(w: Writer, items: seq<ToolItem>) {
    && w.error.None?
    && |w.calls| == |KeysOf(items)|
    && forall j :: 0 <= j < |w.calls| ==> MirrorsCall(items, KeysOf(items)[j], w.calls[j])
  }

  lemma {:induction false} KeysDistinct(items: seq<ToolItem>)
    ensures forall i, j :: 0 <= i < j < |KeysOf(items)| ==> KeysOf(items)[i] != KeysOf(items)[j]
  {
    if items != [] {
      KeysDistinct(items[..|items| - 1]);
    }
  }

  lemma {:induction false} UnknownKey(items: seq<ToolItem>, key: int)
    requires key !in KeysOf(items)
    ensures NameOf(items, key) == "" && IdOf(items, key) == NoId && ArgumentsOfKey(items, key) == None
  {
    if items != [] {
      UnknownKey(items[..|items| - 1], key);
    }
  }

  lemma FoldAppend(items: seq<ToolItem>, item: ToolItem, key: int)
    ensures var all := items + [item];
            && NameOf(all, key) == (if NameIn(item, key) != "" then NameIn(item, key) else NameOf(items, key))
            && IdOf(all, key) == (if IdIn(item, key) != NoId then IdIn(item, key) else IdOf(items, key))
            && ArgumentsOfKey(all, key) == (if ArgumentsIn(item, key).None? then ArgumentsOfKey(items, key)
                                           else Some(TextOf(ArgumentsOfKey(items, key)) + ArgumentsIn(item, key).value))
            && KeysOf(all) == (if item.ToolDelta? && item.key !in KeysOf(items) then KeysOf(items) + [item.key] else KeysOf(items))
  {
    assert (items + [item])[..|items|] == items;
  }

  /** A new call knows nothing, exactly like a key without fragments. */
  lemma NewCallMirrors(w: Writer, items: seq<ToolItem>, key: int)
    requires Mirrors(w, items)
    ensures var w1 := NewCall(w, key);
            && w1.error.None?
            && |w1.calls| == |w.calls| + Count(key !in KeysOf(items))
            && (forall j :: 0 <= j < |w.calls| ==> w1.calls[j] == w.calls[j])
            && FindCall(w1.calls, key) < |w1.calls|
            && (forall j :: 0 <= j < |w1.calls| ==> MirrorsCall(items, w1.calls[j].key, w1.calls[j]))
            && (forall j :: 0 <= j < |w1.calls| && j != FindCall(w1.calls, key) ==> w1.calls[j].key != key)
            && (key !in KeysOf(items) ==> FindCall(w1.calls, key) == |w.calls|)
  {
    var keys := KeysOf(items);
    NewCallFound(w, key);
    KeysDistinct(items);
    assert forall j :: 0 <= j < |w.calls| ==> MirrorsCall(items, keys[j], w.calls[j]);
    if FindCall(w.calls, key) == |w.calls| {
      FindMiss(w.calls, key);
      assert key !in keys;
      UnknownKey(items, key);
    } else {
      assert keys[FindCall(w.calls, key)] == key;
    }
    hide NameOf, IdOf, ArgumentsOfKey, KeysOf;
  }

  /** What a benign fragment that agrees with the past does to its own call. */
  function Identify(call: Call, id: CallId): Call {
    if id != NoId then call.(id := id) else call
  }

  function AbsorbFunction(contract: Contract, call: Call, f: FunctionDelta): Call {
    var known := if f.name == "" then call else call.(name := f.name, custom := f.name in contract.customTools);
    if f.arguments.Arguments? then known.(argumentsSeen := true, arguments := known.arguments + f.arguments.text) else known
  }

  function Absorbed(contract: Contract, call: Call, item: ToolItem): Call
    requires item.ToolDelta?
  {
    if item.fn.None? then Identify(call, item.id) else AbsorbFunction(contract, Identify(call, item.id), item.fn.value)
  }

  lemma ApplyFunctionAbsorbs(contract: Contract, w: Writer, i: nat, f: FunctionDelta)
    requires i < |w.calls| && !f.arguments.NotAString?
    requires f.name != "" && w.calls[i].name != "" ==> f.name == w.calls[i].name
    ensures ApplyFunction(contract, w, i, f) == SetCall(w, i, AbsorbFunction(contract, w.calls[i], f))
  {
  }

  lemma ApplyItemCases(contract: Contract, w: Writer, item: ToolItem)
    requires item.ToolDelta?
    requires var w1 := NewCall(w, item.key);
             var i := FindCall(w1.calls, item.key);
             i < |w1.calls| && (item.id != NoId && w1.calls[i].id != NoId ==> w1.calls[i].id == item.id)
    ensures var w1 := NewCall(w, item.key);
            var i := FindCall(w1.calls, item.key);
            var w2 := SetCall(w1, i, Identify(w1.calls[i], item.id));
            ApplyItem(contract, w, item) == if item.fn.None? then w2 else ApplyFunction(contract, w2, i, item.fn.value)
  {
    hide NewCall, FindCall, ApplyFunction;
    var w1 := NewCall(w, item.key);
    var i := FindCall(w1.calls, item.key);
    assert w1.calls[i := w1.calls[i]] == w1.calls;
  }

  lemma MirrorAgrees(items: seq<ToolItem>, item: ToolItem, call: Call)
    requires item.ToolDelta? && MirrorsCall(items, item.key, call) && Agrees(items, item)
    ensures item.id != NoId && call.id != NoId ==> call.id == item.id
    ensures item.fn.Some? && item.fn.value.name != "" && call.name != "" ==> item.fn.value.name == call.name
  {
    hide NameOf, IdOf, ArgumentsOfKey;
  }

  lemma ApplyItemAbsorbs(contract: Contract, w: Writer, items: seq<ToolItem>, item: ToolItem)
    requires Mirrors(w, items) && BenignItem(item) && Agrees(items, item)
    ensures var w1 := NewCall(w, item.key);
            var i := FindCall(w1.calls, item.key);
            && i < |w1.calls|
            && ApplyItem(contract, w, item) == SetCall(w1, i, Absorbed(contract, w1.calls[i], item))
  {
    NewCallMirrors(w, items, item.key);
    var w1 := NewCall(w, item.key);
    var i := FindCall(w1.calls, item.key);
    hide NewCall, FindCall, Mirrors, ApplyFunction, NameCall, AbsorbFunction, Agrees, MirrorsCall, ApplyItem;
    assert MirrorsCall(items, w1.calls[i].key, w1.calls[i]);
    MirrorAgrees(items, item, w1.calls[i]);
    ApplyItemCases(contract, w, item);
    if item.fn.Some? {
      ApplyFunctionAbsorbs(contract, SetCall(w1, i, Identify(w1.calls[i], item.id)), i, item.fn.value);
      SetTwice(w1, i, Identify(w1.calls[i], item.id), Absorbed(contract, w1.calls[i], item));
    }
  }

  lemma SetTwice(w: Writer, i: nat, call: Call, later: Call)
    requires i < |w.calls|
    ensures SetCall(SetCall(w, i, call), i, later) == SetCall(w, i, later)
  {
    assert w.calls[i := call][i := later] == w.calls[i := later];
  }

  lemma AbsorbedMirrors(contract: Contract, items: seq<ToolItem>, item: ToolItem, call: Call)
    requires BenignItem(item) && MirrorsCall(items, item.key, call)
    ensures MirrorsCall(items + [item], item.key, Absorbed(contract, call, item))
  {
    FoldAppend(items, item, item.key);
    hide NameOf, IdOf, ArgumentsOfKey, KeysOf;
  }

  lemma OtherMirrors(items: seq<ToolItem>, item: ToolItem, key: int, call: Call)
    requires MirrorsCall(items, key, call) && item.ToolDelta? && item.key != key
    ensures MirrorsCall(items + [item], key, call)
  {
    FoldAppend(items, item, key);
    hide NameOf, IdOf, ArgumentsOfKey, KeysOf;
  }

  lemma ApplyItemMirrors(contract: Contract, w: Writer, items: seq<ToolItem>, item: ToolItem)
    requires Mirrors(w, items) && BenignItem(item) && Agrees(items, item)
    ensures Mirrors(ApplyItem(contract, w, item), items + [item])
  {
    ApplyItemAbsorbs(contract, w, items, item);
    NewCallMirrors(w, items, item.key);
    FoldAppend(items, item, item.key);
    var w1, w' := NewCall(w, item.key), ApplyItem(contract, w, item);
    var i := FindCall(w1.calls, item.key);
    var keys := KeysOf(items + [item]);
    assert forall j :: 0 <= j < |w.calls| ==> w.calls[j].key == KeysOf(items)[j];
    hide NameOf, IdOf, ArgumentsOfKey, KeysOf, NewCall, FindCall, ApplyItem, Absorbed, Mirrors, Agrees;
    forall j | 0 <= j < |w'.calls|
      ensures MirrorsCall(items + [item], keys[j], w'.calls[j])
    {
      assert MirrorsCall(items, w1.calls[j].key, w1.calls[j]);
      if j == i {
        AbsorbedMirrors(contract, items, item, w1.calls[i]);
      } else {
        OtherMirrors(items, item, w1.calls[j].key, w1.calls[j]);
      }
    }
    assert w'.error.None? && |w'.calls| == |keys|;
    MirrorsIntro(w', items + [item]);
  }

  lemma MirrorsIntro(w: Writer, items: seq<ToolItem>)
    requires w.error.None? && |w.calls| == |KeysOf(items)|
    requires forall j :: 0 <= j < |w.calls| ==> MirrorsCall(items, KeysOf(items)[j], w.calls[j])
    ensures Mirrors(w, items)
  {
  }

  lemma {:induction false} StablePrefix(items: seq<ToolItem>, n: nat)
    requires Stable(items) && n <= |items|
    ensures Stable(items[..n])
    decreases |items|
  {
    if n < |items| {
      StablePrefix(items[..|items| - 1], n);
      assert items[..|items| - 1][..n] == items[..n];
    } else {
      assert items[..n] == items;
    }
  }

  lemma {:induction false} ApplyItemsMirrors(contract: Contract, w: Writer, items: seq<ToolItem>, more: seq<ToolItem>)
    requires Mirrors(w, items) && BenignItems(more) && Stable(items + more)
    ensures Mirrors(ApplyItems(contract, w, more), items + more)
    ensures SameButCalls(w, ApplyItems(contract, w, more))
    decreases |more|
  {
    hide Mirrors, ApplyItem, Agrees, BenignItem;
    if more == [] {
      assert items + more == items;
    } else {
      var item := more[0];
      StableNext(items, more);
      ApplyItemMirrors(contract, w, items, item);
      ApplyItemFields(contract, w, items, item);
      MirrorsClean(w, items);
      hide Stable;
      assert items + [item] + more[1..] == items + more;
      ApplyItemsMirrors(contract, ApplyItem(contract, w, item), items + [item], more[1..]);
    }
  }

  lemma StableNext(items: seq<ToolItem>, more: seq<ToolItem>)
    requires more != [] && BenignItem(more[0]) && Stable(items + more)
    ensures Agrees(items, more[0])
  {
    hide Agrees;
    StablePrefix(items + more, |items| + 1);
    assert (items + more)[..|items| + 1] == items + [more[0]];
    assert (items + [more[0]])[..|items|] == items;
  }

  lemma MirrorsClean(w: Writer, items: seq<ToolItem>)
    requires Mirrors(w, items)
    ensures w.error.None?
  {
  }

  /** Nothing but calls, output indices, log and error state moves. */
  predicate SameButCalls(w: Writer, w': Writer) {
    && w'.sawDone == w.sawDone && w'.finishReason == w.finishReason && w'.text == w.text && w'.refusal == w.refusal
    && w'.legacyId == w.legacyId && w'.minted == w.minted
  }

  lemma ApplyItemFields(contract: Contract, w: Writer, items: seq<ToolItem>, item: ToolItem)
    requires Mirrors(w, items) && BenignItem(item) && Agrees(items, item)
    ensures SameButCalls(w, ApplyItem(contract, w, item))
  {
    ApplyItemAbsorbs(contract, w, items, item);
    hide FindCall, ApplyItem, Absorbed, Mirrors;
  }

  // ---- Flushing and speaking leave the content alone ----

  predicate SameIdentity(before: Call, after: Call) {
    SameContent(before, after) && after.key == before.key && after.id == before.id
  }

  predicate SameMirror(w: Writer, w': Writer) {
    && w'.error == w.error
    && SameButCalls(w, w')
    && |w'.calls| == |w.calls|
    && forall j :: 0 <= j < |w.calls| ==> SameIdentity(w.calls[j], w'.calls[j])
  }

  lemma SameMirrorChain(w: Writer, w': Writer, w'': Writer)
    requires SameMirror(w, w') && SameMirror(w', w'')
    ensures SameMirror(w, w'')
  {
    forall j | 0 <= j < |w.calls|
      ensures SameIdentity(w.calls[j], w''.calls[j])
    {
      assert SameIdentity(w.calls[j], w'.calls[j]) && SameIdentity(w'.calls[j], w''.calls[j]);
    }
  }

  lemma FlushOneMirror(w: Writer, i: nat)
    requires i < |w.calls|
    ensures SameMirror(w, FlushOne(w, i))
  {
    var w1 := if w.calls[i].live then w else OpenCall(w, i);
    assert SameMirror(w, w1);
    assert SameMirror(w1, SendArguments(w1, i));
    hide OpenCall, SendArguments;
    SameMirrorChain(w, w1, FlushOne(w, i));
  }

  lemma {:induction false} FlushFromMirror(w: Writer, i: nat)
    ensures SameMirror(w, FlushFrom(w, i))
    decreases |w.calls| - i
  {
    hide FlushOne;
    if i < |w.calls| && (w.calls[i].live || Ready(w.calls[i])) {
      FlushOneMirror(w, i);
      FlushFromMirror(FlushOne(w, i), i + 1);
      SameMirrorChain(w, FlushOne(w, i), FlushFrom(w, i));
    }
  }

  lemma MirrorsSame(w: Writer, w': Writer, items: seq<ToolItem>)
    requires Mirrors(w, items) && SameMirror(w, w')
    ensures Mirrors(w', items)
  {
    hide NameOf, IdOf, ArgumentsOfKey, KeysOf;
    forall j | 0 <= j < |w'.calls|
      ensures MirrorsCall(items, KeysOf(items)[j], w'.calls[j])
    {
      assert MirrorsCall(items, KeysOf(items)[j], w.calls[j]) && SameIdentity(w.calls[j], w'.calls[j]);
    }
  }

  lemma ToolCallDeltaMirrors(contract: Contract, w: Writer, items: seq<ToolItem>, more: seq<ToolItem>)
    requires Mirrors(w, items) && BenignItems(more) && Stable(items + more)
    ensures Mirrors(ToolCallDelta(contract, w, more), items + more)
    ensures SameButCalls(w, ToolCallDelta(contract, w, more))
  {
    ApplyItemsMirrors(contract, w, items, more);
    var w1 := ApplyItems(contract, w, more);
    hide Mirrors, ApplyItems, FlushFrom, BenignItems, Stable;
    FlushFromMirror(w1, 0);
    MirrorsClean(w1, items + more);
    MirrorsSame(w1, FlushFrom(w1, 0), items + more);
  }

  lemma SpokenFields(w: Writer, d: ChoiceDelta)
    ensures var w' := Spoken(w, d);
            && w'.calls == w.calls && w'.error == w.error && w'.legacyId == w.legacyId && w'.minted == w.minted
            && w'.sawDone == w.sawDone && w'.finishReason == w.finishReason
            && w'.text == w.text + d.content && w'.refusal == w.refusal + d.refusal
  {
    var w1 := if d.reasoning != "" then ReasoningDelta(w, d.reasoning) else w;
    var w2 := if d.content != "" then TextDelta(w1, OutputText, d.content) else w1;
    ReasoningLeaves(w, d.reasoning);
    TextLeaves(w1, OutputText, d.content);
    TextLeaves(w2, Refusal, d.refusal);
    hide ReasoningDelta, TextDelta;
  }

  predicate Leaves(w: Writer, w': Writer) {
    && w'.calls == w.calls && w'.error == w.error && w'.legacyId == w.legacyId && w'.minted == w.minted
    && w'.sawDone == w.sawDone && w'.finishReason == w.finishReason
  }

  lemma ReasoningLeaves(w: Writer, s: string)
    ensures var w' := ReasoningDelta(w, s); Leaves(w, w') && w'.text == w.text && w'.refusal == w.refusal
  {
  }

  lemma TextLeaves(w: Writer, kind: Kind, s: string)
    ensures var w' := TextDelta(w, kind, s);
            && Leaves(w, w')
            && w'.text == (if kind == Refusal then w.text else w.text + s)
            && w'.refusal == (if kind == Refusal then w.refusal + s else w.refusal)
  {
    var w1 := EnsurePart(w, kind);
    assert Leaves(w, w1) && w1.text == w.text && w1.refusal == w.refusal;
    hide EnsurePart;
  }

  // ---- Agreement ----

  /** The writer after one chunk for each choice. */
  function Absorb(contract: Contract, choices: seq<Choice>): Writer {
    if choices == [] then Begin()
    else HandlePayload(contract, Absorb(contract, choices[..|choices| - 1]), Chunk([choices[|choices| - 1]]))
  }

  ghost predicate Tracks(w: Writer, choices: seq<Choice>) {
    && Unmixed(choices)
    && Mirrors(w, ItemsIn(choices))
    && w.legacyId == (if LegacyOf(choices) == [] then None else Some(0))
    && w.minted == Count(LegacyOf(choices) != [])
    && !w.sawDone
    && w.text == ContentOf(choices) && w.refusal == RefusalOf(choices)
    && w.finishReason == FinishOf(choices)
  }

  function ToolsOf(tools: ToolField): seq<ToolItem> {
    if tools.Tools? then tools.items else []
  }

  lemma CalledTracks(contract: Contract, w: Writer, items: seq<ToolItem>, tools: ToolField)
    requires Mirrors(w, items) && (w.legacyId.None? || ToolsOf(tools) == []) && !tools.NotAnArray?
    requires BenignItems(ToolsOf(tools)) && Stable(items + ToolsOf(tools))
    ensures var r := CalledModern(contract, w, tools); !r.1 && Mirrors(r.0, items + ToolsOf(tools)) && SameButCalls(w, r.0)
  {
    hide Mirrors, ToolCallDelta, BenignItems, Stable;
    if ToolsOf(tools) == [] {
      assert items + ToolsOf(tools) == items;
    } else {
      ToolCallDeltaMirrors(contract, w, items, tools.items);
    }
  }

  function Finished(w: Writer, choice: Choice): Writer
    requires choice.Choice?
  {
    if choice.finishReason != "" then w.(finishReason := choice.finishReason) else w
  }

  lemma EmptyBenign()
    ensures BenignItems([])
  {
  }

  /** What one more choice adds to the fold. */
  lemma LastChoice(choices: seq<Choice>)
    requires choices != [] && Benign(choices[|choices| - 1])
    ensures var before, choice := choices[..|choices| - 1], choices[|choices| - 1];
            && Fragments(choices) == Fragments(before) + ItemsOf(choice)
            && ContentOf(choices) == ContentOf(before) + (if choice.delta.Some? then choice.delta.value.content else "")
            && RefusalOf(choices) == RefusalOf(before) + (if choice.delta.Some? then choice.delta.value.refusal else "")
            && FinishOf(choices) == (if choice.finishReason != "" then choice.finishReason else FinishOf(before))
            && LegacyOf(choices) == (if choice.delta.Some? && choice.delta.value.legacy.Legacy? && !(LegacyOf(before) == [] && EmptyFunction(choice.delta.value.legacy.fn))
                                     then LegacyOf(before) + [choice.delta.value.legacy.fn] else LegacyOf(before))
  {
  }

  lemma LegacyItemsAppend(fs: seq<FunctionDelta>, f: FunctionDelta)
    ensures LegacyItems(fs + [f]) == LegacyItems(fs) + [LegacyItem(f)]
    ensures LegacyItems([]) == []
  {
  }

  lemma MirrorsFields(w: Writer, w': Writer, items: seq<ToolItem>)
    requires Mirrors(w, items) && w'.calls == w.calls && w'.error == w.error
    ensures Mirrors(w', items)
  {
  }

  lemma {:induction false} SomeKey(items: seq<ToolItem>)
    requires items != [] && BenignItems(items)
    ensures KeysOf(items) != []
  {
    if |items| > 1 {
      SomeKey(items[..|items| - 1]);
    }
  }

  /** A writer that mirrors some fragments has calls. */
  lemma MirrorsSome(w: Writer, items: seq<ToolItem>)
    requires Mirrors(w, items) && BenignItems(items)
    ensures w.calls == [] <==> items == []
  {
    if items != [] {
      SomeKey(items);
    }
  }

  lemma HandleOne(contract: Contract, w: Writer, choice: Choice)
    requires w.error.None?
    ensures HandlePayload(contract, w, Chunk([choice])) == HandleChoice(contract, w, choice).0
  {
    hide HandleChoice;
    var w1 := HandleChoice(contract, w, choice).0;
    assert [choice][1..] == [];
    assert HandleChoices(contract, w1, []) == w1;
  }

  predicate AllBenign(choices: seq<Choice>) {
    forall i :: 0 <= i < |choices| ==> Benign(choices[i])
  }

  lemma {:induction false} FragmentsBenign(choices: seq<Choice>)
    requires AllBenign(choices)
    ensures BenignItems(Fragments(choices))
  {
    if choices != [] {
      var n := |choices| - 1;
      FragmentsBenign(choices[..n]);
      assert Benign(choices[n]);
      hide BenignItem;
    }
  }

  // ---- One more choice ----

  lemma DeltaTracks(contract: Contract, w: Writer, items: seq<ToolItem>, d: ChoiceDelta)
    requires Mirrors(w, items) && (w.legacyId.None? || ToolsOf(d.tools) == []) && !d.tools.NotAnArray?
    requires BenignItems(ToolsOf(d.tools)) && Stable(items + ToolsOf(d.tools))
    ensures var r := CalledModern(contract, Spoken(w, d), d.tools);
            && !r.1 && Mirrors(r.0, items + ToolsOf(d.tools))
            && r.0.legacyId == w.legacyId && r.0.minted == w.minted && r.0.sawDone == w.sawDone && r.0.finishReason == w.finishReason
            && r.0.text == w.text + d.content && r.0.refusal == w.refusal + d.refusal
  {
    SpokenFields(w, d);
    MirrorsFields(w, Spoken(w, d), items);
    hide Mirrors, CalledModern, Spoken, BenignItems, Stable;
    CalledTracks(contract, Spoken(w, d), items, d.tools);
  }

  lemma ModernStops(contract: Contract, w: Writer, d: ChoiceDelta)
    requires w.legacyId.Some? && ToolsOf(d.tools) != []
    ensures var r := CalledModern(contract, Spoken(w, d), d.tools); r.1 && r.0.error.Some?
  {
    SpokenFields(w, d);
    hide Spoken, ToolCallDelta;
  }

  /** The writer after the text and the modern calls of the last choice. */
  ghost predicate AfterModern(w: Writer, choices: seq<Choice>)
    requires choices != []
  {
    var before := choices[..|choices| - 1];
    && Unmixed(before) && (LegacyOf(before) == [] || Fragments(choices) == [])
    && Mirrors(w, if LegacyOf(before) == [] then Fragments(choices) else LegacyItems(LegacyOf(before)))
    && w.legacyId == (if LegacyOf(before) == [] then None else Some(0)) && w.minted == Count(LegacyOf(before) != [])
    && !w.sawDone
    && w.text == ContentOf(choices) && w.refusal == RefusalOf(choices) && w.finishReason == FinishOf(choices)
  }

  lemma TracksItems(w: Writer, choices: seq<Choice>)
    requires Tracks(w, choices)
    ensures Mirrors(w, if LegacyOf(choices) == [] then Fragments(choices) else LegacyItems(LegacyOf(choices)))
  {
    hide Mirrors, Fragments, LegacyOf, ContentOf, RefusalOf, FinishOf;
    assert Fragments(choices) + [] == Fragments(choices);
    assert [] + LegacyItems(LegacyOf(choices)) == LegacyItems(LegacyOf(choices));
    LegacyItemsAppend([], FunctionDelta("", NoArguments));
  }

  /** What a choice brings besides its calls. */
  lemma FinishedFields(w: Writer, choices: seq<Choice>)
    requires choices != [] && choices[|choices| - 1].Choice? && choices[|choices| - 1].delta.Some?
    requires Tracks(w, choices[..|choices| - 1]) && Benign(choices[|choices| - 1])
    ensures var before, d, f := choices[..|choices| - 1], choices[|choices| - 1].delta.value, Finished(w, choices[|choices| - 1]);
            && Unmixed(before)
            && f.calls == w.calls && f.error == w.error && !f.sawDone
            && f.legacyId == (if LegacyOf(before) == [] then None else Some(0)) && f.minted == Count(LegacyOf(before) != [])
            && f.text + d.content == ContentOf(choices) && f.refusal + d.refusal == RefusalOf(choices) && f.finishReason == FinishOf(choices)
            && ToolsOf(d.tools) == ItemsOf(choices[|choices| - 1]) && BenignItems(ToolsOf(d.tools)) && !d.tools.NotAnArray?
            && Fragments(choices) == Fragments(before) + ToolsOf(d.tools)
            && (LegacyOf(before) == [] || Fragments(before) == [])
  {
    LastChoice(choices);
    EmptyBenign();
    hide Fragments, LegacyOf, Mirrors, ContentOf, RefusalOf, FinishOf, BenignItem, LegacyItems;
  }

  lemma ModernStep(contract: Contract, w: Writer, choices: seq<Choice>)
    requires choices != [] && choices[|choices| - 1].Choice? && choices[|choices| - 1].delta.Some?
    requires Tracks(w, choices[..|choices| - 1]) && Benign(choices[|choices| - 1])
    requires Stable(Fragments(choices)) && Stable(LegacyItems(LegacyOf(choices[..|choices| - 1])))
    requires LegacyOf(choices[..|choices| - 1]) == [] || ItemsOf(choices[|choices| - 1]) == []
    ensures var d := choices[|choices| - 1].delta.value;
            var r := CalledModern(contract, Spoken(Finished(w, choices[|choices| - 1]), d), d.tools);
            !r.1 && AfterModern(r.0, choices)
  {
    var before, choice := choices[..|choices| - 1], choices[|choices| - 1];
    var d := choice.delta.value;
    var items := if LegacyOf(before) == [] then Fragments(before) else LegacyItems(LegacyOf(before));
    FinishedFields(w, choices);
    TracksItems(w, before);
    hide *;
    MirrorsFields(w, Finished(w, choice), items);
    if LegacyOf(before) == [] {
      DeltaTracks(contract, Finished(w, choice), items, d);
      AfterModernIntro(CalledModern(contract, Spoken(Finished(w, choice), d), d.tools).0, choices, before);
    } else {
      NoMore(items, ToolsOf(d.tools));
      NoMore(Fragments(before), ToolsOf(d.tools));
      DeltaTracks(contract, Finished(w, choice), items, d);
      AfterModernIntro(CalledModern(contract, Spoken(Finished(w, choice), d), d.tools).0, choices, before);
    }
  }

  lemma NoMore(items: seq<ToolItem>, more: seq<ToolItem>)
    requires more == []
    ensures items + more == items
  {
  }

  lemma AfterModernIntro(w: Writer, choices: seq<Choice>, before: seq<Choice>)
    requires choices != [] && before == choices[..|choices| - 1]
    requires Unmixed(before) && (LegacyOf(before) == [] || Fragments(choices) == [])
    requires Mirrors(w, if LegacyOf(before) == [] then Fragments(choices) else LegacyItems(LegacyOf(before)))
    requires w.legacyId == (if LegacyOf(before) == [] then None else Some(0)) && w.minted == Count(LegacyOf(before) != []) && !w.sawDone
    requires w.text == ContentOf(choices) && w.refusal == RefusalOf(choices) && w.finishReason == FinishOf(choices)
    ensures AfterModern(w, choices)
  {
    hide Fragments, Mirrors, ContentOf, RefusalOf, FinishOf, LegacyOf, LegacyItems, Unmixed;
  }

  lemma LegacyIgnored(contract: Contract, w: Writer, f: FunctionDelta)
    requires w.legacyId.None? && EmptyFunction(f) && !f.arguments.NotAString?
    ensures LegacyDelta(contract, w, f) == w
  {
    hide ToolCallDelta;
  }

  lemma LegacyRefused(contract: Contract, w: Writer, f: FunctionDelta)
    requires w.legacyId.None? && !EmptyFunction(f) && w.calls != []
    ensures LegacyDelta(contract, w, f).error.Some?
  {
    hide ToolCallDelta;
  }

  lemma LegacyTaken(contract: Contract, w: Writer, fs: seq<FunctionDelta>, f: FunctionDelta)
    requires Mirrors(w, LegacyItems(fs)) && !f.arguments.NotAString? && Stable(LegacyItems(fs + [f]))
    requires w.legacyId == (if fs == [] then None else Some(0)) && w.minted == Count(fs != [])
    requires fs == [] ==> w.calls == [] && !EmptyFunction(f)
    ensures var w' := LegacyDelta(contract, w, f);
            && Mirrors(w', LegacyItems(fs + [f])) && w'.legacyId == Some(0) && w'.minted == 1
            && w'.sawDone == w.sawDone && w'.text == w.text && w'.refusal == w.refusal && w'.finishReason == w.finishReason
  {
    var w1 := if w.legacyId.None? then w.(legacyId := Some(w.minted), minted := w.minted + 1) else w;
    LegacyItemsAppend(fs, f);
    assert BenignItems([LegacyItem(f)]);
    hide Mirrors, ToolCallDelta, Stable, LegacyItems, BenignItems;
    MirrorsFields(w, w1, LegacyItems(fs));
    ToolCallDeltaMirrors(contract, w1, LegacyItems(fs), [LegacyItem(f)]);
    assert LegacyDelta(contract, w, f) == ToolCallDelta(contract, w1, [LegacyItem(f)]);
  }

  /** No legacy delta of weight: the choice is done. */
  lemma LegacySame(contract: Contract, w: Writer, choices: seq<Choice>)
    requires choices != [] && AfterModern(w, choices) && LegacyOf(choices) == LegacyOf(choices[..|choices| - 1])
    ensures Tracks(w, choices)
  {
    hide Fragments, Mirrors, ContentOf, RefusalOf, FinishOf, LegacyOf;
    LegacyItemsAppend([], FunctionDelta("", NoArguments));
    assert Fragments(choices) + [] == Fragments(choices);
    assert [] + LegacyItems(LegacyOf(choices)) == LegacyItems(LegacyOf(choices));
  }

  lemma AfterModernLegacy(w: Writer, choices: seq<Choice>)
    requires choices != [] && AfterModern(w, choices) && Fragments(choices) == []
    ensures Mirrors(w, LegacyItems(LegacyOf(choices[..|choices| - 1])))
    ensures LegacyOf(choices[..|choices| - 1]) == [] ==> w.calls == []
  {
    EmptyBenign();
    LegacyItemsAppend([], FunctionDelta("", NoArguments));
    hide Fragments, Mirrors, ContentOf, RefusalOf, FinishOf, LegacyOf;
    if LegacyOf(choices[..|choices| - 1]) == [] {
      MirrorsSome(w, []);
    }
  }

  lemma TracksIntro(w: Writer, choices: seq<Choice>)
    requires Fragments(choices) == [] && LegacyOf(choices) != [] && Mirrors(w, LegacyItems(LegacyOf(choices)))
    requires w.legacyId == Some(0) && w.minted == 1 && !w.sawDone
    requires w.text == ContentOf(choices) && w.refusal == RefusalOf(choices) && w.finishReason == FinishOf(choices)
    ensures Tracks(w, choices)
  {
    hide Fragments, Mirrors, ContentOf, RefusalOf, FinishOf, LegacyOf, LegacyItems;
    assert [] + LegacyItems(LegacyOf(choices)) == LegacyItems(LegacyOf(choices));
  }

  lemma LegacyMore(contract: Contract, w: Writer, choices: seq<Choice>, f: FunctionDelta)
    requires choices != [] && AfterModern(w, choices) && LegacyOf(choices) == LegacyOf(choices[..|choices| - 1]) + [f]
    requires Fragments(choices) == [] && !f.arguments.NotAString? && Stable(LegacyItems(LegacyOf(choices)))
    requires LegacyOf(choices[..|choices| - 1]) == [] ==> !EmptyFunction(f)
    ensures Tracks(LegacyDelta(contract, w, f), choices)
  {
    AfterModernLegacy(w, choices);
    hide Fragments, Mirrors, ContentOf, RefusalOf, FinishOf, LegacyOf, LegacyDelta, Stable, LegacyItems, Tracks;
    LegacyTaken(contract, w, LegacyOf(choices[..|choices| - 1]), f);
    TracksIntro(LegacyDelta(contract, w, f), choices);
  }

  /** The legacy part of a choice, after its modern part w. */
  lemma LegacyStep(contract: Contract, w: Writer, choices: seq<Choice>)
    requires choices != [] && choices[|choices| - 1].Choice? && choices[|choices| - 1].delta.Some?
    requires AllBenign(choices) && Stable(LegacyItems(LegacyOf(choices))) && AfterModern(w, choices)
    ensures var r := CalledLegacy(contract, w, choices[|choices| - 1].delta.value.legacy);
            !r.1 && if Unmixed(choices) then Tracks(r.0, choices) else r.0.error.Some?
  {
    var before, choice := choices[..|choices| - 1], choices[|choices| - 1];
    assert Benign(choice);
    LastChoice(choices);
    FragmentsBenign(choices);
    var legacy := choice.delta.value.legacy;
    if legacy.NoFunction? || (LegacyOf(before) == [] && EmptyFunction(legacy.fn)) {
      hide Fragments, LegacyOf, LegacyDelta, Mirrors;
      LegacySame(contract, w, choices);
      if legacy.Legacy? {
        LegacyIgnored(contract, w, legacy.fn);
      }
      hide AfterModern;
    } else if Fragments(choices) != [] {
      MirrorsSome(w, Fragments(choices));
      hide Fragments, LegacyOf, LegacyDelta, Mirrors;
      LegacyRefused(contract, w, legacy.fn);
    } else {
      hide Fragments, LegacyOf, LegacyDelta, AfterModern, Tracks;
      LegacyMore(contract, w, choices, legacy.fn);
    }
  }

  lemma HandleWithDelta(contract: Contract, w: Writer, choice: Choice)
    requires choice.Choice? && choice.first && choice.delta.Some?
    ensures var d := choice.delta.value;
            var r := CalledModern(contract, Spoken(Finished(w, choice), d), d.tools);
            HandleChoice(contract, w, choice) == if r.1 then (r.0, true) else CalledLegacy(contract, r.0, d.legacy)
  {
    hide CalledModern, Spoken, CalledLegacy;
  }

  lemma SilentChoiceTracks(contract: Contract, w: Writer, choices: seq<Choice>)
    requires choices != [] && Benign(choices[|choices| - 1]) && choices[|choices| - 1].delta.None?
    requires Tracks(w, choices[..|choices| - 1])
    ensures Tracks(HandleChoice(contract, w, choices[|choices| - 1]).0, choices)
  {
    var before, choice := choices[..|choices| - 1], choices[|choices| - 1];
    LastChoice(choices);
    hide Fragments, Mirrors, ContentOf, RefusalOf, FinishOf, LegacyOf, LegacyItems;
    assert Fragments(before) + [] == Fragments(before);
    assert ItemsIn(choices) == ItemsIn(before);
    MirrorsFields(w, Finished(w, choice), ItemsIn(before));
  }

  lemma MixingChoice(choices: seq<Choice>)
    requires choices != [] && Benign(choices[|choices| - 1])
    requires LegacyOf(choices[..|choices| - 1]) != [] && ItemsOf(choices[|choices| - 1]) != []
    ensures !Unmixed(choices)
  {
    LastChoice(choices);
    hide Fragments, LegacyOf, Benign;
  }

  lemma TracksLegacy(w: Writer, choices: seq<Choice>)
    requires Tracks(w, choices) && LegacyOf(choices) != []
    ensures w.legacyId.Some?
  {
    hide Fragments, Mirrors, ContentOf, RefusalOf, FinishOf, LegacyOf, LegacyItems;
  }

  /** One more choice: the writer follows the fold, until the two forms of calls meet. */
  lemma ChoiceTracks(contract: Contract, w: Writer, choices: seq<Choice>)
    requires choices != [] && AllBenign(choices)
    requires Tracks(w, choices[..|choices| - 1]) && Stable(Fragments(choices)) && Stable(LegacyItems(LegacyOf(choices)))
    ensures var w' := HandleChoice(contract, w, choices[|choices| - 1]).0;
            if Unmixed(choices) then Tracks(w', choices) else w'.error.Some?
  {
    var before, choice := choices[..|choices| - 1], choices[|choices| - 1];
    assert Benign(choice);
    PrefixStable(choices);
    if choice.delta.Some? {
      HandleWithDelta(contract, w, choice);
      if LegacyOf(before) != [] && ItemsOf(choice) != [] {
        MixingChoice(choices);
        TracksLegacy(w, before);
        hide *;
        ModernStops(contract, Finished(w, choice), choice.delta.value) by { StopsHere(w, choice); }
      } else {
        hide *;
        ModernStep(contract, w, choices);
        LegacyStep(contract, CalledModern(contract, Spoken(Finished(w, choice), choice.delta.value), choice.delta.value.tools).0, choices);
      }
    } else {
      SilentChoiceUnmixed(choices);
      TracksUnmixed(w, before);
      hide *;
      SilentChoiceTracks(contract, w, choices);
    }
  }

  lemma TracksUnmixed(w: Writer, choices: seq<Choice>)
    requires Tracks(w, choices)
    ensures Unmixed(choices)
  {
    hide Fragments, Mirrors, ContentOf, RefusalOf, FinishOf, LegacyOf, LegacyItems;
  }

  lemma StopsHere(w: Writer, choice: Choice)
    requires choice.Choice? && choice.delta.Some? && w.legacyId.Some? && ItemsOf(choice) != []
    ensures Finished(w, choice).legacyId.Some? && ToolsOf(choice.delta.value.tools) != []
  {
  }

  lemma SilentChoiceUnmixed(choices: seq<Choice>)
    requires choices != [] && Benign(choices[|choices| - 1]) && choices[|choices| - 1].delta.None?
    ensures Unmixed(choices[..|choices| - 1]) ==> Unmixed(choices)
  {
    LastChoice(choices);
    hide Fragments, LegacyOf, Benign;
  }

  lemma {:induction false} AbsorbTracks(contract: Contract, choices: seq<Choice>)
    requires AllBenign(choices) && Stable(Fragments(choices)) && Stable(LegacyItems(LegacyOf(choices)))
    ensures var w := Absorb(contract, choices); if Unmixed(choices) then Tracks(w, choices) else w.error.Some?
  {
    if choices != [] {
      var n := |choices| - 1;
      var before := choices[..n];
      PrefixStable(choices);
      AbsorbTracks(contract, before);
      hide HandleChoice, HandlePayload, Fragments, Stable, Benign, LegacyOf;
      var w := Absorb(contract, before);
      if Unmixed(before) {
        MirrorsClean(w, ItemsIn(before));
        ChoiceTracks(contract, w, choices);
        HandleOne(contract, w, choices[n]);
      } else {
        ErrorStays(contract, w, choices[n]);
      }
    } else {
      BeginTracks();
    }
  }

  lemma BeginTracks()
    ensures Tracks(Begin(), [])
  {
  }

  lemma ErrorStays(contract: Contract, w: Writer, choice: Choice)
    requires w.error.Some?
    ensures HandlePayload(contract, w, Chunk([choice])) == w
  {
  }

  lemma PrefixStable(choices: seq<Choice>)
    requires choices != [] && AllBenign(choices) && Stable(Fragments(choices)) && Stable(LegacyItems(LegacyOf(choices)))
    ensures var before := choices[..|choices| - 1];
            && AllBenign(before) && Stable(Fragments(before)) && Stable(LegacyItems(LegacyOf(before)))
            && (Unmixed(choices) ==> Unmixed(before))
  {
    var before := choices[..|choices| - 1];
    assert Benign(choices[|choices| - 1]);
    LastChoice(choices);
    hide Fragments, LegacyOf, Stable, Benign, ItemsOf, EmptyFunction, LegacyItems;
    StableFirst(Fragments(before), ItemsOf(choices[|choices| - 1]));
    if LegacyOf(choices) != LegacyOf(before) {
      var f := choices[|choices| - 1].delta.value.legacy.fn;
      LegacyItemsAppend(LegacyOf(before), f);
      StableFirst(LegacyItems(LegacyOf(before)), [LegacyItem(f)]);
    }
  }

  lemma StableFirst(items: seq<ToolItem>, more: seq<ToolItem>)
    requires Stable(items + more)
    ensures Stable(items)
  {
    StablePrefix(items + more, |items|);
    assert (items + more)[..|items|] == items;
    hide Stable;
  }

  // ---- Both paths see the same calls ----

  lemma {:induction false} InsertKeeps(keys: seq<int>, key: int)
    ensures |InsertKey(keys, key)| == |keys| + 1
    ensures forall k :: k in InsertKey(keys, key) <==> k in keys || k == key
  {
    if keys != [] && keys[|keys| - 1] > key {
      InsertKeeps(keys[..|keys| - 1], key);
      assert keys == keys[..|keys| - 1] + [keys[|keys| - 1]];
    }
  }

  lemma {:induction false} SortKeeps(keys: seq<int>)
    ensures |SortKeys(keys)| == |keys|
    ensures forall k :: k in SortKeys(keys) <==> k in keys
  {
    if keys != [] {
      var n := |keys| - 1;
      SortKeeps(keys[..n]);
      InsertKeeps(SortKeys(keys[..n]), keys[n]);
      assert keys == keys[..n] + [keys[n]];
    }
  }

  ghost predicate Ascending(keys: seq<int>) {
    forall i, j :: 0 <= i < j < |keys| ==> keys[i] <= keys[j]
  }

  lemma {:induction false} InsertAscends(keys: seq<int>, key: int)
    requires Ascending(keys)
    ensures Ascending(InsertKey(keys, key))
  {
    if keys != [] && keys[|keys| - 1] > key {
      var n := |keys| - 1;
      InsertAscends(keys[..n], key);
      InsertKeeps(keys[..n], key);
      var front := InsertKey(keys[..n], key);
      forall i | 0 <= i < |front|
        ensures front[i] <= keys[n]
      {
        assert front[i] in front;
      }
      assert InsertKey(keys, key) == front + [keys[n]];
    }
  }

  /** The JSON path numbers the calls of a completion by ascending index, whatever order they arrived in. */
  lemma {:induction false} SortAscends(keys: seq<int>)
    ensures Ascending(SortKeys(keys))
  {
    if keys != [] {
      SortAscends(keys[..|keys| - 1]);
      InsertAscends(SortKeys(keys[..|keys| - 1]), keys[|keys| - 1]);
    }
  }

  lemma {:induction false} LegacyKeys(fs: seq<FunctionDelta>)
    ensures KeysOf(LegacyItems(fs)) == if fs == [] then [] else [LEGACY_KEY]
  {
    if fs != [] {
      var n := |fs| - 1;
      LegacyKeys(fs[..n]);
      assert fs == fs[..n] + [fs[n]];
      LegacyItemsAppend(fs[..n], fs[n]);
      FoldAppend(LegacyItems(fs[..n]), LegacyItem(fs[n]), LEGACY_KEY);
    } else {
      LegacyItemsAppend([], FunctionDelta("", NoArguments));
    }
  }

  /** A legacy call that began brings a name or argument text. */
  lemma {:induction false} LegacySays(choices: seq<Choice>)
    requires AllBenign(choices) && LegacyOf(choices) != []
    ensures var items := LegacyItems(LegacyOf(choices)); NameOf(items, LEGACY_KEY) != "" || TextOf(ArgumentsOfKey(items, LEGACY_KEY)) != ""
  {
    var n := |choices| - 1;
    var before := choices[..n];
    assert Benign(choices[n]);
    LastChoice(choices);
    if LegacyOf(before) != [] {
      LegacySays(before);
    }
    if LegacyOf(choices) != LegacyOf(before) {
      var f := choices[n].delta.value.legacy.fn;
      LegacyItemsAppend(LegacyOf(before), f);
      FoldAppend(LegacyItems(LegacyOf(before)), LegacyItem(f), LEGACY_KEY);
      hide NameOf, ArgumentsOfKey, KeysOf, LegacyOf, LegacyItems;
    }
  }

  /** The calls the writer holds are those of the folded message, though maybe in another order. */
  ghost predicate SameCallsAs(w: Writer, calls: seq<JsonCall>, items: seq<ToolItem>, keys: seq<int>) {
    && calls == FoldedCalls(items, keys) && |w.calls| == |keys|
    && (forall k :: k in keys <==> k in KeysOf(items))
  }

  lemma FoldSees(contract: Contract, w: Writer, choices: seq<Choice>)
    requires Tracks(w, choices) && AllBenign(choices)
    ensures exists items, keys :: Mirrors(w, items) && SameCallsAs(w, ToolCalls(Fold(choices)), items, keys)
  {
    hide *;
    if LegacyOf(choices) == [] {
      FoldSeesModern(w, choices);
    } else {
      FoldSeesLegacy(w, choices);
    }
  }

  lemma FoldSeesModern(w: Writer, choices: seq<Choice>)
    requires Tracks(w, choices) && AllBenign(choices) && LegacyOf(choices) == []
    ensures Mirrors(w, Fragments(choices))
    ensures SameCallsAs(w, ToolCalls(Fold(choices)), Fragments(choices), SortKeys(KeysOf(Fragments(choices))))
  {
    var items := Fragments(choices);
    SortKeeps(KeysOf(items));
    FragmentsBenign(choices);
    assert items + [] == items;
    assert ItemsIn(choices) == items;
    assert ModernCalls(Fold(choices)) == FoldedCalls(items, SortKeys(KeysOf(items)));
    hide Fragments, KeysOf, SortKeys, Mirrors, LegacyOf, Fold, FoldedCalls;
    MirrorsCount(w, items);
  }

  lemma FoldSeesLegacy(w: Writer, choices: seq<Choice>)
    requires Tracks(w, choices) && AllBenign(choices) && LegacyOf(choices) != []
    ensures Mirrors(w, LegacyItems(LegacyOf(choices)))
    ensures SameCallsAs(w, ToolCalls(Fold(choices)), LegacyItems(LegacyOf(choices)), [LEGACY_KEY])
  {
    var legacy := LegacyItems(LegacyOf(choices));
    LegacyFolds(choices);
    LegacyKeys(LegacyOf(choices));
    assert Fragments(choices) == [] && [] + legacy == legacy;
    hide Fragments, Mirrors, LegacyOf, LegacyItems, Fold, ToolCalls, KeysOf;
    MirrorsCount(w, legacy);
  }

  lemma LegacyFolds(choices: seq<Choice>)
    requires Unmixed(choices) && AllBenign(choices) && LegacyOf(choices) != []
    ensures var legacy := LegacyItems(LegacyOf(choices)); ToolCalls(Fold(choices)) == FoldedCalls(legacy, [LEGACY_KEY])
  {
    var legacy := LegacyItems(LegacyOf(choices));
    LegacySays(choices);
    assert KeysOf([]) == [] && SortKeys([]) == [];
    hide Fragments, LegacyOf, LegacyItems, NameOf, ArgumentsOfKey, KeysOf, SortKeys;
    assert FoldedCalls(legacy, [LEGACY_KEY]) == [FoldedCall(legacy, LEGACY_KEY)];
  }

  lemma MirrorsCount(w: Writer, items: seq<ToolItem>)
    requires Mirrors(w, items)
    ensures |w.calls| == |KeysOf(items)|
  {
  }

  predicate MatchesCall(call: Call, json: JsonCall) {
    json.name == call.name && TextOf(json.arguments) == call.arguments && json.arguments.Some? == call.argumentsSeen
  }

  ghost predicate Found(call: Call, jsons: seq<JsonCall>) {
    exists i :: 0 <= i < |jsons| && MatchesCall(call, jsons[i])
  }

  ghost predicate FoundIn(json: JsonCall, calls: seq<Call>) {
    exists j :: 0 <= j < |calls| && MatchesCall(calls[j], json)
  }

  /** Neither the number of calls nor what every single call satisfies depends on their order. */
  lemma CallsAgree(contract: Contract, w: Writer, calls: seq<JsonCall>, items: seq<ToolItem>, keys: seq<int>, refused: bool)
    requires Mirrors(w, items) && SameCallsAs(w, calls, items, keys)
    ensures |w.calls| == |calls|
    ensures AllValid(contract, w.calls) <==> AllJsonValid(contract, calls)
    ensures PolicyAccepts(contract.policy, Invocations(w.calls), refused) <==> PolicyAccepts(contract.policy, JsonInvocations(calls), refused)
  {
    hide NameOf, IdOf, ArgumentsOfKey, KeysOf, CallValid, CallAllowed, AllValid, AllJsonValid, PolicyAccepts;
    var order := KeysOf(items);
    forall j | 0 <= j < |w.calls|
      ensures Found(w.calls[j], calls)
    {
      assert MirrorsCall(items, order[j], w.calls[j]);
      assert order[j] in keys;
      var i :| 0 <= i < |keys| && keys[i] == order[j];
      assert MatchesCall(w.calls[j], calls[i]);
    }
    forall i | 0 <= i < |calls|
      ensures FoundIn(calls[i], w.calls)
    {
      assert keys[i] in order;
      var j :| 0 <= j < |order| && order[j] == keys[i];
      assert MirrorsCall(items, order[j], w.calls[j]);
      assert MatchesCall(w.calls[j], calls[i]);
    }
    EachValid(contract, w.calls, calls);
    EachAllowed(contract.policy, w.calls, calls, refused);
  }

  ghost predicate SameSets(calls: seq<Call>, jsons: seq<JsonCall>) {
    && |calls| == |jsons|
    && (forall j :: 0 <= j < |calls| ==> Found(calls[j], jsons))
    && (forall i :: 0 <= i < |jsons| ==> FoundIn(jsons[i], calls))
  }

  lemma EachValid(contract: Contract, calls: seq<Call>, jsons: seq<JsonCall>)
    requires SameSets(calls, jsons)
    ensures AllValid(contract, calls) <==> AllJsonValid(contract, jsons)
  {
    hide CallValid;
    if AllValid(contract, calls) {
      forall i | 0 <= i < |jsons|
        ensures CallValid(contract, jsons[i].name, TextOf(jsons[i].arguments), jsons[i].arguments.Some?)
      {
        assert FoundIn(jsons[i], calls);
      }
    }
    if AllJsonValid(contract, jsons) {
      forall j | 0 <= j < |calls|
        ensures CallValid(contract, calls[j].name, calls[j].arguments, calls[j].argumentsSeen)
      {
        assert Found(calls[j], jsons);
      }
    }
  }

  predicate AllAllowed(policy: Policy, calls: seq<Invocation>) {
    forall i :: 0 <= i < |calls| ==> CallAllowed(policy, calls[i])
  }

  lemma AllowedThere(policy: Policy, calls: seq<Call>, jsons: seq<JsonCall>)
    requires SameSets(calls, jsons) && AllAllowed(policy, Invocations(calls))
    ensures AllAllowed(policy, JsonInvocations(jsons))
  {
    hide CallAllowed;
    var a, b := Invocations(calls), JsonInvocations(jsons);
    forall i | 0 <= i < |b|
      ensures CallAllowed(policy, b[i])
    {
      assert FoundIn(jsons[i], calls);
      var j :| 0 <= j < |calls| && MatchesCall(calls[j], jsons[i]);
      assert b[i] == a[j];
    }
  }

  lemma AllowedHere(policy: Policy, calls: seq<Call>, jsons: seq<JsonCall>)
    requires SameSets(calls, jsons) && AllAllowed(policy, JsonInvocations(jsons))
    ensures AllAllowed(policy, Invocations(calls))
  {
    hide CallAllowed;
    var a, b := Invocations(calls), JsonInvocations(jsons);
    forall j | 0 <= j < |a|
      ensures CallAllowed(policy, a[j])
    {
      assert Found(calls[j], jsons);
      var i :| 0 <= i < |jsons| && MatchesCall(calls[j], jsons[i]);
      assert a[j] == b[i];
    }
  }

  lemma EachAllowed(policy: Policy, calls: seq<Call>, jsons: seq<JsonCall>, refused: bool)
    requires SameSets(calls, jsons)
    ensures PolicyAccepts(policy, Invocations(calls), refused) <==> PolicyAccepts(policy, JsonInvocations(jsons), refused)
  {
    var a, b := Invocations(calls), JsonInvocations(jsons);
    assert |a| == |b|;
    hide PolicyAccepts, AllAllowed, Found, FoundIn, Invocations, JsonInvocations;
    if AllAllowed(policy, a) {
      AllowedThere(policy, calls, jsons);
    }
    if AllAllowed(policy, b) {
      AllowedHere(policy, calls, jsons);
    }
    PolicyMeans(policy, a, refused);
    PolicyMeans(policy, b, refused);
  }

  lemma PolicyMeans(policy: Policy, calls: seq<Invocation>, refused: bool)
    ensures PolicyAccepts(policy, calls, refused) <==>
              (refused && |calls| == 0) || (!(policy.mode == Never && |calls| > 0) && !(policy.mode == Required && |calls| == 0)
                                         && !(policy.exact && |calls| != 1) && AllAllowed(policy, calls))
  {
    hide CallAllowed;
  }

  /** A stream that mixes both forms fails for good; the folded message fails unless it was cut short. */
  lemma MixedFails(contract: Contract, choices: seq<Choice>)
    requires AllBenign(choices) && !Unmixed(choices)
    ensures ValidateJson(contract, FoldedFinish(choices), Fold(choices)).None? <==> CutShort(FinishOf(choices))
  {
    MixedInFold(choices);
    assert Fold(choices).tools.Calls? && !Fold(choices).legacy.FunctionMalformed?;
    hide Fold, Unmixed, FinishOf, PolicyAccepts, AllJsonValid, JsonInvocations, ModernCalls, LegacyCalls, ToolCalls;
  }

  /**
   However a completion is sliced into deltas, and whether it calls tools in the modern or in the legacy
   form, the streaming check accepts exactly when the stream carried a completion marker and the JSON path
   accepts the folded message. A completion that mixes the two forms is refused by the stream; the JSON
   path refuses it too, except where it was cut short.
   */
  lemma VerdictsAgree(contract: Contract, choices: seq<Choice>, done: bool)
    requires AllBenign(choices) && Stable(Fragments(choices)) && Stable(LegacyItems(LegacyOf(choices)))
    ensures var w := Absorb(contract, choices).(sawDone := done);
            var json := ValidateJson(contract, FoldedFinish(choices), Fold(choices));
            if Unmixed(choices) then
              w.error.None? && (Verdict(contract, w).None? <==> (done || FinishOf(choices) != "") && json.None?)
            else
              Verdict(contract, w).Some? && (json.None? <==> CutShort(FinishOf(choices)))
  {
    var w := Absorb(contract, choices);
    AbsorbTracks(contract, choices);
    if Unmixed(choices) {
      MirrorsClean(w, ItemsIn(choices));
      FoldSees(contract, w, choices);
      var items, keys :| Mirrors(w, items) && SameCallsAs(w, ToolCalls(Fold(choices)), items, keys);
      CallsAgree(contract, w, ToolCalls(Fold(choices)), items, keys, RefusalOf(choices) != "");
      hide *;
      TracksFields(w, choices);
      ValidateFields(contract, choices);
      VerdictFields(contract, w, done);
    } else {
      MixedFails(contract, choices);
      ErrorRejects(contract, w.(sawDone := done));
    }
  }

  const ONE_CALL := FunctionDelta("f", Arguments("{}"))

  /** A completion of one choice that makes one call in both forms and was cut short. */
  const MIXED: seq<Choice> := [Choice(true, "length", Some(ChoiceDelta("", "", "", Tools([ToolDelta(0, NoId, Some(ONE_CALL))]), Legacy(ONE_CALL))))]

  /** Such a completion exists: whatever the request asks for, the stream refuses it and the JSON path lets it through. */
  lemma MixedCutShort(contract: Contract, done: bool)
    ensures AllBenign(MIXED) && Stable(Fragments(MIXED)) && Stable(LegacyItems(LegacyOf(MIXED))) && !Unmixed(MIXED)
    ensures Verdict(contract, Absorb(contract, MIXED)).Some?
    ensures Verdict(contract, Absorb(contract, MIXED).(sawDone := done)).Some?
    ensures ValidateJson(contract, FoldedFinish(MIXED), Fold(MIXED)).None?
  {
    MixedParts();
    AbsorbTracks(contract, MIXED);
    ErrorRejects(contract, Absorb(contract, MIXED));
    VerdictsAgree(contract, MIXED, done);
    hide *;
  }

  lemma MixedParts()
    ensures AllBenign(MIXED) && Stable(Fragments(MIXED)) && Stable(LegacyItems(LegacyOf(MIXED))) && !Unmixed(MIXED)
    ensures FinishOf(MIXED) == "length" && CutShort(FinishOf(MIXED))
  {
    var item := ToolDelta(0, NoId, Some(ONE_CALL));
    assert MIXED[..0] == [];
    LastChoice(MIXED);
    assert Fragments(MIXED) == [] + [item] == [item];
    assert LegacyOf(MIXED) == [] + [ONE_CALL] == [ONE_CALL];
    assert LegacyItems([ONE_CALL]) == [LegacyItem(ONE_CALL)];
    OneStable(item);
    OneStable(LegacyItem(ONE_CALL));
  }

  lemma OneStable(item: ToolItem)
    requires item.ToolDelta?
    ensures Stable([item])
  {
    assert [item][..0] == [];
  }

  lemma ErrorRejects(contract: Contract, w: Writer)
    requires w.error.Some?
    ensures Verdict(contract, w).Some?
  {
  }

  lemma TracksFields(w: Writer, choices: seq<Choice>)
    requires Tracks(w, choices)
    ensures w.text == ContentOf(choices) && w.refusal == RefusalOf(choices) && w.finishReason == FinishOf(choices)
  {
    hide Mirrors, ContentOf, RefusalOf, FinishOf;
  }

  /** The checks of the JSON path on a message with well-formed calls of one form. */
  lemma ValidateMeans(contract: Contract, finish: string, m: Message)
    requires m.tools.Calls? && !m.legacy.FunctionMalformed? && (ModernCalls(m) == [] || LegacyCalls(m) == [])
    ensures ValidateJson(contract, finish, m).None? <==>
              && (CutShort(finish) ||
                  (&& !(ToolFinish(finish) && ToolCalls(m) == [])
                   && !(contract.forbidParallel && |ToolCalls(m)| > 1)
                   && AllJsonValid(contract, ToolCalls(m))
                   && PolicyAccepts(contract.policy, JsonInvocations(ToolCalls(m)), m.refusal != "")
                   && (ToolCalls(m) != [] || m.refusal != "" || contract.outputAccepts(m.content))))
  {
    hide ToolCalls, PolicyAccepts, AllJsonValid, JsonInvocations, ModernCalls, LegacyCalls, CutShort, ToolFinish;
  }

  lemma FoldFields(choices: seq<Choice>)
    ensures var m := Fold(choices);
            m.content == ContentOf(choices) && m.refusal == RefusalOf(choices) && m.tools.Calls? && !m.legacy.FunctionMalformed?
  {
    hide ContentOf, RefusalOf, FoldedCalls, FoldedCall, LegacyItems, LegacyOf, Fragments, SortKeys, KeysOf;
  }

  lemma FinishSame(choices: seq<Choice>)
    ensures CutShort(FoldedFinish(choices)) <==> CutShort(FinishOf(choices))
    ensures ToolFinish(FoldedFinish(choices)) <==> ToolFinish(FinishOf(choices))
    ensures ToolFinish(FinishOf(choices)) ==> !CutShort(FinishOf(choices))
  {
    hide FinishOf;
  }

  lemma ValidateFields(contract: Contract, choices: seq<Choice>)
    requires Unmixed(choices)
    ensures var finish, calls, refusal := FinishOf(choices), ToolCalls(Fold(choices)), RefusalOf(choices);
            ValidateJson(contract, FoldedFinish(choices), Fold(choices)).None? <==>
              && !(ToolFinish(finish) && calls == [])
              && (CutShort(finish) ||
                  (&& !(contract.forbidParallel && |calls| > 1)
                   && AllJsonValid(contract, calls)
                   && PolicyAccepts(contract.policy, JsonInvocations(calls), refusal != "")
                   && (calls != [] || refusal != "" || contract.outputAccepts(ContentOf(choices)))))
  {
    UnmixedFold(choices);
    FoldFields(choices);
    FinishSame(choices);
    hide *;
    ValidateMeans(contract, FoldedFinish(choices), Fold(choices));
  }

  lemma UnmixedFold(choices: seq<Choice>)
    requires Unmixed(choices)
    ensures ModernCalls(Fold(choices)) == [] || LegacyCalls(Fold(choices)) == []
  {
    SortKeeps(KeysOf(Fragments(choices)));
    if Fragments(choices) == [] {
      assert KeysOf(Fragments(choices)) == [];
    }
    hide SortKeys, NameOf, ArgumentsOfKey;
  }

  lemma VerdictFields(contract: Contract, w: Writer, done: bool)
    requires w.error.None?
    ensures var w' := w.(sawDone := done);
            Verdict(contract, w').None? <==>
              && (done || w.finishReason != "")
              && !(ToolFinish(w.finishReason) && w.calls == [])
              && (CutShort(w.finishReason) ||
                  (&& !(contract.forbidParallel && |w.calls| > 1)
                   && AllValid(contract, w.calls)
                   && PolicyAccepts(contract.policy, Invocations(w.calls), w.refusal != "")
                   && (w.calls != [] || w.refusal != "" || contract.outputAccepts(w.text))))
  {
    hide PolicyAccepts, AllValid, Invocations;
  }

  /** Hence two slicings of the same message get the same verdict. */
  lemma SlicingIrrelevant(contract: Contract, choices: seq<Choice>, others: seq<Choice>, done: bool)
    requires AllBenign(choices) && Stable(Fragments(choices)) && Stable(LegacyItems(LegacyOf(choices)))
    requires AllBenign(others) && Stable(Fragments(others)) && Stable(LegacyItems(LegacyOf(others)))
    requires Fold(choices) == Fold(others) && FinishOf(choices) == FinishOf(others)
    ensures Verdict(contract, Absorb(contract, choices).(sawDone := done)).None?
            <==> Verdict(contract, Absorb(contract, others).(sawDone := done)).None?
  {
    VerdictsAgree(contract, choices, done);
    VerdictsAgree(contract, others, done);
    MixedInFold(choices);
    MixedInFold(others);
  }

  /** Whether the forms are mixed can be read off the folded message. */
  lemma MixedInFold(choices: seq<Choice>)
    requires AllBenign(choices)
    ensures Unmixed(choices) <==> ModernCalls(Fold(choices)) == [] || LegacyCalls(Fold(choices)) == []
  {
    if Unmixed(choices) {
      UnmixedFold(choices);
    } else {
      var items := Fragments(choices);
      SortKeeps(KeysOf(items));
      FragmentsBenign(choices);
      SomeKey(items);
      LegacySays(choices);
      assert |ModernCalls(Fold(choices))| == |KeysOf(items)|;
      hide SortKeys, NameOf, ArgumentsOfKey, KeysOf;
    }
  }
}
