/**
 The order a client sees: the words in the order of the chunks, and the output items in the order in
 which the chunks first mention them.
 */
module ResponsesOrder {
  import opened Wrappers
  import opened Text
  import opened ResponseEvents
  import opened ToolPolicy
  import opened ResponsesStream
  import opened ResponsesInvariant
  import opened ResponsesSteps
  import opened ResponsesFinish
  import opened ResponsesClosing
  import opened ResponsesRuns
  import opened ResponsesGuarantees
  import opened ResponsesInput
  import opened ResponsesOutcome
  import V = Verdicts

  // ---- What the chunks say, in order ----

  /** What an output item is made of: the reasoning, the message, or the call with this index. */
  datatype Source = Thought | Speech | ToolCall(key: int)

  /** The nonempty pieces of reasoning, text and refusal, chunk by chunk. */
  function Words(choices: seq<Choice>): seq<(Kind, string)> {
    if choices == [] then []
    else
      var last := choices[|choices| - 1];
      Words(choices[..|choices| - 1]) + if last.Choice? && last.delta.Some? then DeltaWords(last.delta.value) else []
  }

  function DeltaWords(d: ChoiceDelta): seq<(Kind, string)> {
    (if d.reasoning != "" then [(Summary, d.reasoning)] else [])
    + (if d.content != "" then [(OutputText, d.content)] else [])
    + if d.refusal != "" then [(Refusal, d.refusal)] else []
  }

  function AddSource(sources: seq<Source>, s: Source): seq<Source> {
    if s in sources then sources else sources + [s]
  }

  function AddCalls(sources: seq<Source>, items: seq<ToolItem>): seq<Source>
    decreases |items|
  {
    if items == [] then sources
    else AddCalls(if items[0].ToolDelta? then AddSource(sources, ToolCall(items[0].key)) else sources, items[1..])
  }

  /** The sources after the words of one delta. */
  function AddSpoken(sources: seq<Source>, d: ChoiceDelta): seq<Source> {
    var thought := if d.reasoning != "" then AddSource(sources, Thought) else sources;
    if d.content != "" || d.refusal != "" then AddSource(thought, Speech) else thought
  }

  function AddDelta(sources: seq<Source>, d: ChoiceDelta): seq<Source> {
    var called := AddCalls(AddSpoken(sources, d), if d.tools.Tools? then d.tools.items else []);
    if d.legacy.Legacy? && !V.EmptyFunction(d.legacy.fn) then AddSource(called, ToolCall(V.LEGACY_KEY)) else called
  }

  /** The sources of a stream in the order of their first mention. */
  function Sources(choices: seq<Choice>): seq<Source> {
    if choices == [] then []
    else
      var last := choices[|choices| - 1];
      var before := Sources(choices[..|choices| - 1]);
      if last.Choice? && last.delta.Some? then AddDelta(before, last.delta.value) else before
  }

  // ---- What the log says ----

  /** The deltas of a log, as the client reads them. */
  function Voice(sent: seq<Sent>): seq<(Kind, string)> {
    if sent == [] then [] else Voice(sent[..|sent| - 1]) + VoiceOf(sent[|sent| - 1].event)
  }

  function VoiceOf(e: Event): seq<(Kind, string)> {
    if e.Delta? then [(e.kind, e.text)] else []
  }

  lemma EmitVoice(w: Writer, e: Event)
    ensures Voice(Emit(w, e).sent) == Voice(w.sent) + VoiceOf(e)
  {
    assert Emit(w, e).sent[..|w.sent|] == w.sent;
  }

  predicate HasKey(calls: seq<Call>, key: int) {
    exists j :: 0 <= j < |calls| && calls[j].key == key
  }

  /** Every source owns the output index of its position. */
  ghost predicate Placed(w: Writer, sources: seq<Source>) {
    && (forall i, j :: 0 <= i < j < |sources| ==> sources[i] != sources[j])
    && w.nextIdx == |sources|
    && (Thought in sources <==> w.rsOpen) && (w.rsOpen ==> w.rsIdx < |sources| && sources[w.rsIdx] == Thought)
    && (Speech in sources <==> w.msgOpen) && (w.msgOpen ==> w.msgIdx < |sources| && sources[w.msgIdx] == Speech)
    && (forall key :: ToolCall(key) in sources <==> HasKey(w.calls, key))
    && (forall j :: 0 <= j < |w.calls| ==> w.calls[j].outIdx < |sources| && sources[w.calls[j].outIdx] == ToolCall(w.calls[j].key))
  }

  ghost predicate Follows(w: Writer, sources: seq<Source>, words: seq<(Kind, string)>) {
    Placed(w, sources) && Voice(w.sent) == words
  }

  ghost predicate SamePlaces(calls: seq<Call>, calls': seq<Call>) {
    |calls'| == |calls| && forall j :: 0 <= j < |calls| ==> calls'[j].key == calls[j].key && calls'[j].outIdx == calls[j].outIdx
  }

  /** Nothing is said and nothing gets a place. */
  ghost predicate Still(w: Writer, w': Writer) {
    && Voice(w'.sent) == Voice(w.sent) && SamePlaces(w.calls, w'.calls)
    && w'.nextIdx == w.nextIdx && w'.rsOpen == w.rsOpen && w'.rsIdx == w.rsIdx && w'.msgOpen == w.msgOpen && w'.msgIdx == w.msgIdx
    && w'.legacyId == w.legacyId
  }

  lemma StillChain(w: Writer, w': Writer, w'': Writer)
    requires Still(w, w') && Still(w', w'')
    ensures Still(w, w'')
  {
    hide Voice;
  }

  lemma SameKeys(calls: seq<Call>, calls': seq<Call>, key: int)
    requires SamePlaces(calls, calls')
    ensures HasKey(calls, key) <==> HasKey(calls', key)
  {
    if HasKey(calls, key) {
      var j :| 0 <= j < |calls| && calls[j].key == key;
      assert calls'[j].key == key;
    }
  }

  lemma StillTold(w: Writer, w': Writer, sources: seq<Source>, words: seq<(Kind, string)>)
    requires Follows(w, sources, words) && Still(w, w')
    ensures Follows(w', sources, words) && w'.legacyId == w.legacyId
  {
    forall key
      ensures HasKey(w.calls, key) <==> HasKey(w'.calls, key)
    {
      SameKeys(w.calls, w'.calls, key);
    }
    hide Voice, HasKey;
  }

  // ---- Words ----

  lemma ReasoningTold(w: Writer, s: string, sources: seq<Source>, words: seq<(Kind, string)>)
    requires Follows(w, sources, words)
    ensures Follows(ReasoningDelta(w, s), AddSource(sources, Thought), words + [(Summary, s)])
    ensures ReasoningDelta(w, s).legacyId == w.legacyId
  {
    hide Voice, HasKey;
    var w0 := w.(rsIdx := w.nextIdx, nextIdx := w.nextIdx + 1);
    EmitVoice(w0, ItemAdded(w.nextIdx, ReasoningItem(w.reason, InProgress)));
    var w1 := OpenReasoning(w);
    EmitVoice(w1, PartAdded(w1.rsIdx, 0, Summary));
    var w2 := if w1.rsPart then w1 else Emit(w1, PartAdded(w1.rsIdx, 0, Summary)).(rsPart := true);
    EmitVoice(w2.(reason := w2.reason + s), Delta(w2.rsIdx, 0, Summary, s));
  }

  lemma TextTold(w: Writer, kind: Kind, s: string, sources: seq<Source>, words: seq<(Kind, string)>)
    requires Follows(w, sources, words)
    ensures Follows(TextDelta(w, kind, s), AddSource(sources, Speech), words + [(kind, s)])
    ensures TextDelta(w, kind, s).legacyId == w.legacyId
  {
    hide Voice, HasKey, IndexOf;
    var w0 := w.(msgIdx := w.nextIdx, nextIdx := w.nextIdx + 1);
    EmitVoice(w0, ItemAdded(w.nextIdx, MessageItem([], InProgress)));
    var w1 := OpenMessage(w);
    EmitVoice(w1.(parts := w1.parts + [kind]), PartAdded(w1.msgIdx, |w1.parts|, kind));
    var w2 := EnsurePart(w, kind);
    var w3 := if kind == Refusal then w2.(refusal := w2.refusal + s) else w2.(text := w2.text + s);
    EmitVoice(w3, Delta(w2.msgIdx, IndexOf(w2.parts, kind), kind, s));
  }

  lemma SpokenTold(w: Writer, d: ChoiceDelta, sources: seq<Source>, words: seq<(Kind, string)>)
    requires Follows(w, sources, words)
    ensures Follows(Spoken(w, d), AddSpoken(sources, d), words + DeltaWords(d))
    ensures Spoken(w, d).legacyId == w.legacyId
  {
    hide Follows, ReasoningDelta, TextDelta;
    var w1, s1, v1 := w, sources, words;
    if d.reasoning != "" {
      ReasoningTold(w, d.reasoning, sources, words);
      w1, s1, v1 := ReasoningDelta(w, d.reasoning), AddSource(sources, Thought), words + [(Summary, d.reasoning)];
    }
    var w2, s2, v2 := w1, s1, v1;
    if d.content != "" {
      TextTold(w1, OutputText, d.content, s1, v1);
      w2, s2, v2 := TextDelta(w1, OutputText, d.content), AddSource(s1, Speech), v1 + [(OutputText, d.content)];
    }
    if d.refusal != "" {
      TextTold(w2, Refusal, d.refusal, s2, v2);
      assert v2 + [(Refusal, d.refusal)] == words + DeltaWords(d);
    } else {
      assert v2 == words + DeltaWords(d);
    }
  }

  // ---- Calls ----

  lemma FlushOneStill(w: Writer, i: nat)
    requires i < |w.calls|
    ensures Still(w, FlushOne(w, i))
  {
    hide Voice, CallOf;
    var call := w.calls[i].(live := true, begun := true);
    EmitVoice(w.(calls := w.calls[i := call]), ItemAdded(call.outIdx, CallOf(call, InProgress)));
    var w1 := if w.calls[i].live then w else OpenCall(w, i);
    var now := w1.calls[i];
    if now.sent <= |now.arguments| {
      EmitVoice(w1.(calls := w1.calls[i := now.(sent := |now.arguments|)]), ArgumentsDelta(now.outIdx, now.arguments[now.sent..]));
    }
  }

  lemma {:induction false} FlushStill(w: Writer, i: nat)
    ensures Still(w, FlushFrom(w, i))
    decreases |w.calls| - i
  {
    hide FlushOne, Ready, Voice;
    if i < |w.calls| && (w.calls[i].live || Ready(w.calls[i])) {
      FlushOneShape(w, i);
      FlushOneStill(w, i);
      FlushStill(FlushOne(w, i), i + 1);
      hide Still;
      StillChain(w, FlushOne(w, i), FlushFrom(FlushOne(w, i), i + 1));
    }
  }

  lemma {:induction false} AssignStill(w: Writer, i: nat)
    ensures Still(w, AssignIds(w, i))
    decreases |w.calls| - i
  {
    hide Voice;
    if i < |w.calls| {
      if w.calls[i].id != NoId {
        AssignStill(w, i + 1);
      } else {
        var w1 := SetCall(w, i, w.calls[i].(id := Generated(w.minted))).(minted := w.minted + 1);
        assert Still(w, w1);
        AssignStill(w1, i + 1);
        hide AssignIds, Still;
        StillChain(w, w1, AssignIds(w1, i + 1));
      }
    }
  }

  lemma NewCallTold(w: Writer, key: int, sources: seq<Source>, words: seq<(Kind, string)>)
    requires Follows(w, sources, words)
    ensures Follows(NewCall(w, key), AddSource(sources, ToolCall(key)), words)
    ensures NewCall(w, key).legacyId == w.legacyId
  {
    var i := FindCall(w.calls, key);
    assert HasKey(w.calls, key) <==> i < |w.calls|;
    if i < |w.calls| {
      assert ToolCall(key) in sources;
    } else {
      CallAdded(w, NewCall(w, key), key, sources, words);
    }
    hide Follows, HasKey, FindCall;
  }

  lemma CallAdded(w: Writer, w': Writer, key: int, sources: seq<Source>, words: seq<(Kind, string)>)
    requires Follows(w, sources, words) && !HasKey(w.calls, key)
    requires |w'.calls| == |w.calls| + 1 && w'.calls[..|w.calls|] == w.calls && w'.calls[|w.calls|].key == key && w'.calls[|w.calls|].outIdx == w.nextIdx
    requires w' == w.(calls := w'.calls, nextIdx := w.nextIdx + 1)
    ensures Follows(w', sources + [ToolCall(key)], words)
  {
    hide Voice;
    assert w'.calls == w.calls + [w'.calls[|w.calls|]];
    forall k
      ensures HasKey(w'.calls, k) <==> HasKey(w.calls, k) || k == key
    {
      KeysNext(w.calls, w'.calls[|w.calls|], k);
    }
    hide HasKey;
  }

  lemma KeysNext(calls: seq<Call>, call: Call, key: int)
    ensures HasKey(calls + [call], key) <==> HasKey(calls, key) || key == call.key
  {
    if HasKey(calls, key) {
      var j :| 0 <= j < |calls| && calls[j].key == key;
      assert (calls + [call])[j].key == key;
    }
    if key == call.key {
      assert (calls + [call])[|calls|].key == key;
    }
  }

  lemma SetStill(w: Writer, i: nat, call: Call)
    requires i < |w.calls| && call.key == w.calls[i].key && call.outIdx == w.calls[i].outIdx
    ensures Still(w, SetCall(w, i, call))
  {
    hide Voice;
  }

  lemma NamePlaces(contract: Contract, call: Call, name: string)
    ensures var named := NameCall(contract, call, name); named.Some? ==> named.value.key == call.key && named.value.outIdx == call.outIdx
  {
  }

  lemma FunctionStill(contract: Contract, w: Writer, i: nat, f: FunctionDelta)
    requires i < |w.calls|
    ensures Still(w, ApplyFunction(contract, w, i, f))
  {
    hide Still, Fail, NameCall, SetCall;
    var named := NameCall(contract, w.calls[i], f.name);
    NamePlaces(contract, w.calls[i], f.name);
    if named.None? {
      FailStill(w, "upstream changed a streamed tool name");
    } else {
      SetStill(w, i, named.value);
      if f.arguments.NotAString? {
        var w1 := SetCall(w, i, named.value);
        FailStill(w1, "upstream tool arguments must be a JSON string");
        StillChain(w, w1, ApplyFunction(contract, w, i, f));
      } else if f.arguments.Arguments? {
        SetStill(w, i, named.value.(argumentsSeen := true, arguments := named.value.arguments + f.arguments.text));
      }
    }
  }

  lemma FailStill(w: Writer, error: string)
    ensures Still(w, Fail(w, error))
  {
    hide Voice;
  }

  /** After its call has a place, a piece of a call moves nothing. */
  lemma ItemStill(contract: Contract, w: Writer, item: ToolItem)
    requires item.ToolDelta?
    ensures Still(NewCall(w, item.key), ApplyItem(contract, w, item))
  {
    hide Still, NewCall, FindCall, ApplyFunction, ApplyItem;
    var w1 := NewCall(w, item.key);
    NewCallFound(w, item.key);
    var i := FindCall(w1.calls, item.key);
    if item.id != NoId && w1.calls[i].id != NoId && w1.calls[i].id != item.id {
      ConflictStill(contract, w, item);
    } else {
      V.ApplyItemCases(contract, w, item);
      var call := V.Identify(w1.calls[i], item.id);
      SetStill(w1, i, call);
      if item.fn.Some? {
        FunctionStill(contract, SetCall(w1, i, call), i, item.fn.value);
        StillChain(w1, SetCall(w1, i, call), ApplyItem(contract, w, item));
      }
    }
  }

  lemma ConflictStill(contract: Contract, w: Writer, item: ToolItem)
    requires item.ToolDelta?
    requires var w1 := NewCall(w, item.key);
             var i := FindCall(w1.calls, item.key);
             i < |w1.calls| && item.id != NoId && w1.calls[i].id != NoId && w1.calls[i].id != item.id
    ensures Still(NewCall(w, item.key), ApplyItem(contract, w, item))
  {
    var w1 := NewCall(w, item.key);
    assert ApplyItem(contract, w, item) == Fail(w1, "upstream changed a streamed tool call identity") by {
      hide NewCall, FindCall, ApplyFunction, Fail, Still;
    }
    hide NewCall, FindCall, ApplyItem, Voice;
  }

  lemma ItemTold(contract: Contract, w: Writer, item: ToolItem, sources: seq<Source>, words: seq<(Kind, string)>)
    requires Follows(w, sources, words) && item.ToolDelta?
    ensures Follows(ApplyItem(contract, w, item), AddSource(sources, ToolCall(item.key)), words)
    ensures ApplyItem(contract, w, item).legacyId == w.legacyId
  {
    hide *;
    NewCallTold(w, item.key, sources, words);
    ItemStill(contract, w, item);
    StillTold(NewCall(w, item.key), ApplyItem(contract, w, item), AddSource(sources, ToolCall(item.key)), words);
  }

  lemma {:induction false} ItemsTold(contract: Contract, w: Writer, items: seq<ToolItem>, sources: seq<Source>, words: seq<(Kind, string)>)
    requires Follows(w, sources, words) && ApplyItems(contract, w, items).error.None?
    ensures Follows(ApplyItems(contract, w, items), AddCalls(sources, items), words)
    ensures ApplyItems(contract, w, items).legacyId == w.legacyId
    decreases |items|
  {
    if items != [] {
      ItemsCalm(contract, w, items);
      ErrorKept(w, ApplyItems(contract, w, items));
      ItemsNext(contract, w, items);
      var w1 := ApplyItem(contract, w, items[0]);
      ItemsCalm(contract, w1, items[1..]);
      ErrorKept(w1, ApplyItems(contract, w1, items[1..]));
      assert items[0].ToolDelta?;
      hide Follows, ApplyItem, ApplyItems;
      ItemTold(contract, w, items[0], sources, words);
      ItemsTold(contract, w1, items[1..], AddSource(sources, ToolCall(items[0].key)), words);
    }
  }

  lemma ToolsTold(contract: Contract, w: Writer, items: seq<ToolItem>, sources: seq<Source>, words: seq<(Kind, string)>)
    requires Follows(w, sources, words) && ToolCallDelta(contract, w, items).error.None?
    ensures Follows(ToolCallDelta(contract, w, items), AddCalls(sources, items), words)
    ensures ToolCallDelta(contract, w, items).legacyId == w.legacyId
  {
    hide Follows, ApplyItems, FlushFrom, Still, AddCalls;
    var w1 := ApplyItems(contract, w, items);
    FlushCalm(w1, 0);
    if w1.error.None? {
      ItemsTold(contract, w, items, sources, words);
      FlushStill(w1, 0);
      StillTold(w1, FlushFrom(w1, 0), AddCalls(sources, items), words);
    }
  }

  lemma ModernTold(contract: Contract, w: Writer, tools: ToolField, sources: seq<Source>, words: seq<(Kind, string)>)
    requires Follows(w, sources, words) && CalledModern(contract, w, tools).0.error.None?
    ensures !CalledModern(contract, w, tools).1
    ensures Follows(CalledModern(contract, w, tools).0, AddCalls(sources, if tools.Tools? then tools.items else []), words)
    ensures CalledModern(contract, w, tools).0.legacyId == w.legacyId
  {
    hide Follows, ToolCallDelta;
    if tools.Tools? && tools.items != [] && w.legacyId.None? {
      ToolsTold(contract, w, tools.items, sources, words);
    }
  }

  lemma LegacyTold(contract: Contract, w: Writer, legacy: LegacyField, sources: seq<Source>, words: seq<(Kind, string)>)
    requires Follows(w, sources, words) && CalledLegacy(contract, w, legacy).0.error.None?
    requires (w.legacyId.Some? ==> ToolCall(V.LEGACY_KEY) in sources) && (legacy.Legacy? ==> !legacy.fn.arguments.NotAString?)
    ensures var after := if legacy.Legacy? && !V.EmptyFunction(legacy.fn) then AddSource(sources, ToolCall(V.LEGACY_KEY)) else sources;
            && Follows(CalledLegacy(contract, w, legacy).0, after, words)
            && (CalledLegacy(contract, w, legacy).0.legacyId.Some? ==> ToolCall(V.LEGACY_KEY) in after)
  {
    hide Follows, ToolCallDelta, AddSource, CalledLegacy, V.EmptyFunction;
    if legacy.Legacy? {
      LegacyRuns(contract, w, legacy.fn);
      if w.legacyId.Some? || !V.EmptyFunction(legacy.fn) {
        var w1 := LegacyStart(w);
        LegacyBegun(w, w1, sources, words);
        OnePieceTold(contract, w1, ToolDelta(-1, Generated(w1.legacyId.value), Some(legacy.fn)), sources, words);
        AddedSource(sources, ToolCall(V.LEGACY_KEY));
      }
    } else {
      NoLegacy(contract, w, legacy);
    }
  }

  function LegacyStart(w: Writer): (w1: Writer)
    ensures w1.legacyId.Some?
  {
    if w.legacyId.None? then w.(legacyId := Some(w.minted), minted := w.minted + 1) else w
  }

  lemma LegacyRuns(contract: Contract, w: Writer, f: FunctionDelta)
    requires !f.arguments.NotAString? && CalledLegacy(contract, w, Legacy(f)).0.error.None?
    ensures CalledLegacy(contract, w, Legacy(f)).0 ==
            if w.legacyId.None? && V.EmptyFunction(f) then w
            else ToolCallDelta(contract, LegacyStart(w), [ToolDelta(-1, Generated(LegacyStart(w).legacyId.value), Some(f))])
  {
    hide ToolCallDelta;
  }

  lemma NoLegacy(contract: Contract, w: Writer, legacy: LegacyField)
    requires !legacy.Legacy? && CalledLegacy(contract, w, legacy).0.error.None?
    ensures CalledLegacy(contract, w, legacy).0 == w
  {
  }

  lemma AddedSource(sources: seq<Source>, s: Source)
    ensures s in AddSource(sources, s) && (s in sources ==> AddSource(sources, s) == sources)
  {
  }

  lemma OnePieceTold(contract: Contract, w: Writer, item: ToolItem, sources: seq<Source>, words: seq<(Kind, string)>)
    requires Follows(w, sources, words) && item.ToolDelta? && ToolCallDelta(contract, w, [item]).error.None?
    ensures Follows(ToolCallDelta(contract, w, [item]), AddSource(sources, ToolCall(item.key)), words)
    ensures ToolCallDelta(contract, w, [item]).legacyId == w.legacyId
  {
    ToolsTold(contract, w, [item], sources, words);
    assert [item][1..] == [];
    hide Follows, ToolCallDelta, AddSource;
  }

  lemma LegacyBegun(w: Writer, w1: Writer, sources: seq<Source>, words: seq<(Kind, string)>)
    requires Follows(w, sources, words) && w1 == w.(legacyId := w1.legacyId, minted := w1.minted)
    ensures Follows(w1, sources, words)
  {
    hide Voice, HasKey;
  }

  // ---- Whole streams ----

  lemma ChoiceTold(contract: Contract, w: Writer, choice: Choice, sources: seq<Source>, words: seq<(Kind, string)>)
    requires Follows(w, sources, words) && V.Benign(choice) && HandleChoice(contract, w, choice).0.error.None?
    requires w.legacyId.Some? ==> ToolCall(V.LEGACY_KEY) in sources
    ensures var after := if choice.delta.Some? then AddDelta(sources, choice.delta.value) else sources;
            && Follows(HandleChoice(contract, w, choice).0, after, words + if choice.delta.Some? then DeltaWords(choice.delta.value) else [])
            && (HandleChoice(contract, w, choice).0.legacyId.Some? ==> ToolCall(V.LEGACY_KEY) in after)
  {
    hide Follows, Spoken, CalledModern, CalledLegacy, AddCalls, DeltaWords;
    var w1 := V.Finished(w, choice);
    FinishTold(w, choice, sources, words);
    if choice.delta.Some? {
      var d := choice.delta.value;
      HandleSteps(contract, w, choice);
      SpokenTold(w1, d, sources, words);
      var w2, s2 := Spoken(w1, d), AddSpoken(sources, d);
      var items := if d.tools.Tools? then d.tools.items else [];
      ModernTold(contract, w2, d.tools, s2, words + DeltaWords(d));
      CallsGrow(s2, items);
      LegacyTold(contract, CalledModern(contract, w2, d.tools).0, d.legacy, AddCalls(s2, items), words + DeltaWords(d));
    } else {
      assert words + [] == words;
    }
  }

  lemma FinishTold(w: Writer, choice: Choice, sources: seq<Source>, words: seq<(Kind, string)>)
    requires Follows(w, sources, words) && choice.Choice?
    ensures Follows(V.Finished(w, choice), sources, words) && V.Finished(w, choice).legacyId == w.legacyId
  {
    hide Voice, HasKey;
  }

  lemma {:induction false} CallsGrow(sources: seq<Source>, items: seq<ToolItem>)
    ensures forall s :: s in sources ==> s in AddCalls(sources, items)
    decreases |items|
  {
    if items != [] {
      CallsGrow(if items[0].ToolDelta? then AddSource(sources, ToolCall(items[0].key)) else sources, items[1..]);
    }
  }

  lemma {:induction false} AbsorbTold(contract: Contract, choices: seq<Choice>)
    requires Firsts(choices) && V.Absorb(contract, choices).error.None?
    ensures Follows(V.Absorb(contract, choices), Sources(choices), Words(choices))
    ensures V.Absorb(contract, choices).legacyId.Some? ==> ToolCall(V.LEGACY_KEY) in Sources(choices)
  {
    if choices == [] {
      BeginTold();
    } else {
      hide *;
      var n := |choices| - 1;
      var w := V.Absorb(contract, choices[..n]);
      FirstsPrefix(choices);
      AbsorbStep(contract, choices);
      ErrorGoesOn(contract, w, choices[n]);
      AbsorbExact(contract, choices);
      LastBenign(choices);
      AbsorbTold(contract, choices[..n]);
      ChoiceTold(contract, w, choices[n], Sources(choices[..n]), Words(choices[..n]));
      Mentioned(choices);
    }
  }

  lemma LastBenign(choices: seq<Choice>)
    requires choices != [] && Consistent(choices)
    ensures V.Benign(choices[|choices| - 1])
  {
    hide V.Benign, V.Stable, V.Unmixed;
  }

  lemma Mentioned(choices: seq<Choice>)
    requires choices != [] && choices[|choices| - 1].Choice?
    ensures var before, last := choices[..|choices| - 1], choices[|choices| - 1];
            && Sources(choices) == (if last.delta.Some? then AddDelta(Sources(before), last.delta.value) else Sources(before))
            && Words(choices) == Words(before) + if last.delta.Some? then DeltaWords(last.delta.value) else []
  {
    hide AddDelta, DeltaWords;
  }

  lemma BeginTold()
    ensures Follows(Begin(), [], [])
  {
    var s0, s1 := Sent(0, Created), Sent(1, Progress);
    assert Begin().sent == [s0, s1] && [s0, s1][..1] == [s0] && [s0][..0] == [];
    assert Voice([s0]) == Voice([]) + [] && Voice([s0, s1]) == Voice([s0]) + [];
  }

  // ---- The end of the stream ----

  lemma CheckStill(contract: Contract, w: Writer)
    ensures Still(w, Check(contract, w))
  {
    hide Voice, AssignIds, FlushFrom, Verdict;
    assert Still(w, w) && forall error :: Still(w, w.(error := Some(error)));
    AssignStill(w, 0);
    FlushStill(AssignIds(w, 0), 0);
    hide Still;
    StillChain(w, AssignIds(w, 0), FlushFrom(AssignIds(w, 0), 0));
  }

  lemma ReasoningQuiet(w: Writer)
    ensures Voice(CloseReasoning(w).sent) == Voice(w.sent)
  {
    hide Voice;
    var w0 := Emit(w, TextDone(w.rsIdx, 0, Summary, w.reason));
    EmitVoice(w, TextDone(w.rsIdx, 0, Summary, w.reason));
    EmitVoice(w0, PartDone(w.rsIdx, 0, Summary, w.reason));
    var w1 := if w.rsPart then Emit(w0, PartDone(w.rsIdx, 0, Summary, w.reason)).(rsPart := false) else w;
    EmitVoice(w1, ItemDone(w1.rsIdx, ReasoningItem(w1.reason, StatusOf(w1))));
  }

  lemma {:induction false} PartsQuiet(w: Writer, i: nat)
    ensures Voice(CloseParts(w, i).sent) == Voice(w.sent)
    decreases |w.parts| - i
  {
    hide Voice, PartText;
    if i < |w.parts| {
      var kind := w.parts[i];
      var e0, e1 := TextDone(w.msgIdx, i, kind, PartText(w, kind)), PartDone(w.msgIdx, i, kind, PartText(w, kind));
      EmitVoice(w, e0);
      EmitVoice(Emit(w, e0), e1);
      PartsQuiet(Emit(Emit(w, e0), e1), i + 1);
    }
  }

  lemma MessageQuiet(w: Writer)
    ensures Voice(CloseMessage(w).sent) == Voice(w.sent)
  {
    hide Voice, MessageOf, CloseParts;
    var w1 := CloseParts(w, 0);
    PartsQuiet(w, 0);
    EmitVoice(w1, ItemDone(w1.msgIdx, MessageOf(w1, StatusOf(w1))));
  }

  lemma CallQuiet(w: Writer, i: nat)
    requires i < |w.calls|
    ensures Voice(CloseCall(w, i).sent) == Voice(w.sent)
  {
    hide Voice, CallOf;
    var call := w.calls[i];
    EmitVoice(w, ArgumentsDone(call.outIdx, call.arguments));
    var w1 := if call.custom then w else Emit(w, ArgumentsDone(call.outIdx, call.arguments));
    EmitVoice(w1, ItemDone(call.outIdx, CallOf(call, Complete)));
  }

  lemma {:induction false} CallsQuiet(w: Writer, i: nat)
    ensures Voice(CloseCalls(w, i).sent) == Voice(w.sent)
    decreases |w.calls| - i
  {
    if i < |w.calls| {
      CallQuiet(w, i);
      assert |CloseCall(w, i).calls| == |w.calls|;
      hide CloseCall, Voice;
      CallsQuiet(CloseCall(w, i), i + 1);
    }
  }

  /** The end of the stream says no word. */
  lemma FinishQuiet(contract: Contract, w: Writer)
    ensures Voice(Finish(contract, w).sent) == Voice(w.sent)
  {
    CheckStill(contract, w);
    hide Voice, Check, CloseReasoning, CloseMessage, CloseCalls, OutputItems;
    var checked := Check(contract, w);
    var d := checked.(outcome := Some(OutcomeOf(checked)));
    ReasoningQuiet(d);
    MessageQuiet(CloseReasoning(d));
    CallsQuiet(CloseMessage(CloseReasoning(d)), 0);
    var closed := Closed(contract, w);
    EmitVoice(closed, Terminal(OutcomeOf(closed), OutputItems(closed)));
    hide SamePlaces;
    assert Voice(closed.sent) + [] == Voice(closed.sent);
  }

  /** The words reach the client in the order of the chunks, whatever the cutting and whatever the outcome. */
  lemma WordsInOrder(contract: Contract, parse: string -> Payload, chunks: seq<string>)
    requires Clear(parse, Concat(chunks))
    ensures Voice(FinalLog(contract, parse, Writes(chunks))) == Words(ChoicesIn(parse, Until(DataTexts(Concat(chunks)))))
  {
    hide *;
    var w, choices := ClearRun(contract, parse, chunks);
    FinishQuiet(contract, w);
    ToldWords(w, Sources(choices), Words(choices));
  }

  lemma ToldWords(w: Writer, sources: seq<Source>, words: seq<(Kind, string)>)
    requires Follows(w, sources, words)
    ensures Voice(w.sent) == words
  {
  }

  /** The writer at the end of a clear stream. */
  lemma ClearRun(contract: Contract, parse: string -> Payload, chunks: seq<string>) returns (w: Writer, choices: seq<Choice>)
    requires Clear(parse, Concat(chunks))
    ensures choices == ChoicesIn(parse, Until(DataTexts(Concat(chunks))))
    ensures FinalLog(contract, parse, Writes(chunks)) == Finish(contract, w).sent && Inv(contract, w)
    ensures Follows(w, Sources(choices), Words(choices)) && V.Mirrors(w, V.ItemsIn(choices))
    ensures w.reason == ReasoningOf(choices) && w.text == V.ContentOf(choices) && w.refusal == V.RefusalOf(choices)
    ensures Foreign(choices) ==> OwnIds(w)
  {
    hide *;
    var bytes := Concat(chunks);
    choices := ChoicesIn(parse, Until(DataTexts(bytes)));
    ChunkIndependence(contract, parse, chunks);
    FinalLogIs(contract, parse, Writes(chunks));
    FinalLogIs(contract, parse, [Bytes(bytes)]);
    w := RunOps(contract, parse, [Bytes(bytes)]).writer;
    var a := V.Absorb(contract, choices);
    RunInv(contract, parse, [Bytes(bytes)]);
    StreamHeard(contract, parse, bytes);
    V.TracksFields(a, choices);
    TracksMirror(a, choices);
    V.MirrorsClean(a, V.ItemsIn(choices));
    V.MirrorsFields(a, w, V.ItemsIn(choices));
    InFirsts(parse, Until(DataTexts(bytes)));
    ReasoningHeard(contract, choices);
    AbsorbTold(contract, choices);
    DoneTold(a, w, Sources(choices), Words(choices));
    if Foreign(choices) {
      ClearOwn(a, choices);
      DoneOwn(a, w);
    }
  }

  lemma DoneTold(a: Writer, w: Writer, sources: seq<Source>, words: seq<(Kind, string)>)
    requires Follows(a, sources, words) && w == a.(sawDone := w.sawDone)
    ensures Follows(w, sources, words)
  {
    hide Voice, HasKey;
  }

  lemma DoneOwn(a: Writer, w: Writer)
    requires OwnIds(a) && w == a.(sawDone := w.sawDone)
    ensures OwnIds(w)
  {
  }

  // ---- The output ----

  predicate ShowsMessage(text: string, refusal: string, item: Item) {
    && item.MessageItem? && item.status == Complete
    && ((OutputText, text) in item.content <==> text != "") && ((Refusal, refusal) in item.content <==> refusal != "")
    && |item.content| == Count(text != "") + Count(refusal != "")
  }

  /** The output item for a source: all that the chunks said of it. */
  predicate Renders(contract: Contract, choices: seq<Choice>, s: Source, item: Item) {
    match s
    case Thought => item == ReasoningItem(ReasoningOf(choices), Complete)
    case Speech => ShowsMessage(V.ContentOf(choices), V.RefusalOf(choices), item)
    case ToolCall(key) => Shows(contract, V.ItemsIn(choices), key, item)
  }

  /** A completed response lists one item for each source, in the order of first mention. */
  lemma OutputInOrder(contract: Contract, parse: string -> Payload, chunks: seq<string>, output: seq<Item>)
    requires EndsWith(FinalLog(contract, parse, Writes(chunks)), Completed, output) && Clear(parse, Concat(chunks))
    ensures var choices := ChoicesIn(parse, Until(DataTexts(Concat(chunks))));
            && |output| == |Sources(choices)|
            && forall i :: 0 <= i < |output| ==> Renders(contract, choices, Sources(choices)[i], output[i])
  {
    hide *;
    var w, choices := ClearRun(contract, parse, chunks);
    var c := Closed(contract, w);
    CompletedState(contract, w, FinalLog(contract, parse, Writes(chunks)), output);
    PlacesKept(contract, w, Sources(choices), Words(choices));
    PlacesCount(c, Sources(choices));
    forall i | 0 <= i < |output|
      ensures Renders(contract, choices, Sources(choices)[i], output[i])
    {
      var s := OutputSlot(contract, w, i);
      SlotRenders(contract, w, choices, s);
      PlaceOf(c, Sources(choices), s);
    }
  }

  /** The source behind an output slot. */
  function SourceAt(w: Writer, s: int): Source
    requires Used(w, s)
  {
    if s == REASONING then Thought else if s == MESSAGE then Speech else ToolCall(w.calls[s].key)
  }

  ghost predicate AllPlaced(c: Writer, sources: seq<Source>) {
    c.nextIdx == |sources| && forall s :: Used(c, s) ==> IndexAt(c, s) < |sources| && sources[IndexAt(c, s)] == SourceAt(c, s)
  }

  lemma PlacesCount(c: Writer, sources: seq<Source>)
    requires AllPlaced(c, sources)
    ensures |sources| == c.nextIdx
  {
  }

  lemma PlaceOf(c: Writer, sources: seq<Source>, s: int)
    requires AllPlaced(c, sources) && Used(c, s)
    ensures IndexAt(c, s) < |sources| && sources[IndexAt(c, s)] == SourceAt(c, s)
  {
  }

  lemma PlacesKept(contract: Contract, w: Writer, sources: seq<Source>, words: seq<(Kind, string)>)
    requires Inv(contract, w) && Follows(w, sources, words)
    ensures AllPlaced(Closed(contract, w), sources)
  {
    hide *;
    ClosedShut(contract, w);
    CheckStill(contract, w);
    CheckCalm(contract, w);
    StillTold(w, Check(contract, w), sources, words);
    OpenMeans(contract, w);
    OpenStays(w, Check(contract, w));
    ShutLives(contract, w, Closed(contract, w));
    LivesPlaced(Check(contract, w), Decided(contract, w), Closed(contract, w), sources, words);
  }

  lemma OpenStays(w: Writer, checked: Writer)
    requires Still(w, checked) && Calm(w, checked)
    requires w.rsOpen == (w.reason != "") && w.msgOpen == (w.text != "" || w.refusal != "")
    ensures checked.rsOpen == (checked.reason != "") && checked.msgOpen == (checked.text != "" || checked.refusal != "")
  {
    hide Voice;
  }

  lemma ShutLives(contract: Contract, w: Writer, c: Writer)
    requires Shut(contract, w, c)
    ensures SameButLive(Decided(contract, w), c) && Decided(contract, w) == Check(contract, w).(outcome := Decided(contract, w).outcome)
  {
    hide Check, Closing, Grows, Parts, SameButLive, Executed;
  }

  lemma LivesPlaced(checked: Writer, d: Writer, c: Writer, sources: seq<Source>, words: seq<(Kind, string)>)
    requires Follows(checked, sources, words) && d == checked.(outcome := d.outcome) && SameButLive(d, c)
    requires checked.rsOpen == (checked.reason != "") && checked.msgOpen == (checked.text != "" || checked.refusal != "")
    ensures AllPlaced(c, sources)
  {
    hide Voice, HasKey;
    forall s | Used(c, s)
      ensures IndexAt(c, s) < |sources| && sources[IndexAt(c, s)] == SourceAt(c, s)
    {
      SlotView(d, c, s);
      assert 0 <= s ==> SameCallButLive(d.calls[s], c.calls[s]);
    }
  }

  lemma OpenMeans(contract: Contract, w: Writer)
    requires Inv(contract, w)
    ensures w.rsOpen == (w.reason != "") && w.msgOpen == (w.text != "" || w.refusal != "")
  {
    hide Logged, Slots, Texts, Parts, Keyed, Executed, Open;
  }

  lemma SlotRenders(contract: Contract, w: Writer, choices: seq<Choice>, s: int)
    requires Inv(contract, w) && V.Mirrors(w, V.ItemsIn(choices))
    requires w.reason == ReasoningOf(choices) && w.text == V.ContentOf(choices) && w.refusal == V.RefusalOf(choices)
    requires var c := Closed(contract, w); OutcomeOf(c) == Completed && Used(c, s)
    ensures var c := Closed(contract, w); Renders(contract, choices, SourceAt(c, s), ItemAt(c, s))
  {
    hide *;
    var c := Closed(contract, w);
    CompletedIsShut(contract, w);
    ClosedSays(contract, w);
    ShutVoices(contract, w, c);
    UsedBounds(c, s);
    if s >= 0 {
      SameLength(w, c);
      V.MirrorsCount(w, V.ItemsIn(choices));
      MirroredCall(contract, w, c, V.ItemsIn(choices), s);
      BegunReady(contract, w, c, s);
      KeyKept(contract, w, V.ItemsIn(choices), s);
      CallShown(contract, V.ItemsIn(choices), c.calls[s].key, c.calls[s]);
    } else if s == MESSAGE {
      ShutParts(contract, w, c);
      MessageShows(c);
    }
    SlotItem(contract, choices, c, s);
  }

  lemma UsedBounds(c: Writer, s: int)
    requires Used(c, s)
    ensures (s == REASONING || s == MESSAGE || 0 <= s < |c.calls|) && REASONING < MESSAGE < 0
  {
  }

  lemma SameLength(w: Writer, c: Writer)
    requires SameCallsIn(w, c)
    ensures |c.calls| == |w.calls|
  {
  }

  lemma ShutParts(contract: Contract, w: Writer, c: Writer)
    requires Shut(contract, w, c)
    ensures Parts(c)
  {
    hide Parts;
  }

  lemma SlotItem(contract: Contract, choices: seq<Choice>, c: Writer, s: int)
    requires Used(c, s) && StatusOf(c) == Complete && c.reason == ReasoningOf(choices)
    requires s == MESSAGE ==> ShowsMessage(V.ContentOf(choices), V.RefusalOf(choices), MessageOf(c, Complete))
    requires s >= 0 ==> Shows(contract, V.ItemsIn(choices), c.calls[s].key, CallOf(c.calls[s], Complete))
    ensures Renders(contract, choices, SourceAt(c, s), ItemAt(c, s))
  {
    hide MessageOf, CallOf, StatusOf, Shows, ShowsMessage;
  }

  lemma MessageShows(c: Writer)
    requires Parts(c)
    ensures ShowsMessage(c.text, c.refusal, MessageOf(c, Complete))
  {
    var content := MessageContent(c);
    assert forall kind :: kind in c.parts ==> kind == OutputText || kind == Refusal;
    forall kind | kind in c.parts
      ensures (kind, PartText(c, kind)) in content
    {
      var i :| 0 <= i < |c.parts| && c.parts[i] == kind;
      assert content[i] == (kind, PartText(c, kind));
    }
    forall p | p in content
      ensures p.0 in c.parts
    {
    }
    PartsCount(c.parts);
  }

  lemma {:induction false} PartsCount(parts: seq<Kind>)
    requires forall i, j :: 0 <= i < j < |parts| ==> parts[i] != parts[j]
    requires Summary !in parts
    ensures |parts| == Count(OutputText in parts) + Count(Refusal in parts)
  {
    if parts != [] {
      var n := |parts| - 1;
      PartsCount(parts[..n]);
      assert parts[n] in parts && forall kind :: kind in parts <==> kind in parts[..n] || kind == parts[n];
    }
  }

  lemma KeyKept(contract: Contract, w: Writer, items: seq<ToolItem>, j: nat)
    requires Inv(contract, w) && V.Mirrors(w, items) && j < |V.KeysOf(items)|
    ensures j < |Closed(contract, w).calls| && Closed(contract, w).calls[j].key == V.KeysOf(items)[j]
  {
    ClosedShut(contract, w);
    CheckStill(contract, w);
    var checked, d, c := Check(contract, w), Decided(contract, w), Closed(contract, w);
    assert d == checked.(outcome := Some(OutcomeOf(checked)));
    hide Inv, Check, Closed, Closing, Parts, Grows, Voice, Executed, OutcomeOf, Decided, V.KeysOf, V.NameOf, V.IdOf, V.ArgumentsOfKey;
    assert V.MirrorsCall(items, V.KeysOf(items)[j], w.calls[j]);
    assert SameCallButLive(d.calls[j], c.calls[j]);
  }

  // ---- Ids ----

  /** Ids made up by the writer come from its counter, and no two calls share one. */
  ghost predicate OwnIds(w: Writer) {
    && (forall j :: 0 <= j < |w.calls| && w.calls[j].id.Generated? ==> w.calls[j].id.n < w.minted)
    && (forall i, j :: 0 <= i < j < |w.calls| && w.calls[i].id.Generated? ==> w.calls[i].id != w.calls[j].id)
  }

  lemma {:induction false} AssignOwn(w: Writer, i: nat)
    requires OwnIds(w)
    ensures OwnIds(AssignIds(w, i))
    decreases |w.calls| - i
  {
    if i < |w.calls| {
      if w.calls[i].id != NoId {
        AssignOwn(w, i + 1);
      } else {
        var w1 := SetCall(w, i, w.calls[i].(id := Generated(w.minted))).(minted := w.minted + 1);
        assert OwnIds(w1);
        hide AssignIds;
        AssignOwn(w1, i + 1);
        AssignNext(w, i);
      }
    }
  }

  lemma AssignNext(w: Writer, i: nat)
    requires i < |w.calls| && w.calls[i].id == NoId
    ensures AssignIds(w, i) == AssignIds(SetCall(w, i, w.calls[i].(id := Generated(w.minted))).(minted := w.minted + 1), i + 1)
  {
  }

  /** The upstream's own ids are never ones the writer makes up. */
  predicate Foreign(choices: seq<Choice>) {
    forall i :: 0 <= i < |V.Fragments(choices)| && V.Fragments(choices)[i].ToolDelta? ==> !V.Fragments(choices)[i].id.Generated?
  }

  lemma {:induction false} ForeignId(items: seq<ToolItem>, key: int)
    requires forall i :: 0 <= i < |items| && items[i].ToolDelta? ==> !items[i].id.Generated?
    ensures !V.IdOf(items, key).Generated?
  {
    if items != [] {
      ForeignId(items[..|items| - 1], key);
    }
  }

  lemma {:induction false} LegacyId(fs: seq<FunctionDelta>)
    ensures V.IdOf(V.LegacyItems(fs), V.LEGACY_KEY) in {NoId, Generated(0)}
  {
    if fs != [] {
      var n := |fs| - 1;
      LegacyId(fs[..n]);
      V.LegacyItemsAppend(fs[..n], fs[n]);
      assert fs == fs[..n] + [fs[n]];
      assert V.LegacyItems(fs)[..n] == V.LegacyItems(fs[..n]);
    }
  }

  lemma ClearOwn(a: Writer, choices: seq<Choice>)
    requires V.Tracks(a, choices) && Foreign(choices)
    ensures OwnIds(a)
  {
    TracksMeans(a, choices);
    TracksMinted(a, choices);
    var fs := V.LegacyOf(choices);
    var items := if fs == [] then V.Fragments(choices) else V.LegacyItems(fs);
    V.LegacyKeys(fs);
    LegacyId(fs);
    V.MirrorsCount(a, items);
    hide V.Tracks, V.Fragments, V.LegacyOf, V.LegacyItems, V.KeysOf, V.IdOf, V.NameOf, V.ArgumentsOfKey;
    forall j | 0 <= j < |a.calls|
      ensures if fs == [] then !a.calls[j].id.Generated? else j == 0 && a.calls[j].id in {NoId, Generated(0)}
    {
      assert V.MirrorsCall(items, V.KeysOf(items)[j], a.calls[j]);
      if fs == [] {
        ForeignId(items, V.KeysOf(items)[j]);
      }
    }
  }

  lemma TracksMinted(a: Writer, choices: seq<Choice>)
    requires V.Tracks(a, choices)
    ensures a.minted == Count(V.LegacyOf(choices) != [])
  {
    hide V.Mirrors, V.ItemsIn, V.LegacyOf, V.ContentOf, V.RefusalOf, V.FinishOf;
  }

  lemma CheckOwn(contract: Contract, w: Writer)
    requires OwnIds(w) && Verdict(contract, w).None? && !CutShort(w.finishReason)
    ensures OwnIds(Check(contract, w))
  {
    var w1 := AssignIds(w, 0);
    AssignOwn(w, 0);
    AssignIdsNames(w, 0);
    FlushCallsSame(w1, 0);
    FlushMints(w1, 0);
    AllNamed(w1);
    SameOwn(w1, FlushFrom(w1, 0));
    hide Verdict, AssignIds, FlushFrom, OwnIds;
  }

  ghost predicate NoneMissing(w: Writer) {
    forall j :: 0 <= j < |w.calls| ==> w.calls[j].id != NoId
  }

  lemma AllNamed(w: Writer)
    requires forall j :: 0 <= j < |w.calls| ==> w.calls[j].id != NoId
    ensures NoneMissing(w)
  {
  }

  lemma SameOwn(w: Writer, w': Writer)
    requires OwnIds(w) && SameCallsIn(w, w') && NoneMissing(w) && w'.minted == w.minted
    ensures OwnIds(w')
  {
    assert forall j :: 0 <= j < |w.calls| ==> SameCall(w.calls[j], w'.calls[j]);
  }

  lemma {:induction false} FlushMints(w: Writer, i: nat)
    ensures FlushFrom(w, i).minted == w.minted
    decreases |w.calls| - i
  {
    if i < |w.calls| && (w.calls[i].live || Ready(w.calls[i])) {
      FlushOneShape(w, i);
      assert FlushOne(w, i).minted == w.minted;
      hide FlushOne, Ready;
      FlushMints(FlushOne(w, i), i + 1);
    }
  }

  /** The client can tell the calls of a completed response apart: no made-up id is given twice. */
  lemma IdsAreFresh(contract: Contract, parse: string -> Payload, chunks: seq<string>, output: seq<Item>, i: nat, k: nat)
    requires EndsWith(FinalLog(contract, parse, Writes(chunks)), Completed, output) && Clear(parse, Concat(chunks))
    requires Foreign(ChoicesIn(parse, Until(DataTexts(Concat(chunks)))))
    requires i < |output| && k < |output| && i != k && output[i].CallItem? && output[k].CallItem? && output[i].callId.Generated?
    ensures output[i].callId != output[k].callId
  {
    hide *;
    var w, choices := ClearRun(contract, parse, chunks);
    CompletedState(contract, w, FinalLog(contract, parse, Writes(chunks)), output);
    ClosedOwn(contract, w, FinalLog(contract, parse, Writes(chunks)), output);
    var s := OutputSlot(contract, w, i);
    var t := OutputSlot(contract, w, k);
    TellsApart(Closed(contract, w), s, t);
  }

  lemma ClosedOwn(contract: Contract, w: Writer, log: seq<Sent>, output: seq<Item>)
    requires Inv(contract, w) && OwnIds(w) && log == Finish(contract, w).sent && EndsWith(log, Completed, output)
    ensures OwnIds(Closed(contract, w))
  {
    hide *;
    OutcomeIs(contract, w, log, Completed, output);
    NotShort(w.finishReason);
    CheckOwn(contract, w);
    ClosedShut(contract, w);
    ShutLives(contract, w, Closed(contract, w));
    LivesOwn(Check(contract, w), Decided(contract, w), Closed(contract, w));
  }

  lemma NotShort(finish: string)
    ensures CutShort(finish) ==> finish == "length" || finish == "content_filter"
  {
  }

  lemma LivesOwn(checked: Writer, d: Writer, c: Writer)
    requires OwnIds(checked) && d == checked.(outcome := d.outcome) && SameButLive(d, c)
    ensures OwnIds(c)
  {
    assert forall j :: 0 <= j < |d.calls| ==> SameCallButLive(d.calls[j], c.calls[j]);
  }

  lemma TellsApart(c: Writer, s: int, t: int)
    requires OwnIds(c) && Used(c, s) && Used(c, t) && IndexAt(c, s) != IndexAt(c, t)
    requires ItemAt(c, s).CallItem? && ItemAt(c, t).CallItem? && ItemAt(c, s).callId.Generated?
    ensures ItemAt(c, s).callId != ItemAt(c, t).callId
  {
  }
}
