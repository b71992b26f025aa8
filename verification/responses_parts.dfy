/** The streaming writer follows the grammar of content parts, in every run and to the end. */
module ResponsesParts {
  import opened Wrappers
  import opened ResponseEvents
  import opened ToolPolicy
  import opened Text
  import opened ResponsesStream
  import opened ResponsesInvariant
  import opened ResponsesSteps
  import opened ResponsesClosing
  import opened ResponsesRuns
  import P = ResponseParts

  // ---- What the record of parts shows of a running writer ----

  function MessageParts(w: Writer): (r: seq<P.Part>)
    ensures |r| == |w.parts|
  {
    seq(|w.parts|, k requires 0 <= k < |w.parts| => P.Flowing(w.parts[k], PartText(w, w.parts[k])))
  }

  function ReasoningParts(w: Writer): seq<P.Part> {
    if w.rsPart then [P.Flowing(Summary, w.reason)] else []
  }

  function Shown(w: Writer, i: nat): seq<P.Part> {
    if w.rsOpen && i == w.rsIdx then ReasoningParts(w)
    else if w.msgOpen && i == w.msgIdx then MessageParts(w)
    else []
  }

  ghost predicate Recorded(w: Writer) {
    var t := P.TrackAll(w.sent);
    t.Track? && t.told == map[] && forall i: nat :: P.At(t.parts, i) == Shown(w, i)
  }

  /** The fields of text, refusal and reasoning, as the invariant ties them. */
  predicate Voiced(w: Writer) {
    && w.rsOpen == w.rsPart == (w.reason != "")
    && w.msgOpen == (w.text != "" || w.refusal != "")
    && (w.rsOpen ==> w.rsIdx < w.nextIdx)
    && (w.msgOpen ==> w.msgIdx < w.nextIdx)
    && (w.rsOpen && w.msgOpen ==> w.rsIdx != w.msgIdx)
    && Parts(w)
  }

  lemma InvVoiced(contract: Contract, w: Writer)
    requires Inv(contract, w)
    ensures Voiced(w)
  {
    hide Logged, Texts, Keyed, Open, Executed, Parts;
    assert w.rsOpen ==> Used(w, REASONING) && Slot(w, REASONING);
    assert w.msgOpen ==> Used(w, MESSAGE) && Slot(w, MESSAGE);
    assert w.rsOpen && w.msgOpen ==> Apart(w, REASONING, MESSAGE);
  }

  lemma EmitTracks(w: Writer, e: Event)
    ensures P.TrackAll(Emit(w, e).sent) == P.PartStep(P.TrackAll(w.sent), e)
  {
    EmitFields(w, e);
    P.TrackAppend(w.sent, Sent(w.nextSeq, e));
    hide Emit;
  }

  // ---- Steps that do not touch parts ----

  predicate SameVoice(w: Writer, w': Writer) {
    && w'.rsOpen == w.rsOpen && w'.rsPart == w.rsPart && w'.rsIdx == w.rsIdx && w'.reason == w.reason
    && w'.msgOpen == w.msgOpen && w'.msgIdx == w.msgIdx && w'.parts == w.parts
    && w'.text == w.text && w'.refusal == w.refusal
  }

  predicate Untold(t: P.Track) {
    t.Track? ==> t.told == map[]
  }

  /** Nothing about parts, as long as no arguments were told. */
  ghost predicate Silent(w: Writer, w': Writer) {
    SameVoice(w, w') && (Untold(P.TrackAll(w.sent)) ==> P.TrackAll(w'.sent) == P.TrackAll(w.sent))
  }

  lemma SilentRecorded(w: Writer, w': Writer)
    requires Silent(w, w') && Recorded(w)
    ensures Recorded(w')
  {
    hide P.TrackAll;
    assert MessageParts(w') == MessageParts(w);
    assert forall i: nat :: Shown(w', i) == Shown(w, i);
  }

  /** No event at all. */
  predicate Unheard(w: Writer, w': Writer) {
    SameVoice(w, w') && w'.sent == w.sent
  }

  lemma UnheardSilent(w: Writer, w': Writer)
    requires Unheard(w, w')
    ensures Silent(w, w')
  {
    hide P.TrackAll;
  }

  lemma SilentChain(w: Writer, w': Writer, w'': Writer)
    requires Silent(w, w') && Silent(w', w'')
    ensures Silent(w, w'')
  {
    hide P.TrackAll;
  }

  predicate Wordless(e: Event) {
    e.ItemAdded? || e.ArgumentsDelta?
  }

  lemma EmitSilent(w: Writer, e: Event)
    requires Wordless(e)
    ensures Silent(w, Emit(w, e))
  {
    EmitTracks(w, e);
    EmitFields(w, e);
    hide P.TrackAll, Emit;
  }

  lemma OpenCallSilent(w: Writer, i: nat)
    requires i < |w.calls|
    ensures Silent(w, OpenCall(w, i))
  {
    var call := w.calls[i].(live := true, begun := true);
    var w0 := w.(calls := w.calls[i := call]);
    UnheardSilent(w, w0);
    EmitSilent(w0, ItemAdded(call.outIdx, CallOf(call, InProgress)));
    hide Silent, Emit, CallOf;
    SilentChain(w, w0, OpenCall(w, i));
  }

  lemma SendArgumentsSilent(w: Writer, i: nat)
    requires i < |w.calls|
    ensures Silent(w, SendArguments(w, i))
  {
    var call := w.calls[i];
    UnheardSilent(w, w);
    if !call.custom && call.sent < |call.arguments| {
      var w0 := w.(calls := w.calls[i := call.(sent := |call.arguments|)]);
      UnheardSilent(w, w0);
      hide Silent, Emit;
      EmitSilent(w0, ArgumentsDelta(call.outIdx, call.arguments[call.sent..]));
      SilentChain(w, w0, SendArguments(w, i));
    }
    hide Silent;
  }

  lemma FlushFromSilent(w: Writer, i: nat)
    ensures Silent(w, FlushFrom(w, i))
    decreases |w.calls| - i
  {
    hide P.TrackAll, OpenCall, SendArguments;
    if i < |w.calls| && (w.calls[i].live || Ready(w.calls[i])) {
      var w1 := if w.calls[i].live then w else OpenCall(w, i);
      FlushOneShape(w, i);
      if !w.calls[i].live {
        OpenCallSilent(w, i);
        EmitCalls(w, i);
      }
      SendArgumentsSilent(w1, i);
      FlushFromSilent(FlushOne(w, i), i + 1);
    }
  }

  lemma UnheardChain(w: Writer, w': Writer, w'': Writer)
    requires Unheard(w, w') && Unheard(w', w'')
    ensures Unheard(w, w'')
  {
  }

  lemma SetCallUnheard(w: Writer, i: nat, call: Call)
    requires i < |w.calls|
    ensures Unheard(w, SetCall(w, i, call))
  {
  }

  lemma FailUnheard(w: Writer, error: string)
    ensures Unheard(w, Fail(w, error))
  {
  }

  lemma ApplyFunctionUnheard(contract: Contract, w: Writer, i: nat, f: FunctionDelta)
    requires i < |w.calls|
    ensures Unheard(w, ApplyFunction(contract, w, i, f))
  {
    hide NameCall, SetCall, Fail, Unheard;
    match NameCall(contract, w.calls[i], f.name)
    case None => FailUnheard(w, "upstream changed a streamed tool name");
    case Some(named) =>
      match f.arguments
      case NoArguments => SetCallUnheard(w, i, named);
      case NotAString =>
        SetCallUnheard(w, i, named);
        FailUnheard(SetCall(w, i, named), "upstream tool arguments must be a JSON string");
        UnheardChain(w, SetCall(w, i, named), Fail(SetCall(w, i, named), "upstream tool arguments must be a JSON string"));
      case Arguments(text) => SetCallUnheard(w, i, named.(argumentsSeen := true, arguments := named.arguments + text));
  }

  lemma NewCallUnheard(w: Writer, key: int)
    ensures Unheard(w, NewCall(w, key))
  {
    hide FindCall;
  }

  lemma ApplyItemUnheard(contract: Contract, w: Writer, item: ToolItem)
    ensures Unheard(w, ApplyItem(contract, w, item))
  {
    hide ApplyFunction, NewCall, SetCall, Fail, Unheard;
    match item
    case NotAnObject => FailUnheard(w, "upstream contained an invalid tool call");
    case ToolDelta(key, id, fn) =>
      var w1 := NewCall(w, key);
      NewCallUnheard(w, key);
      NewCallFound(w, key);
      var i := FindCall(w1.calls, key);
      var call := w1.calls[i];
      if id != NoId && call.id != NoId && call.id != id {
        FailUnheard(w1, "upstream changed a streamed tool call identity");
        UnheardChain(w, w1, ApplyItem(contract, w, item));
      } else {
        var w2 := if id != NoId then SetCall(w1, i, call.(id := id)) else w1;
        if id != NoId {
          SetCallUnheard(w1, i, call.(id := id));
          UnheardChain(w, w1, w2);
          SetCallSize(w1, i, call.(id := id));
        }
        if fn.Some? {
          ApplyFunctionUnheard(contract, w2, i, fn.value);
          UnheardChain(w, w2, ApplyItem(contract, w, item));
        }
      }
  }

  lemma SetCallSize(w: Writer, i: nat, call: Call)
    requires i < |w.calls|
    ensures |SetCall(w, i, call).calls| == |w.calls|
  {
  }

  lemma ApplyItemsSilent(contract: Contract, w: Writer, items: seq<ToolItem>)
    ensures Silent(w, ApplyItems(contract, w, items))
    decreases |items|
  {
    hide P.TrackAll, ApplyItem;
    if items == [] || w.error.Some? {
    } else {
      ApplyItemUnheard(contract, w, items[0]);
      ApplyItemsSilent(contract, ApplyItem(contract, w, items[0]), items[1..]);
    }
  }

  lemma ToolCallDeltaSilent(contract: Contract, w: Writer, items: seq<ToolItem>)
    ensures Silent(w, ToolCallDelta(contract, w, items))
  {
    hide P.TrackAll, ApplyItems, FlushFrom;
    ApplyItemsSilent(contract, w, items);
    FlushFromSilent(ApplyItems(contract, w, items), 0);
  }

  lemma ModernSilent(contract: Contract, w: Writer, tools: ToolField)
    ensures Silent(w, CalledModern(contract, w, tools).0)
  {
    hide P.TrackAll, ToolCallDelta;
    if tools.Tools? {
      ToolCallDeltaSilent(contract, w, tools.items);
    }
  }

  lemma LegacySilent(contract: Contract, w: Writer, f: FunctionDelta)
    ensures Silent(w, LegacyDelta(contract, w, f))
  {
    var w1 := if w.legacyId.None? then w.(legacyId := Some(w.minted), minted := w.minted + 1) else w;
    UnheardSilent(w, w);
    UnheardSilent(w, w1);
    FailUnheard(w, "upstream mixed legacy and modern tool calls");
    UnheardSilent(w, Fail(w, "upstream mixed legacy and modern tool calls"));
    hide Silent, ToolCallDelta, Fail, Unheard;
    var items := [ToolDelta(-1, Generated(w1.legacyId.value), Some(f))];
    ToolCallDeltaSilent(contract, w1, items);
    SilentChain(w, w1, ToolCallDelta(contract, w1, items));
  }

  lemma CalledLegacySilent(contract: Contract, w: Writer, legacy: LegacyField)
    ensures Silent(w, CalledLegacy(contract, w, legacy).0)
  {
    hide P.TrackAll, LegacyDelta;
    if legacy.Legacy? {
      LegacySilent(contract, w, legacy.fn);
    }
  }

  lemma AssignIdsSilent(w: Writer, i: nat)
    ensures Silent(w, AssignIds(w, i))
    decreases |w.calls| - i
  {
    hide P.TrackAll;
    if i < |w.calls| {
      if w.calls[i].id != NoId {
        AssignIdsSilent(w, i + 1);
      } else {
        AssignIdsSilent(SetCall(w, i, w.calls[i].(id := Generated(w.minted))).(minted := w.minted + 1), i + 1);
      }
    }
  }

  lemma CheckSilent(contract: Contract, w: Writer)
    ensures Silent(w, Check(contract, w))
  {
    hide P.TrackAll, AssignIds, FlushFrom, Verdict;
    AssignIdsSilent(w, 0);
    FlushFromSilent(AssignIds(w, 0), 0);
  }

  // ---- Reasoning, text and refusal ----

  /** The record after an event that concerns one part. */
  lemma RecordAdded(t: P.Track, i: nat, kind: Kind)
    requires t.Track?
    ensures var t' := P.PartStep(t, PartAdded(i, |P.At(t.parts, i)|, kind));
            t'.Track? && t'.told == t.told && forall j: nat :: P.At(t'.parts, j) == if j == i then P.At(t.parts, i) + [P.Flowing(kind, "")] else P.At(t.parts, j)
  {
  }

  lemma RecordDelta(t: P.Track, i: nat, p: nat, kind: Kind, s: string, before: string)
    requires t.Track? && p < |P.At(t.parts, i)| && P.At(t.parts, i)[p] == P.Flowing(kind, before)
    ensures var t' := P.PartStep(t, Delta(i, p, kind, s));
            t'.Track? && t'.told == t.told && forall j: nat :: P.At(t'.parts, j) == if j == i then P.At(t.parts, i)[p := P.Flowing(kind, before + s)] else P.At(t.parts, j)
  {
  }

  lemma ReasoningRecorded(w: Writer, s: string)
    requires Voiced(w) && Recorded(w) && s != ""
    ensures Recorded(ReasoningDelta(w, s))
  {
    hide P.TrackAll, P.PartStep, P.At, Emit, Parts;
    var t0 := P.TrackAll(w.sent);
    var w1 := OpenReasoning(w);
    if !w.rsOpen {
      OpenReasoningFields(w);
      EmitTracks(w.(rsIdx := w.nextIdx, nextIdx := w.nextIdx + 1), ItemAdded(w.nextIdx, ReasoningItem(w.reason, InProgress)));
      AddedSilent(t0, w.nextIdx, ReasoningItem(w.reason, InProgress));
      assert P.TrackAll(w1.sent) == t0;
      assert P.At(t0.parts, w1.rsIdx) == [];
      var w2 := Emit(w1, PartAdded(w1.rsIdx, 0, Summary)).(rsPart := true);
      EmitTracks(w1, PartAdded(w1.rsIdx, 0, Summary));
      RecordAdded(t0, w1.rsIdx, Summary);
      EmitFields(w1, PartAdded(w1.rsIdx, 0, Summary));
      var t2 := P.TrackAll(w2.sent);
      var w3 := w2.(reason := w2.reason + s);
      EmitTracks(w3, Delta(w2.rsIdx, 0, Summary, s));
      EmitFields(w3, Delta(w2.rsIdx, 0, Summary, s));
      RecordDelta(t2, w1.rsIdx, 0, Summary, s, "");
      assert "" + s == s;
      ShownReasoning(w, ReasoningDelta(w, s));
    } else {
      var w3 := w.(reason := w.reason + s);
      EmitTracks(w3, Delta(w.rsIdx, 0, Summary, s));
      EmitFields(w3, Delta(w.rsIdx, 0, Summary, s));
      RecordDelta(t0, w.rsIdx, 0, Summary, s, w.reason);
      ShownReasoning(w, ReasoningDelta(w, s));
    }
  }

  lemma OpenReasoningFields(w: Writer)
    requires !w.rsOpen
    ensures var w1 := OpenReasoning(w);
            && w1.rsIdx == w.nextIdx && w1.rsOpen && w1.rsPart == w.rsPart && w1.reason == w.reason
            && w1.sent == Emit(w.(rsIdx := w.nextIdx, nextIdx := w.nextIdx + 1), ItemAdded(w.nextIdx, ReasoningItem(w.reason, InProgress))).sent
            && w1.msgOpen == w.msgOpen && w1.msgIdx == w.msgIdx && w1.parts == w.parts && w1.text == w.text && w1.refusal == w.refusal
  {
  }

  lemma AddedSilent(t: P.Track, i: nat, item: Item)
    ensures P.PartStep(t, ItemAdded(i, item)) == t
  {
  }

  lemma ShownReasoning(w: Writer, w': Writer)
    requires w'.rsOpen && w'.rsPart
    requires w'.msgOpen == w.msgOpen && w'.msgIdx == w.msgIdx && w'.parts == w.parts && w'.text == w.text && w'.refusal == w.refusal
    requires if w.rsOpen then w'.rsIdx == w.rsIdx else w'.rsIdx == w.nextIdx
    requires Voiced(w)
    ensures forall i: nat :: Shown(w', i) == if i == w'.rsIdx then [P.Flowing(Summary, w'.reason)] else Shown(w, i)
  {
    assert MessageParts(w') == MessageParts(w);
  }

  lemma MessageShown(w: Writer, w': Writer)
    requires w'.msgOpen
    requires w'.rsOpen == w.rsOpen && w'.rsPart == w.rsPart && w'.rsIdx == w.rsIdx && w'.reason == w.reason
    requires if w.msgOpen then w'.msgIdx == w.msgIdx else w'.msgIdx == w.nextIdx
    requires Voiced(w)
    ensures forall i: nat :: Shown(w', i) == if i == w'.msgIdx then MessageParts(w') else Shown(w, i)
  {
  }

  lemma OpenMessageRecorded(w: Writer)
    requires Voiced(w) && Recorded(w)
    ensures var w1 := OpenMessage(w);
            && P.TrackAll(w1.sent) == P.TrackAll(w.sent)
            && w1 == w.(sent := w1.sent, nextSeq := w1.nextSeq, msgIdx := w1.msgIdx, nextIdx := w1.nextIdx, msgOpen := true)
            && (w1.msgIdx == if w.msgOpen then w.msgIdx else w.nextIdx)
            && P.At(P.TrackAll(w.sent).parts, w1.msgIdx) == MessageParts(w)
  {
    if !w.msgOpen {
      var w0 := w.(msgIdx := w.nextIdx, nextIdx := w.nextIdx + 1);
      EmitTracks(w0, ItemAdded(w.nextIdx, MessageItem([], InProgress)));
      AddedSilent(P.TrackAll(w.sent), w.nextIdx, MessageItem([], InProgress));
      EmitFields(w0, ItemAdded(w.nextIdx, MessageItem([], InProgress)));
      NoPartsYet(w);
      assert Shown(w, w.nextIdx) == [];
    } else {
      assert Shown(w, w.msgIdx) == MessageParts(w);
    }
    hide P.TrackAll, P.PartStep, P.At, Emit, Parts;
  }

  lemma NoPartsYet(w: Writer)
    requires Voiced(w) && !w.msgOpen
    ensures w.parts == []
  {
    SomePart(w.parts);
  }

  lemma SomePart(parts: seq<Kind>)
    ensures parts == [] || OutputText in parts || Refusal in parts || Summary in parts
  {
    if parts != [] {
      var kind := parts[0];
      assert kind in parts;
      assert kind == OutputText || kind == Refusal || kind == Summary;
    }
  }

  /** The record is that of others, and of the writer's message. */
  ghost predicate MessageRecorded(w: Writer, others: map<nat, seq<P.Part>>) {
    var t := P.TrackAll(w.sent);
    t.Track? && t.told == map[] && forall i: nat :: P.At(t.parts, i) == if i == w.msgIdx then MessageParts(w) else P.At(others, i)
  }

  /** The record moves at the message only. */
  lemma MessageMoves(w: Writer, w': Writer, others: map<nat, seq<P.Part>>, t': P.Track)
    requires MessageRecorded(w, others) && w'.msgIdx == w.msgIdx && P.TrackAll(w'.sent) == t' && t'.Track? && t'.told == map[]
    requires forall i: nat :: P.At(t'.parts, i) == if i == w.msgIdx then MessageParts(w') else P.At(P.TrackAll(w.sent).parts, i)
    ensures MessageRecorded(w', others)
  {
    hide P.TrackAll, P.At, MessageParts;
  }

  lemma AddPart(w: Writer, kind: Kind, others: map<nat, seq<P.Part>>)
    requires MessageRecorded(w, others) && PartText(w, kind) == ""
    ensures var w1 := Emit(w.(parts := w.parts + [kind]), PartAdded(w.msgIdx, |w.parts|, kind));
            && w1 == w.(sent := w1.sent, nextSeq := w1.nextSeq, parts := w.parts + [kind])
            && MessageRecorded(w1, others)
  {
    var w0 := w.(parts := w.parts + [kind]);
    var e := PartAdded(w.msgIdx, |w.parts|, kind);
    var w1 := Emit(w0, e);
    EmitTracks(w0, e);
    EmitFields(w0, e);
    hide P.TrackAll, P.PartStep, P.At, Emit;
    GrownParts(w, w1, kind);
    var t := P.TrackAll(w.sent);
    assert P.At(t.parts, w.msgIdx) == MessageParts(w);
    RecordAdded(t, w.msgIdx, kind);
    var t' := P.PartStep(t, e);
    hide MessageRecorded, MessageParts;
    MessageMoves(w, w1, others, t');
  }

  lemma GrownParts(w: Writer, w1: Writer, kind: Kind)
    requires w1.parts == w.parts + [kind] && w1.text == w.text && w1.refusal == w.refusal && w1.reason == w.reason && PartText(w, kind) == ""
    ensures MessageParts(w1) == MessageParts(w) + [P.Flowing(kind, "")]
  {
  }

  lemma EnsurePartRecorded(w: Writer, kind: Kind)
    requires Voiced(w) && Recorded(w) && kind != Summary
    ensures var w1 := EnsurePart(w, kind);
            && w1 == w.(sent := w1.sent, nextSeq := w1.nextSeq, msgIdx := w1.msgIdx, nextIdx := w1.nextIdx, msgOpen := true, parts := w1.parts)
            && (w1.msgIdx == if w.msgOpen then w.msgIdx else w.nextIdx)
            && w1.parts == (if kind in w.parts then w.parts else w.parts + [kind])
            && MessageRecorded(w1, P.TrackAll(w.sent).parts)
  {
    var w0 := OpenMessage(w);
    OpenMessageRecorded(w);
    PartFound(w.parts, kind);
    assert MessageParts(w0) == MessageParts(w);
    assert MessageRecorded(w0, P.TrackAll(w.sent).parts);
    if kind !in w.parts {
      PartTextEmpty(w, kind);
      hide P.TrackAll, P.PartStep, P.At, Emit, IndexOf, OpenMessage, Voiced, Parts, Shown, MessageRecorded, MessageParts;
      AddPart(w0, kind, P.TrackAll(w.sent).parts);
    }
    hide P.TrackAll, P.PartStep, P.At, Emit, IndexOf, OpenMessage, Voiced, Parts, Shown, MessageRecorded, MessageParts;
  }

  lemma PartTextEmpty(w: Writer, kind: Kind)
    requires Parts(w) && kind != Summary && kind !in w.parts
    ensures PartText(w, kind) == ""
  {
  }

  /** A delta of a part that exists. */
  lemma SayMore(w: Writer, kind: Kind, s: string, others: map<nat, seq<P.Part>>)
    requires MessageRecorded(w, others) && kind in w.parts && kind != Summary && Summary !in w.parts
    requires forall i, j :: 0 <= i < j < |w.parts| ==> w.parts[i] != w.parts[j]
    ensures var w1 := if kind == Refusal then w.(refusal := w.refusal + s) else w.(text := w.text + s);
            var w2 := Emit(w1, Delta(w.msgIdx, IndexOf(w.parts, kind), kind, s));
            && w2 == w1.(sent := w2.sent, nextSeq := w2.nextSeq)
            && MessageRecorded(w2, others)
  {
    var w1 := if kind == Refusal then w.(refusal := w.refusal + s) else w.(text := w.text + s);
    PartFound(w.parts, kind);
    hide IndexOf;
    var k := IndexOf(w.parts, kind);
    var e := Delta(w.msgIdx, k, kind, s);
    var w2 := Emit(w1, e);
    EmitTracks(w1, e);
    EmitFields(w1, e);
    hide P.TrackAll, P.PartStep, P.At, Emit;
    SaidParts(w, w2, kind, k, s);
    var t := P.TrackAll(w.sent);
    assert P.At(t.parts, w.msgIdx) == MessageParts(w);
    RecordDelta(t, w.msgIdx, k, kind, s, PartText(w, kind));
    var t' := P.PartStep(t, e);
    hide MessageRecorded, MessageParts;
    MessageMoves(w, w2, others, t');
  }

  lemma SaidParts(w: Writer, w1: Writer, kind: Kind, k: nat, s: string)
    requires w1.parts == w.parts && w1.reason == w.reason && k < |w.parts| && w.parts[k] == kind && kind != Summary
    requires w1.text == (if kind == Refusal then w.text else w.text + s) && w1.refusal == (if kind == Refusal then w.refusal + s else w.refusal)
    requires forall i, j :: 0 <= i < j < |w.parts| ==> w.parts[i] != w.parts[j]
    ensures MessageParts(w1) == MessageParts(w)[k := P.Flowing(kind, PartText(w, kind) + s)]
    ensures MessageParts(w)[k] == P.Flowing(kind, PartText(w, kind))
  {
    assert forall j :: 0 <= j < |w.parts| && j != k ==> w.parts[j] != kind;
  }

  lemma MessageIsShown(w: Writer, w': Writer)
    requires Voiced(w) && Recorded(w) && MessageRecorded(w', P.TrackAll(w.sent).parts) && w'.msgOpen
    requires w'.rsOpen == w.rsOpen && w'.rsPart == w.rsPart && w'.rsIdx == w.rsIdx && w'.reason == w.reason
    requires if w.msgOpen then w'.msgIdx == w.msgIdx else w'.msgIdx == w.nextIdx
    ensures Recorded(w')
  {
    hide P.TrackAll, P.At;
    MessageShown(w, w');
    hide Voiced, Shown, MessageParts;
  }

  lemma TextRecorded(w: Writer, kind: Kind, s: string)
    requires Voiced(w) && Recorded(w) && kind != Summary
    ensures Recorded(TextDelta(w, kind, s))
  {
    var w1 := EnsurePart(w, kind);
    EnsurePartRecorded(w, kind);
    PartsDistinct(w, w1, kind);
    hide P.TrackAll, P.At, Emit, EnsurePart, MessageParts, Recorded, MessageRecorded, Voiced, IndexOf;
    SayMore(w1, kind, s, P.TrackAll(w.sent).parts);
    MessageIsShown(w, TextDelta(w, kind, s));
  }

  lemma PartsDistinct(w: Writer, w1: Writer, kind: Kind)
    requires Parts(w) && kind != Summary && w1.parts == (if kind in w.parts then w.parts else w.parts + [kind])
    ensures forall i, j :: 0 <= i < j < |w1.parts| ==> w1.parts[i] != w1.parts[j]
    ensures Summary !in w1.parts
  {
  }

  // ---- Runs ----

  /** Keeps the invariant, and the record of parts with it. */
  ghost predicate Records(contract: Contract, w: Writer, w': Writer) {
    && Keeps(contract, w, w')
    && (Inv(contract, w) && Recorded(w) ==> Recorded(w'))
  }

  lemma RecordsChain(contract: Contract, w: Writer, w': Writer, w'': Writer)
    requires Records(contract, w, w') && Records(contract, w', w'')
    ensures Records(contract, w, w'')
  {
    hide Recorded, Inv, Grows;
    Chain(contract, w, w', w'');
  }

  lemma SilentRecords(contract: Contract, w: Writer, w': Writer)
    requires Silent(w, w') && Keeps(contract, w, w')
    ensures Records(contract, w, w')
  {
    hide Keeps, Silent, Inv;
    if Recorded(w) {
      SilentRecorded(w, w');
    }
  }

  lemma TouchRecords(contract: Contract, w: Writer, w': Writer)
    requires SameItems(w, w')
    ensures Records(contract, w, w')
  {
    TouchKeeps(contract, w, w');
    hide P.TrackAll, Keeps;
    SilentRecords(contract, w, w');
  }

  lemma ReasoningRecords(contract: Contract, w: Writer, s: string)
    requires s != ""
    ensures Records(contract, w, ReasoningDelta(w, s))
  {
    ReasoningKeeps(contract, w, s);
    hide Keeps, ReasoningDelta, Inv, Voiced, Recorded;
    if Inv(contract, w) && Recorded(w) {
      InvVoiced(contract, w);
      ReasoningRecorded(w, s);
    }
  }

  lemma TextRecords(contract: Contract, w: Writer, kind: Kind, s: string)
    requires s != "" && kind != Summary
    ensures Records(contract, w, TextDelta(w, kind, s))
  {
    TextKeeps(contract, w, kind, s);
    hide Keeps, TextDelta, Inv, Voiced, Recorded;
    if Inv(contract, w) && Recorded(w) {
      InvVoiced(contract, w);
      TextRecorded(w, kind, s);
    }
  }

  lemma SpokenRecords(contract: Contract, w: Writer, d: ChoiceDelta)
    ensures Records(contract, w, Spoken(w, d))
  {
    hide Records, ReasoningDelta, TextDelta;
    TouchRecords(contract, w, w);
    var w1 := if d.reasoning != "" then ReasoningDelta(w, d.reasoning) else w;
    if d.reasoning != "" {
      ReasoningRecords(contract, w, d.reasoning);
    }
    var w2 := if d.content != "" then TextDelta(w1, OutputText, d.content) else w1;
    if d.content != "" {
      TextRecords(contract, w1, OutputText, d.content);
      RecordsChain(contract, w, w1, w2);
    }
    if d.refusal != "" {
      TextRecords(contract, w2, Refusal, d.refusal);
      RecordsChain(contract, w, w2, Spoken(w, d));
    }
  }

  lemma HandleChoiceRecords(contract: Contract, w: Writer, choice: Choice)
    ensures Records(contract, w, HandleChoice(contract, w, choice).0)
  {
    hide Records, Spoken, CalledModern, CalledLegacy, Silent, Keeps;
    TouchRecords(contract, w, w);
    if choice.Choice? && choice.first {
      var w1 := if choice.finishReason != "" then w.(finishReason := choice.finishReason) else w;
      TouchRecords(contract, w, w1);
      if choice.delta.Some? {
        var d := choice.delta.value;
        var w2 := Spoken(w1, d);
        SpokenRecords(contract, w1, d);
        RecordsChain(contract, w, w1, w2);
        var w3 := CalledModern(contract, w2, d.tools).0;
        CalledModernKeeps(contract, w2, d.tools);
        ModernSilent(contract, w2, d.tools);
        SilentRecords(contract, w2, w3);
        RecordsChain(contract, w, w2, w3);
        var w4 := CalledLegacy(contract, w3, d.legacy).0;
        CalledLegacyKeeps(contract, w3, d.legacy);
        CalledLegacySilent(contract, w3, d.legacy);
        SilentRecords(contract, w3, w4);
        RecordsChain(contract, w, w3, w4);
      }
    }
  }

  lemma HandleChoicesRecords(contract: Contract, w: Writer, choices: seq<Choice>)
    ensures Records(contract, w, HandleChoices(contract, w, choices))
    decreases |choices|
  {
    hide Records, HandleChoice;
    TouchRecords(contract, w, w);
    if choices != [] {
      var w1 := HandleChoice(contract, w, choices[0]).0;
      HandleChoiceRecords(contract, w, choices[0]);
      HandleChoicesRecords(contract, w1, choices[1..]);
      RecordsChain(contract, w, w1, HandleChoices(contract, w1, choices[1..]));
    }
  }

  lemma HandleLineRecords(contract: Contract, parse: string -> Payload, w: Writer, raw: string)
    ensures Records(contract, w, HandleLine(contract, parse, w, raw))
  {
    hide Records, HandleChoices, TrimCarriageReturns;
    TouchRecords(contract, w, w);
    var w' := HandleLine(contract, parse, w, raw);
    var line := TrimCarriageReturns(raw);
    if !w.sawDone && DATA <= line && line[|DATA|..] != "[DONE]" && parse(line[|DATA|..]).Chunk? && w.error.None? {
      HandleChoicesRecords(contract, w, parse(line[|DATA|..]).choices);
    } else {
      TouchRecords(contract, w, w');
    }
  }

  lemma HandleLinesRecords(contract: Contract, parse: string -> Payload, w: Writer, frame: string)
    ensures Records(contract, w, HandleLines(contract, parse, w, frame))
    decreases |frame|
  {
    hide Records, HandleLine;
    var end := LineEnd(frame, 0);
    var w1 := HandleLine(contract, parse, w, frame[..end]);
    HandleLineRecords(contract, parse, w, frame[..end]);
    if end < |frame| {
      HandleLinesRecords(contract, parse, w1, frame[end + 1..]);
      RecordsChain(contract, w, w1, HandleLines(contract, parse, w, frame));
    }
  }

  lemma DrainRecords(contract: Contract, parse: string -> Payload, w: Writer, b: string)
    ensures Records(contract, w, Drain(contract, parse, w, b).writer)
    decreases |b|
  {
    hide Records, HandleLines;
    var i := FrameEnd(b, 0);
    TouchRecords(contract, w, w);
    if i < |b| {
      var w1 := HandleLines(contract, parse, w, b[..i]);
      HandleLinesRecords(contract, parse, w, b[..i]);
      DrainRecords(contract, parse, w1, b[i + 2..]);
      RecordsChain(contract, w, w1, Drain(contract, parse, w, b).writer);
    }
  }

  lemma CheckRecords(contract: Contract, w: Writer)
    ensures Records(contract, w, Check(contract, w))
  {
    CheckKeeps(contract, w);
    CheckSilent(contract, w);
    hide Keeps, Silent, Check;
    SilentRecords(contract, w, Check(contract, w));
  }

  lemma BeginRecorded()
    ensures Recorded(Begin())
  {
    var s0, s1 := Sent(0, Created), Sent(1, Progress);
    var empty: seq<Sent> := [];
    assert Begin().sent == [s0, s1];
    P.TrackAppend(empty, s0);
    P.TrackAppend([s0], s1);
    assert empty + [s0] == [s0] && [s0] + [s1] == [s0, s1];
  }

  /** The record of parts mirrors the writer in every reachable state. */
  lemma {:induction false} RunRecorded(contract: Contract, parse: string -> Payload, ops: seq<Op>)
    ensures Recorded(RunOps(contract, parse, ops).writer)
  {
    hide Inv, Recorded, Keeps, Drain, Check;
    if ops == [] {
      BeginRecorded();
    } else {
      var n := |ops| - 1;
      var s := RunOps(contract, parse, ops[..n]);
      RunInv(contract, parse, ops[..n]);
      RunRecorded(contract, parse, ops[..n]);
      match ops[n]
      case Bytes(p) => DrainRecords(contract, parse, s.writer, s.buf + p);
      case Ask => CheckRecords(contract, s.writer);
    }
  }

  // ---- The end of the stream ----

  function Last(w: Writer, i: nat, reasoning: seq<P.Part>, message: seq<P.Part>): seq<P.Part> {
    if w.reason != "" && i == w.rsIdx then reasoning
    else if (w.text != "" || w.refusal != "") && i == w.msgIdx then message
    else []
  }

  /** What is recorded once nothing but the end is to come: these parts of the reasoning and of the message, and these arguments. */
  ghost predicate Ended(w: Writer, reasoning: seq<P.Part>, message: seq<P.Part>, told: map<nat, string>) {
    var t := P.TrackAll(w.sent);
    t.Track? && t.told == told && forall i: nat :: P.At(t.parts, i) == Last(w, i, reasoning, message)
  }

  /** Reasoning, message and calls own different indices. */
  predicate Distinct(w: Writer) {
    var spoken := w.text != "" || w.refusal != "";
    && (w.reason != "" && spoken ==> w.rsIdx != w.msgIdx)
    && (forall j :: 0 <= j < |w.calls| ==>
          (w.reason != "" ==> w.calls[j].outIdx != w.rsIdx) && (spoken ==> w.calls[j].outIdx != w.msgIdx))
    && forall i, j :: 0 <= i < j < |w.calls| ==> w.calls[i].outIdx != w.calls[j].outIdx
  }

  lemma SlotsDistinct(w: Writer)
    requires Slots(w)
    ensures Distinct(w)
  {
    hide Slot;
    if w.reason != "" && (w.text != "" || w.refusal != "") {
      assert Used(w, REASONING) && Used(w, MESSAGE) && Apart(w, REASONING, MESSAGE);
    }
    forall j | 0 <= j < |w.calls|
      ensures w.reason != "" ==> w.calls[j].outIdx != w.rsIdx
      ensures w.text != "" || w.refusal != "" ==> w.calls[j].outIdx != w.msgIdx
    {
      assert Used(w, j);
      if w.reason != "" {
        assert Used(w, REASONING) && Apart(w, REASONING, j);
      }
      if w.text != "" || w.refusal != "" {
        assert Used(w, MESSAGE) && Apart(w, MESSAGE, j);
      }
    }
    forall i, j | 0 <= i < j < |w.calls|
      ensures w.calls[i].outIdx != w.calls[j].outIdx
    {
      assert Used(w, i) && Used(w, j) && Apart(w, i, j);
    }
  }

  function DoneReasoning(w: Writer): seq<P.Part> {
    [P.Closed(Summary, w.reason)]
  }

  /** The message's parts, the first n of them done. */
  function DoneParts(w: Writer, n: nat): (r: seq<P.Part>)
    ensures |r| == |w.parts|
  {
    seq(|w.parts|, k requires 0 <= k < |w.parts| =>
      if k < n then P.Closed(w.parts[k], PartText(w, w.parts[k])) else P.Flowing(w.parts[k], PartText(w, w.parts[k])))
  }

  lemma RecordDone(t: P.Track, i: nat, p: nat, kind: Kind, s: string)
    requires t.Track? && p < |P.At(t.parts, i)| && P.At(t.parts, i)[p] == P.Flowing(kind, s)
    ensures var t' := P.PartStep(P.PartStep(t, TextDone(i, p, kind, s)), PartDone(i, p, kind, s));
            t'.Track? && t'.told == t.told && forall j: nat :: P.At(t'.parts, j) == if j == i then P.At(t.parts, i)[p := P.Closed(kind, s)] else P.At(t.parts, j)
  {
    var parts := P.At(t.parts, i);
    assert parts[p := P.Told(kind, s)][p := P.Closed(kind, s)] == parts[p := P.Closed(kind, s)];
  }

  lemma EmitTwice(w: Writer, e: Event, f: Event)
    ensures var w2 := Emit(Emit(w, e), f);
            && w2 == w.(sent := w2.sent, nextSeq := w2.nextSeq)
            && P.TrackAll(w2.sent) == P.PartStep(P.PartStep(P.TrackAll(w.sent), e), f)
  {
    EmitTracks(w, e);
    EmitTracks(Emit(w, e), f);
    EmitFields(w, e);
    EmitFields(Emit(w, e), f);
    hide P.TrackAll, P.PartStep, Emit;
  }

  lemma ReasoningTracked(d: Writer)
    requires Recorded(d) && d.rsOpen && d.rsPart
    ensures var c := CloseReasoning(d);
            var t, t' := P.TrackAll(d.sent), P.TrackAll(c.sent);
            t'.Track? && t'.told == map[] && forall i: nat :: P.At(t'.parts, i) == if i == d.rsIdx then DoneReasoning(d) else P.At(t.parts, i)
  {
    var e, f := TextDone(d.rsIdx, 0, Summary, d.reason), PartDone(d.rsIdx, 0, Summary, d.reason);
    var t := P.TrackAll(d.sent);
    EmitTwice(d, e, f);
    assert P.At(t.parts, d.rsIdx) == Shown(d, d.rsIdx) == [P.Flowing(Summary, d.reason)];
    RecordDone(t, d.rsIdx, 0, Summary, d.reason);
    var w2 := Emit(Emit(d, e), f).(rsPart := false);
    hide P.TrackAll, P.PartStep, P.At, Shown, Emit, Recorded;
    var g := ItemDone(d.rsIdx, ReasoningItem(d.reason, StatusOf(d)));
    EmitTracks(w2, g);
    assert P.At(P.TrackAll(w2.sent).parts, d.rsIdx) == DoneReasoning(d);
    ReasoningShows(P.TrackAll(w2.sent), d.rsIdx, d.reason, StatusOf(d));
    assert CloseReasoning(d).sent == Emit(w2, g).sent;
  }

  lemma ReasoningDone(d: Writer)
    requires Recorded(d) && Voiced(d)
    ensures Ended(CloseReasoning(d), DoneReasoning(d), MessageParts(d), map[])
  {
    hide P.TrackAll, P.At, Parts, MessageParts, DoneReasoning;
    ReasoningLeaves(d);
    if d.rsOpen {
      ReasoningTracked(d);
    } else {
      assert CloseReasoning(d) == d;
    }
    hide CloseReasoning;
  }

  lemma ReasoningShows(t: P.Track, i: nat, text: string, status: ItemStatus)
    requires t.Track? && t.told == map[] && P.At(t.parts, i) == [P.Closed(Summary, text)]
    ensures P.PartStep(t, ItemDone(i, ReasoningItem(text, status))) == t
  {
    assert P.Contents(P.At(t.parts, i)) == [(Summary, text)];
  }

  /** Every part of the message is told and done, the first n already were. */
  lemma OneDone(w: Writer, n: nat, reasoning: seq<P.Part>)
    requires Ended(w, reasoning, DoneParts(w, n), map[]) && (w.text != "" || w.refusal != "") && (w.reason != "" ==> w.rsIdx != w.msgIdx)
    requires n < |w.parts|
    ensures var kind := w.parts[n];
            var w2 := Emit(Emit(w, TextDone(w.msgIdx, n, kind, PartText(w, kind))), PartDone(w.msgIdx, n, kind, PartText(w, kind)));
            w2 == w.(sent := w2.sent, nextSeq := w2.nextSeq) && Ended(w2, reasoning, DoneParts(w2, n + 1), map[])
  {
    var kind := w.parts[n];
    var e, f := TextDone(w.msgIdx, n, kind, PartText(w, kind)), PartDone(w.msgIdx, n, kind, PartText(w, kind));
    var w2 := Emit(Emit(w, e), f);
    EmitTwice(w, e, f);
    hide P.TrackAll, P.PartStep, P.At, Emit;
    var t := P.TrackAll(w.sent);
    assert P.At(t.parts, w.msgIdx) == Last(w, w.msgIdx, reasoning, DoneParts(w, n));
    RecordDone(t, w.msgIdx, n, kind, PartText(w, kind));
    assert DoneParts(w, n)[n := P.Closed(kind, PartText(w, kind))] == DoneParts(w2, n + 1);
    hide DoneParts, PartText;
  }

  /** Every part of the message is told and done, the first n already were. */
  lemma {:induction false} PartsDone(w: Writer, n: nat, reasoning: seq<P.Part>)
    requires Ended(w, reasoning, DoneParts(w, n), map[]) && (w.text != "" || w.refusal != "") && (w.reason != "" ==> w.rsIdx != w.msgIdx)
    requires n <= |w.parts|
    ensures var w' := CloseParts(w, n);
            && w' == w.(sent := w'.sent, nextSeq := w'.nextSeq)
            && Ended(w', reasoning, DoneParts(w', |w.parts|), map[])
    decreases |w.parts| - n
  {
    hide Ended, DoneParts, Emit, PartText;
    if n < |w.parts| {
      OneDone(w, n, reasoning);
      var kind := w.parts[n];
      PartsDone(Emit(Emit(w, TextDone(w.msgIdx, n, kind, PartText(w, kind))), PartDone(w.msgIdx, n, kind, PartText(w, kind))), n + 1, reasoning);
    }
  }

  lemma MessageShows(t: P.Track, i: nat, w: Writer, status: ItemStatus)
    requires t.Track? && t.told == map[] && P.At(t.parts, i) == DoneParts(w, |w.parts|) && status != InProgress
    ensures P.PartStep(t, ItemDone(i, MessageOf(w, status))) == t
  {
    assert P.Contents(P.At(t.parts, i)) == MessageContent(w);
  }

  /** An event that the record takes without a change. */
  lemma EmitEnded(w: Writer, e: Event, reasoning: seq<P.Part>, message: seq<P.Part>, told: map<nat, string>)
    requires Ended(w, reasoning, message, told) && P.PartStep(P.TrackAll(w.sent), e) == P.TrackAll(w.sent)
    ensures Ended(Emit(w, e), reasoning, message, told)
    ensures Emit(w, e) == w.(sent := Emit(w, e).sent, nextSeq := Emit(w, e).nextSeq)
  {
    EmitTracks(w, e);
    EmitFields(w, e);
    hide P.TrackAll, P.PartStep, P.At, Emit;
  }

  lemma MessageDone(c: Writer, reasoning: seq<P.Part>)
    requires Ended(c, reasoning, DoneParts(c, 0), map[]) && c.msgOpen == (c.text != "" || c.refusal != "") && Distinct(c)
    ensures var c' := CloseMessage(c);
            && Ended(c', reasoning, DoneParts(c, |c.parts|), map[])
            && c' == c.(sent := c'.sent, nextSeq := c'.nextSeq, msgOpen := false)
  {
    hide P.TrackAll, P.PartStep, P.At, Emit, CloseParts, DoneParts, MessageOf;
    if c.msgOpen {
      PartsDone(c, 0, reasoning);
      var w1 := CloseParts(c, 0);
      SameDoneParts(c, w1);
      assert P.At(P.TrackAll(w1.sent).parts, w1.msgIdx) == DoneParts(w1, |w1.parts|);
      MessageShows(P.TrackAll(w1.sent), w1.msgIdx, w1, StatusOf(w1));
      EmitEnded(w1, ItemDone(w1.msgIdx, MessageOf(w1, StatusOf(w1))), reasoning, DoneParts(w1, |w1.parts|), map[]);
    } else {
      NoDoneParts(c);
    }
  }

  lemma SameDoneParts(c: Writer, w: Writer)
    requires w == c.(sent := w.sent, nextSeq := w.nextSeq)
    ensures forall n: nat :: DoneParts(w, n) == DoneParts(c, n)
  {
  }

  /** Without a message its parts play no role. */
  lemma NoDoneParts(c: Writer)
    requires c.text == "" && c.refusal == ""
    ensures forall r: seq<P.Part>, m: seq<P.Part>, m': seq<P.Part> :: Ended(c, r, m, map[]) ==> Ended(c, r, m', map[])
  {
    hide P.TrackAll, P.At;
  }

  lemma CallShows(t: P.Track, i: nat, call: Call, status: ItemStatus)
    requires t.Track? && P.At(t.parts, i) == [] && status != InProgress
    requires P.Answers(t.told, i) == if call.custom then [] else [call.arguments]
    ensures P.PartStep(t, ItemDone(i, CallOf(call, status))) == t
  {
  }

  lemma ArgumentsShow(t: P.Track, i: nat, text: string)
    requires t.Track? && i !in t.told
    ensures P.PartStep(t, ArgumentsDone(i, text)) == t.(told := t.told[i := text])
  {
  }

  lemma EndedSame(w: Writer, w': Writer, reasoning: seq<P.Part>, message: seq<P.Part>, told: map<nat, string>, told': map<nat, string>)
    requires Ended(w, reasoning, message, told) && Distinct(w) && SameButLive(w, w')
    requires P.TrackAll(w'.sent) == P.TrackAll(w.sent).(told := told')
    ensures Ended(w', reasoning, message, told') && Distinct(w')
  {
    hide P.TrackAll, P.At;
    assert forall j :: 0 <= j < |w.calls| ==> SameCallButLive(w.calls[j], w'.calls[j]);
  }

  lemma CloseCallFields(c: Writer, i: nat)
    requires i < |c.calls|
    ensures SameButLive(c, CloseCall(c, i))
  {
    hide StatusOf, CallOf, Emit, SameButLive;
    var call := c.calls[i];
    var dead := call.(live := false);
    var w1 := if call.custom then c else Emit(c, ArgumentsDone(call.outIdx, call.arguments));
    EmitFields(c, ArgumentsDone(call.outIdx, call.arguments));
    EmitFields(w1, ItemDone(call.outIdx, CallOf(call, Complete)));
    var w2 := Emit(w1, ItemDone(call.outIdx, CallOf(call, Complete)));
    OnlyDead(c, c, i);
    OnlyDead(c, w2, i);
    SameButLiveSelf(c);
  }

  lemma OnlyDead(c: Writer, w: Writer, i: nat)
    requires i < |c.calls| && w == c.(sent := w.sent, nextSeq := w.nextSeq)
    ensures SameButLive(c, SetCall(w, i, c.calls[i].(live := false)))
  {
  }

  /** The arguments told once call i was closed. */
  function ToldAfter(c: Writer, i: nat, told: map<nat, string>): map<nat, string>
    requires i < |c.calls|
  {
    var call := c.calls[i];
    if call.live && StatusOf(c) == Complete && !call.custom then told[call.outIdx := call.arguments] else told
  }

  lemma CloseCallTrack(c: Writer, i: nat)
    requires i < |c.calls| && P.TrackAll(c.sent).Track? && P.At(P.TrackAll(c.sent).parts, c.calls[i].outIdx) == []
    requires c.calls[i].outIdx !in P.TrackAll(c.sent).told
    ensures var t := P.TrackAll(c.sent); P.TrackAll(CloseCall(c, i).sent) == t.(told := ToldAfter(c, i, t.told))
  {
    hide P.TrackAll, P.PartStep, P.At, StatusOf, CloseCall, Answered;
    CloseCallSent(c, i);
    var t := P.TrackAll(c.sent);
    if c.calls[i].live && StatusOf(c) == Complete {
      AnsweredTrack(c, c.calls[i]);
    }
    assert t.(told := t.told) == t;
  }

  /** What closing a call sends: its arguments, unless it is custom, and its done item. */
  function Answered(c: Writer, call: Call): Writer {
    Emit(if call.custom then c else Emit(c, ArgumentsDone(call.outIdx, call.arguments)), ItemDone(call.outIdx, CallOf(call, Complete)))
  }

  lemma CloseCallSent(c: Writer, i: nat)
    requires i < |c.calls|
    ensures CloseCall(c, i).sent == if c.calls[i].live && StatusOf(c) == Complete then Answered(c, c.calls[i]).sent else c.sent
  {
    hide StatusOf, CallOf, Emit;
  }

  lemma AnsweredTrack(c: Writer, call: Call)
    requires P.TrackAll(c.sent).Track? && P.At(P.TrackAll(c.sent).parts, call.outIdx) == [] && call.outIdx !in P.TrackAll(c.sent).told
    ensures var t := P.TrackAll(c.sent);
            P.TrackAll(Answered(c, call).sent) == t.(told := if call.custom then t.told else t.told[call.outIdx := call.arguments])
  {
    var t, e := P.TrackAll(c.sent), ArgumentsDone(call.outIdx, call.arguments);
    ArgumentsShow(t, call.outIdx, call.arguments);
    hide P.TrackAll, P.PartStep, P.At, Emit, CallOf;
    if call.custom {
      CallShows(t, call.outIdx, call, Complete);
      EmitTracks(c, ItemDone(call.outIdx, CallOf(call, Complete)));
    } else {
      EmitTracks(c, e);
      CallShows(t.(told := t.told[call.outIdx := call.arguments]), call.outIdx, call, Complete);
      EmitTracks(Emit(c, e), ItemDone(call.outIdx, CallOf(call, Complete)));
    }
  }

  lemma CallDone(c: Writer, i: nat, reasoning: seq<P.Part>, message: seq<P.Part>, told: map<nat, string>)
    requires i < |c.calls| && Ended(c, reasoning, message, told) && Distinct(c) && c.calls[i].outIdx !in told
    ensures var c' := CloseCall(c, i);
            && Ended(c', reasoning, message, ToldAfter(c, i, told)) && Distinct(c')
            && SameButLive(c, c')
  {
    assert Last(c, c.calls[i].outIdx, reasoning, message) == [];
    hide P.TrackAll, P.PartStep, P.At, CloseCall, ToldAfter, SameButLive;
    CloseCallTrack(c, i);
    CloseCallFields(c, i);
    hide Distinct;
    EndedSame(c, CloseCall(c, i), reasoning, message, told, ToldAfter(c, i, told));
  }

  /** The calls from i on were not told yet. */
  predicate UntoldFrom(c: Writer, i: nat, told: map<nat, string>) {
    forall j :: i <= j < |c.calls| ==> c.calls[j].outIdx !in told
  }

  lemma UntoldNext(c: Writer, c': Writer, i: nat, told: map<nat, string>)
    requires Distinct(c) && UntoldFrom(c, i, told) && i < |c.calls| && SameButLive(c, c')
    ensures UntoldFrom(c', i + 1, ToldAfter(c, i, told)) && StatusOf(c') == StatusOf(c) && |c'.calls| == |c.calls|
    ensures StatusOf(c) != Complete ==> ToldAfter(c, i, told) == told
  {
    assert forall j :: 0 <= j < |c.calls| ==> SameCallButLive(c.calls[j], c'.calls[j]);
  }

  /** Calls are told only if they may be done. */
  lemma {:induction false} CallsDone(c: Writer, i: nat, reasoning: seq<P.Part>, message: seq<P.Part>, told: map<nat, string>)
    returns (told': map<nat, string>)
    requires Ended(c, reasoning, message, told) && Distinct(c) && UntoldFrom(c, i, told)
    ensures Ended(CloseCalls(c, i), reasoning, message, told')
    ensures StatusOf(c) != Complete ==> told' == told
    decreases |c.calls| - i
  {
    hide CloseCall, Ended, Distinct, UntoldFrom, ToldAfter, SameButLive, StatusOf;
    told' := told;
    if i < |c.calls| {
      assert c.calls[i].outIdx !in told by { CallUntold(c, i, told); }
      CallDone(c, i, reasoning, message, told);
      UntoldNext(c, CloseCall(c, i), i, told);
      told' := CallsDone(CloseCall(c, i), i + 1, reasoning, message, ToldAfter(c, i, told));
    }
  }

  lemma CallUntold(c: Writer, i: nat, told: map<nat, string>)
    requires UntoldFrom(c, i, told) && i < |c.calls|
    ensures c.calls[i].outIdx !in told
  {
  }

  // ---- Every run ----

  lemma DecidedRecorded(contract: Contract, w: Writer)
    requires Inv(contract, w) && Recorded(w)
    ensures var d := Decided(contract, w); Recorded(d) && Voiced(d)
  {
    CheckRecords(contract, w);
    hide Inv, Check, Grows;
    var checked := Check(contract, w);
    InvVoiced(contract, checked);
    VoiceOnly(checked, Decided(contract, w));
  }

  lemma VoiceOnly(w: Writer, d: Writer)
    requires d == w.(outcome := d.outcome) && Recorded(w) && Voiced(w)
    ensures Recorded(d) && Voiced(d)
  {
    hide P.TrackAll, P.At;
    SilentRecorded(w, d);
  }

  lemma ReasoningLeaves(d: Writer)
    ensures var c := CloseReasoning(d);
            && c.msgOpen == d.msgOpen && c.msgIdx == d.msgIdx && c.parts == d.parts && c.text == d.text && c.refusal == d.refusal
            && c.rsIdx == d.rsIdx && c.reason == d.reason && c.calls == d.calls
  {
  }

  /** From the decided writer to the closed one. */
  lemma ClosingEnds(d: Writer) returns (told: map<nat, string>)
    requires Recorded(d) && Voiced(d) && Distinct(d)
    ensures var c := CloseCalls(CloseMessage(CloseReasoning(d)), 0);
            c.reason == d.reason && Ended(c, DoneReasoning(d), DoneParts(d, |d.parts|), told)
    ensures StatusOf(d) != Complete ==> told == map[]
  {
    var c1 := CloseReasoning(d);
    var c2 := CloseMessage(c1);
    assert StatusOf(c1) == StatusOf(d) by { ReasoningLeaves(d); }
    hide Voiced, Recorded, CloseReasoning, CloseMessage, CloseCalls, Ended, MessageParts, DoneParts, Distinct;
    ReasoningDone(d);
    ReasoningLeaves(d);
    FlowingParts(d, c1);
    MessageOpened(d);
    DistinctOn(d, c1);
    MessageDone(c1, DoneReasoning(d));
    DistinctOn(d, c2);
    told := CallsDone(c2, 0, DoneReasoning(d), DoneParts(c1, |c1.parts|), map[]);
    CallsKeepReason(c2, 0);
  }

  lemma DistinctOn(d: Writer, c: Writer)
    requires Distinct(d) && c.rsIdx == d.rsIdx && c.msgIdx == d.msgIdx && c.reason == d.reason && c.text == d.text && c.refusal == d.refusal && c.calls == d.calls
    ensures Distinct(c)
  {
  }

  lemma DecidedDistinct(contract: Contract, w: Writer)
    requires Inv(contract, w)
    ensures Distinct(Decided(contract, w))
  {
    DecidedCloses(contract, w);
    hide Decided, Inv, Closing, Grows, Parts, LiveFrom, Executed;
    ClosingLogged(Decided(contract, w));
    SlotsDistinct(Decided(contract, w));
  }

  lemma ClosedEnded(contract: Contract, w: Writer)
    requires Inv(contract, w) && Recorded(w)
    ensures var c := Closed(contract, w);
            exists message, told :: Ended(c, DoneReasoning(c), message, told) && P.AllClosed(message) && (OutcomeOf(c) != Completed ==> told == map[])
  {
    var d := Decided(contract, w);
    DecidedRecorded(contract, w);
    DecidedDistinct(contract, w);
    ClosedInSteps(contract, w);
    OutcomeKept(contract, w);
    hide Decided, Inv, Voiced, Recorded, Distinct, Closed, CloseReasoning, CloseMessage, CloseCalls, Ended, StatusOf, OutcomeOf;
    var told := ClosingEnds(d);
    var message := DoneParts(d, |d.parts|);
    assert P.AllClosed(message);
    assert Ended(Closed(contract, w), DoneReasoning(Closed(contract, w)), message, told);
  }

  lemma MessageOpened(d: Writer)
    requires Voiced(d)
    ensures d.msgOpen == (d.text != "" || d.refusal != "")
  {
  }

  lemma FlowingParts(d: Writer, c: Writer)
    requires c.parts == d.parts && c.text == d.text && c.refusal == d.refusal && c.reason == d.reason
    ensures MessageParts(d) == DoneParts(c, 0)
    ensures forall n: nat :: DoneParts(c, n) == DoneParts(d, n)
  {
  }

  lemma {:induction false} CallsKeepReason(c: Writer, i: nat)
    ensures CloseCalls(c, i).reason == c.reason
    decreases |c.calls| - i
  {
    if i < |c.calls| {
      CloseCallFields(c, i);
      hide CloseCall;
      CallsKeepReason(CloseCall(c, i), i + 1);
    }
  }

  lemma TerminalShows(c: Writer, message: seq<P.Part>, told: map<nat, string>, outcome: Outcome, output: seq<Item>)
    requires Ended(c, DoneReasoning(c), message, told) && P.AllClosed(message) && (outcome != Completed ==> told == map[])
    ensures P.PartStep(P.TrackAll(c.sent), Terminal(outcome, output)) == P.TrackAll(c.sent)
  {
    hide P.TrackAll;
    var t := P.TrackAll(c.sent);
    forall i | i in t.parts
      ensures P.AllClosed(t.parts[i])
    {
      assert P.At(t.parts, i) == Last(c, i, DoneReasoning(c), message);
    }
  }

  /** In every run, content parts and whole arguments are placed as the grammar demands, up to the terminal event. */
  lemma PartGrammar(contract: Contract, parse: string -> Payload, ops: seq<Op>)
    ensures var log := Finish(contract, RunOps(contract, parse, ops).writer).sent;
            forall k :: 0 <= k < |log| ==> P.PartPlaced(log, k)
  {
    var w := RunOps(contract, parse, ops).writer;
    RunInv(contract, parse, ops);
    RunRecorded(contract, parse, ops);
    hide RunOps, Inv, Recorded, Closed, Ended, P.AllClosed, P.PartPlaced, OutputItems, OutcomeOf;
    ClosedEnded(contract, w);
    var c := Closed(contract, w);
    var message, told :| Ended(c, DoneReasoning(c), message, told) && P.AllClosed(message) && (OutcomeOf(c) != Completed ==> told == map[]);
    var e := Terminal(OutcomeOf(c), OutputItems(c));
    TerminalShows(c, message, told, OutcomeOf(c), OutputItems(c));
    EmitTracks(c, e);
    EndedTracks(c, DoneReasoning(c), message, told);
    hide P.PartStep, P.TrackAll, Emit;
    var log := Finish(contract, w).sent;
    forall k | 0 <= k < |log|
      ensures P.PartPlaced(log, k)
    {
      P.TrackMeansGrammar(log, k);
    }
  }

  lemma EndedTracks(c: Writer, reasoning: seq<P.Part>, message: seq<P.Part>, told: map<nat, string>)
    requires Ended(c, reasoning, message, told)
    ensures P.TrackAll(c.sent).Track?
  {
  }
}
