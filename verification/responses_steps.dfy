/** Every operation of the streaming writer keeps the invariant. */
module ResponsesSteps {
  import opened Wrappers
  import opened ResponseEvents
  import opened ToolPolicy
  import opened Text
  import opened ResponsesStream
  import opened ResponsesInvariant

  // ---- Growth: calls are never dropped, what was said stays said ----

  predicate CallGrows(before: Call, after: Call) {
    && after.key == before.key
    && after.outIdx == before.outIdx
    && before.arguments <= after.arguments
    && (before.begun ==> after.begun && after.name == before.name && after.id == before.id)
  }

  predicate Grows(w: Writer, w': Writer) {
    && w.sent <= w'.sent
    && |w.calls| <= |w'.calls|
    && forall j :: 0 <= j < |w.calls| ==> CallGrows(w.calls[j], w'.calls[j])
  }

  lemma GrowsTransitive(w: Writer, w': Writer, w'': Writer)
    requires Grows(w, w') && Grows(w', w'')
    ensures Grows(w, w'')
  {
  }

  ghost predicate Keeps(contract: Contract, w: Writer, w': Writer) {
    Inv(contract, w) ==> Inv(contract, w') && Grows(w, w')
  }

  lemma Chain(contract: Contract, w: Writer, w': Writer, w'': Writer)
    requires Keeps(contract, w, w') && Keeps(contract, w', w'')
    ensures Keeps(contract, w, w'')
  {
    if Inv(contract, w) {
      GrowsTransitive(w, w', w'');
    }
  }

  // ---- Slots under a step ----

  ghost predicate Carried(w: Writer, w': Writer, s: int)
    requires Used(w, s)
  {
    Used(w', s) && IndexAt(w', s) == IndexAt(w, s) && Begun(w', s) == Begun(w, s) && Live(w', s) == Live(w, s)
  }

  lemma SlotsSame(w: Writer, w': Writer)
    requires Slots(w) && Open(w'.sent) == Open(w.sent) && w'.nextIdx == w.nextIdx && |w'.calls| == |w.calls|
    requires forall s :: Used(w', s) ==> Used(w, s)
    requires forall s :: Used(w, s) ==> Carried(w, w', s)
    ensures Slots(w')
  {
    hide Used, IndexAt, Begun, Live, ParseAll, Open;
    forall s | Used(w', s)
      ensures Slot(w', s)
    {
      assert Slot(w, s) && Carried(w, w', s);
    }
    forall s, t | Used(w', s) && Used(w', t)
      ensures Apart(w', s, t)
    {
      assert Apart(w, s, t) && Carried(w, w', s) && Carried(w, w', t);
    }
    assert Used(w, REASONING) ==> Carried(w, w', REASONING);
    assert Used(w, MESSAGE) ==> Carried(w, w', MESSAGE);
  }

  /** Slot n takes the next output index; it is announced at once unless it is a call. */
  lemma SlotsNew(w: Writer, w': Writer, n: int)
    requires Slots(w) && w'.nextIdx == w.nextIdx + 1
    requires forall i :: i in Open(w.sent) ==> i < w.nextIdx
    requires !Used(w, n) && Used(w', n) && IndexAt(w', n) == w.nextIdx && Live(w', n) == Begun(w', n)
    requires Open(w'.sent) == if Begun(w', n) then Open(w.sent)[w.nextIdx := true] else Open(w.sent)
    requires forall s :: Used(w', s) && s != n ==> Used(w, s)
    requires forall s :: Used(w, s) ==> Carried(w, w', s)
    requires |w'.calls| == |w.calls| + Count(n >= 0)
    requires n >= REASONING
    ensures Slots(w')
  {
    hide Used, IndexAt, Begun, Live, ParseAll, Open;
    forall s | Used(w', s)
      ensures Slot(w', s)
    {
      if s != n {
        assert Slot(w, s) && Carried(w, w', s);
      }
    }
    forall s, t | Used(w', s) && Used(w', t)
      ensures Apart(w', s, t)
    {
      if s != n {
        assert Slot(w, s) && Carried(w, w', s);
      }
      if t != n {
        assert Slot(w, t) && Carried(w, w', t);
      }
      if s != n && t != n {
        assert Apart(w, s, t);
      }
    }
    assert Used(w, REASONING) ==> Carried(w, w', REASONING);
    assert Used(w, MESSAGE) ==> Carried(w, w', MESSAGE);
  }

  /** Slot n, a call that was waiting, is announced. */
  lemma SlotsBegin(w: Writer, w': Writer, n: nat)
    requires Slots(w) && w'.nextIdx == w.nextIdx && |w'.calls| == |w.calls|
    requires Used(w, n) && Used(w', n) && IndexAt(w', n) == IndexAt(w, n) && Begun(w', n)
    requires Open(w'.sent) == Open(w.sent)[IndexAt(w, n) := true]
    requires forall s :: Used(w', s) ==> Used(w, s)
    requires forall s :: Used(w, s) && s != n ==> Carried(w, w', s)
    ensures Slots(w')
  {
    hide Used, IndexAt, Begun, Live, ParseAll, Open;
    forall s | Used(w', s)
      ensures Slot(w', s)
    {
      if s != n {
        assert Slot(w, s) && Carried(w, w', s) && Apart(w, s, n);
      } else {
        assert Slot(w, s);
      }
    }
    forall s, t | Used(w', s) && Used(w', t)
      ensures Apart(w', s, t)
    {
      assert Apart(w, s, t);
      assert s != n ==> Carried(w, w', s);
      assert t != n ==> Carried(w, w', t);
    }
    assert Used(w, REASONING) ==> Carried(w, w', REASONING);
    assert Used(w, MESSAGE) ==> Carried(w, w', MESSAGE);
  }

  /** Fields the invariant does not mention may change freely. */
  predicate SameItems(w: Writer, w': Writer) {
    w' == w.(sawDone := w'.sawDone, finishReason := w'.finishReason, error := w'.error, legacyId := w'.legacyId, minted := w'.minted)
  }

  lemma TouchKeeps(contract: Contract, w: Writer, w': Writer)
    requires SameItems(w, w')
    ensures Keeps(contract, w, w')
  {
    if Inv(contract, w) {
      SlotsSame(w, w');
    }
  }

  // ---- What a run of events without call items does to the log ----

  ghost predicate Spoke(w: Writer, w': Writer, kind: Kind, s: string) {
    && w'.nextSeq == |w'.sent|
    && Numbered(w'.sent)
    && ParseAll(w'.sent).Body?
    && (forall k :: DeltaText(w'.sent, k) == DeltaText(w.sent, k) + if k == kind then s else "")
    && (forall i :: ArgumentsText(w'.sent, i) == ArgumentsText(w.sent, i))
    && Executed(w'.sent) == Executed(w.sent)
    && w.sent <= w'.sent
  }

  // ---- Reasoning ----

  /** One event about an item that is announced, or announces one. */
  lemma EmitSpoke(w: Writer, e: Event, kind: Kind)
    requires w.nextSeq == |w.sent| && Numbered(w.sent) && ParseAll(w.sent).Body?
    requires e.ItemAdded? || e.PartAdded? || e.Delta?
    requires if e.ItemAdded? then e.index !in Open(w.sent) && Fresh(e.item) else e.index in Open(w.sent) && Open(w.sent)[e.index]
    requires e.Delta? ==> e.kind == kind
    ensures Spoke(w, Emit(w, e), kind, if e.Delta? then e.text else "")
    ensures Open(Emit(w, e).sent) == if e.ItemAdded? then Open(w.sent)[e.index := true] else Open(w.sent)
  {
    EmitEffect(w, e);
    hide ParseAll, DeltaText, ArgumentsText, Executed, Numbered, Emit;
    assert Emit(w, e).sent == w.sent + [Sent(w.nextSeq, e)] by { EmitFields(w, e); }
  }

  lemma SpokeChain(w: Writer, w': Writer, w'': Writer, kind: Kind, s: string)
    requires Spoke(w, w', kind, "") && Spoke(w', w'', kind, s)
    ensures Spoke(w, w'', kind, s)
  {
    hide ParseAll, DeltaText, ArgumentsText, Executed, Numbered;
  }

  lemma SpokeLogged(w: Writer, w': Writer, kind: Kind, s: string)
    requires Logged(w) && Spoke(w, w', kind, s)
    requires Open(w'.sent) == if w'.nextIdx == w.nextIdx then Open(w.sent) else Open(w.sent)[w.nextIdx := true]
    requires w.nextIdx <= w'.nextIdx
    ensures Logged(w')
  {
    hide DeltaText, ArgumentsText, Executed, ParseAll, Numbered, Open;
  }

  lemma SpokeTexts(w: Writer, w': Writer, kind: Kind, s: string)
    requires Texts(w) && Spoke(w, w', kind, s) && w'.calls == w.calls
    requires w'.reason == w.reason + if kind == Summary then s else ""
    requires w'.text == w.text + if kind == OutputText then s else ""
    requires w'.refusal == w.refusal + if kind == Refusal then s else ""
    ensures Texts(w')
  {
    hide DeltaText, ArgumentsText, Executed, ParseAll, Numbered, Open;
    assert forall j :: 0 <= j < |w.calls| ==> Passed(w.sent, w.calls[j]) ==> Passed(w'.sent, w.calls[j]);
  }

  lemma SpokeSlots(w: Writer, w': Writer, n: int)
    requires Slots(w) && w'.calls == w.calls && Logged(w) && REASONING <= n <= MESSAGE
    requires Used(w', n) && Live(w', n)
    requires w'.nextIdx == w.nextIdx + Count(!Used(w, n))
    requires if Used(w, n) then Live(w, n) && IndexAt(w', n) == IndexAt(w, n) else IndexAt(w', n) == w.nextIdx
    requires Open(w'.sent) == if Used(w, n) then Open(w.sent) else Open(w.sent)[w.nextIdx := true]
    requires forall s: int :: s < 0 && s != n && (Used(w, s) || Used(w', s)) ==> Used(w, s) && Carried(w, w', s)
    ensures Slots(w')
  {
    hide DeltaText, ArgumentsText, Executed, ParseAll, Numbered, Open;
    if Used(w, n) {
      SlotsSame(w, w');
    } else {
      SlotsNew(w, w', n);
    }
  }

  // ---- Reasoning ----

  lemma ReasoningLog(w: Writer, s: string)
    requires Logged(w) && (w.rsOpen ==> w.rsPart && w.rsIdx in Open(w.sent) && Open(w.sent)[w.rsIdx]) && (!w.rsOpen ==> !w.rsPart && w.reason == "")
    ensures var w' := ReasoningDelta(w, s);
            && Spoke(w, w', Summary, s)
            && Open(w'.sent) == if w.rsOpen then Open(w.sent) else Open(w.sent)[w.nextIdx := true]
  {
    hide ParseAll, DeltaText, ArgumentsText, Executed, Numbered;
    if !w.rsOpen {
      var w0 := w.(rsIdx := w.nextIdx, nextIdx := w.nextIdx + 1);
      var e0 := ItemAdded(w.nextIdx, ReasoningItem(w.reason, InProgress));
      var w1 := Emit(w0, e0).(rsOpen := true);
      var e1 := PartAdded(w1.rsIdx, 0, Summary);
      var w2 := Emit(w1, e1).(rsPart := true).(reason := w.reason + s);
      var e2 := Delta(w2.rsIdx, 0, Summary, s);
      EmitSpoke(w0, e0, Summary);
      EmitSpoke(w1, e1, Summary);
      EmitSpoke(w2, e2, Summary);
      SpokeChain(w, w1, w2, Summary, "");
      SpokeChain(w, w2, Emit(w2, e2), Summary, s);
    } else {
      EmitSpoke(w.(reason := w.reason + s), Delta(w.rsIdx, 0, Summary, s), Summary);
    }
  }

  lemma ReasoningFields(w: Writer, s: string)
    ensures var w' := ReasoningDelta(w, s);
            && w' == w.(sent := w'.sent, nextSeq := w'.nextSeq, rsIdx := w'.rsIdx, nextIdx := w'.nextIdx,
                        rsOpen := true, rsPart := true, reason := w.reason + s)
            && w'.rsIdx == (if w.rsOpen then w.rsIdx else w.nextIdx)
            && w'.nextIdx == w.nextIdx + Count(!w.rsOpen)
  {
  }

  lemma ReasoningSlots(contract: Contract, w: Writer, s: string)
    requires s != "" && Inv(contract, w)
    ensures Slots(ReasoningDelta(w, s))
    ensures Logged(ReasoningDelta(w, s)) && Texts(ReasoningDelta(w, s)) && Spoke(w, ReasoningDelta(w, s), Summary, s)
    ensures Open(ReasoningDelta(w, s).sent) == if w.rsOpen then Open(w.sent) else Open(w.sent)[w.nextIdx := true]
  {
    var w' := ReasoningDelta(w, s);
    assert w.rsOpen ==> Slot(w, REASONING) by { assert w.rsOpen ==> Used(w, REASONING); }
    hide ParseAll, DeltaText, ArgumentsText, Executed, Numbered, Parts, Keyed;
    ReasoningLog(w, s);
    ReasoningFields(w, s);
    hide ReasoningDelta, Open, Slots, Texts, Spoke;
    SpokeSlots(w, w', REASONING);
    SpokeLogged(w, w', Summary, s);
    SpokeTexts(w, w', Summary, s);
  }

  lemma ReasoningKeeps(contract: Contract, w: Writer, s: string)
    requires s != ""
    ensures Keeps(contract, w, ReasoningDelta(w, s))
  {
    hide ParseAll, DeltaText, ArgumentsText, Executed, Numbered, Slots, Texts, Logged, Identified, Open;
    if Inv(contract, w) {
      ReasoningSlots(contract, w, s);
      ReasoningFields(w, s);
      hide ReasoningDelta;
    }
  }

  // ---- Text and refusal ----

  lemma PartFound(parts: seq<Kind>, kind: Kind)
    ensures IndexOf(parts, kind) < |parts| <==> kind in parts
    ensures kind in parts ==> parts[IndexOf(parts, kind)] == kind
  {
  }

  lemma EnsureLog(w: Writer, kind: Kind, other: Kind)
    requires Logged(w) && (w.msgOpen ==> w.msgIdx in Open(w.sent) && Open(w.sent)[w.msgIdx])
    ensures var w' := EnsurePart(w, kind);
            && Spoke(w, w', other, "")
            && Open(w'.sent) == (if w.msgOpen then Open(w.sent) else Open(w.sent)[w.nextIdx := true])
            && w'.msgIdx == (if w.msgOpen then w.msgIdx else w.nextIdx)
            && w'.msgIdx in Open(w'.sent) && Open(w'.sent)[w'.msgIdx]
            && w'.parts == (if kind in w.parts then w.parts else w.parts + [kind])
            && w'.nextIdx == w.nextIdx + Count(!w.msgOpen)
            && w' == w.(sent := w'.sent, nextSeq := w'.nextSeq, msgIdx := w'.msgIdx, nextIdx := w'.nextIdx, msgOpen := true, parts := w'.parts)
  {
    PartFound(w.parts, kind);
    hide ParseAll, DeltaText, ArgumentsText, Executed, Numbered, IndexOf;
    var w1 := OpenMessage(w);
    assert w.nextIdx !in Open(w.sent);
    if !w.msgOpen {
      assert Open(w.(msgIdx := w.nextIdx, nextIdx := w.nextIdx + 1).sent) == Open(w.sent);
      EmitSpoke(w.(msgIdx := w.nextIdx, nextIdx := w.nextIdx + 1), ItemAdded(w.nextIdx, MessageItem([], InProgress)), other);
    }
    if kind !in w.parts {
      EmitSpoke(w1.(parts := w1.parts + [kind]), PartAdded(w1.msgIdx, |w1.parts|, kind), other);
    }
  }

  lemma TextLog(w: Writer, kind: Kind, s: string)
    requires Logged(w) && (w.msgOpen ==> w.msgIdx in Open(w.sent) && Open(w.sent)[w.msgIdx]) && kind != Summary
    ensures var w' := TextDelta(w, kind, s);
            && Spoke(w, w', kind, s)
            && Open(w'.sent) == (if w.msgOpen then Open(w.sent) else Open(w.sent)[w.nextIdx := true])
            && w'.msgIdx == (if w.msgOpen then w.msgIdx else w.nextIdx)
            && w'.parts == (if kind in w.parts then w.parts else w.parts + [kind])
            && w'.nextIdx == w.nextIdx + Count(!w.msgOpen)
            && w' == w.(sent := w'.sent, nextSeq := w'.nextSeq, msgIdx := w'.msgIdx, nextIdx := w'.nextIdx, msgOpen := true, parts := w'.parts,
                        text := if kind == OutputText then w.text + s else w.text, refusal := if kind == Refusal then w.refusal + s else w.refusal)
  {
    EnsureLog(w, kind, kind);
    hide ParseAll, DeltaText, ArgumentsText, Executed, Numbered, EnsurePart, IndexOf, Logged, Open, Spoke;
    var w1 := EnsurePart(w, kind);
    var w2 := if kind == Refusal then w1.(refusal := w1.refusal + s) else w1.(text := w1.text + s);
    var e := Delta(w1.msgIdx, IndexOf(w1.parts, kind), kind, s);
    SpokeMore(w, w1, w2, e, kind);
  }

  lemma SpokeMore(w: Writer, w1: Writer, w2: Writer, e: Event, kind: Kind)
    requires Spoke(w, w1, kind, "") && w2.sent == w1.sent && w2.nextSeq == w1.nextSeq
    requires e.Delta? && e.kind == kind && e.index in Open(w1.sent) && Open(w1.sent)[e.index]
    ensures Spoke(w, Emit(w2, e), kind, e.text) && Open(Emit(w2, e).sent) == Open(w1.sent)
  {
    hide ParseAll, DeltaText, ArgumentsText, Executed, Numbered, Open, Emit;
    EmitSpoke(w2, e, kind);
    SpokeChain(w, w2, Emit(w2, e), kind, e.text);
  }

  lemma TextSlots(contract: Contract, w: Writer, kind: Kind, s: string)
    requires s != "" && kind != Summary && Slots(w) && Logged(w) && Running(w)
    ensures Slots(TextDelta(w, kind, s))
  {
    if w.msgOpen {
      MessageOpen(w);
    }
    TextLog(w, kind, s);
    assert w.msgOpen == Used(w, MESSAGE);
    hide TextDelta, Open, Slots, Spoke, Logged, Running;
    SpokeSlots(w, TextDelta(w, kind, s), MESSAGE);
  }

  lemma TextTexts(contract: Contract, w: Writer, kind: Kind, s: string)
    requires s != "" && kind != Summary && Inv(contract, w)
    ensures Logged(TextDelta(w, kind, s)) && Texts(TextDelta(w, kind, s))
  {
    var w' := TextDelta(w, kind, s);
    hide ParseAll, DeltaText, ArgumentsText, Executed, Numbered, Parts, Keyed, Open, Texts;
    if w.msgOpen {
      MessageOpen(w);
    }
    TextLog(w, kind, s);
    hide TextDelta, Slots, Spoke, Logged, Running;
    SpokeLogged(w, w', kind, s);
    SpokeTexts(w, w', kind, s);
  }

  lemma PartsGrow(w: Writer, w': Writer, kind: Kind)
    requires Parts(w) && kind != Summary
    requires w'.parts == if kind in w.parts then w.parts else w.parts + [kind]
    requires w'.text != "" <==> w.text != "" || kind == OutputText
    requires w'.refusal != "" <==> w.refusal != "" || kind == Refusal
    ensures Parts(w')
  {
  }

  lemma TextParts(w: Writer, kind: Kind, s: string)
    requires s != "" && kind != Summary && Parts(w) && Logged(w) && (w.msgOpen ==> w.msgIdx in Open(w.sent) && Open(w.sent)[w.msgIdx])
    ensures Parts(TextDelta(w, kind, s))
  {
    TextLog(w, kind, s);
    hide TextDelta, Logged, Spoke, Open, Parts;
    PartsGrow(w, TextDelta(w, kind, s), kind);
  }

  lemma TextRunning(contract: Contract, w: Writer, kind: Kind, s: string)
    requires s != "" && kind != Summary && Inv(contract, w)
    ensures var w' := TextDelta(w, kind, s); Keyed(contract, w') && Running(w') && Grows(w, w')
  {
    hide ParseAll, DeltaText, ArgumentsText, Executed, Numbered, Texts, Identified, Open, Parts;
    if w.msgOpen {
      MessageOpen(w);
    }
    TextLog(w, kind, s);
    hide TextDelta, Logged, Slots;
  }

  lemma TextKeeps(contract: Contract, w: Writer, kind: Kind, s: string)
    requires s != "" && kind != Summary
    ensures Keeps(contract, w, TextDelta(w, kind, s))
  {
    hide TextDelta, Open, Logged, Slots, Texts, Parts, Keyed, Grows;
    if Inv(contract, w) {
      if w.msgOpen {
        MessageOpen(w);
      }
      hide Running;
      TextSlots(contract, w, kind, s);
      TextTexts(contract, w, kind, s);
      TextParts(w, kind, s);
      TextRunning(contract, w, kind, s);
    }
  }

  lemma MessageOpen(w: Writer)
    requires Slots(w) && Running(w) && w.msgOpen
    ensures w.msgIdx in Open(w.sent) && Open(w.sent)[w.msgIdx]
  {
    hide ParseAll, Executed, Open;
    assert Used(w, MESSAGE) && Slot(w, MESSAGE);
  }

  // ---- Tool calls ----

  lemma {:induction false} FindMiss(calls: seq<Call>, key: int)
    requires FindCall(calls, key) == |calls|
    ensures forall j :: 0 <= j < |calls| ==> calls[j].key != key
  {
  }

  lemma NewCallTexts(w: Writer, key: int)
    requires Logged(w) && Texts(w)
    ensures Texts(NewCall(w, key))
  {
    hide DeltaText, ArgumentsText, Executed, ParseAll, Numbered, Open, FindCall;
    if FindCall(w.calls, key) == |w.calls| {
      assert w.nextIdx !in Open(w.sent);
      assert Passed(w.sent, NewCall(w, key).calls[|w.calls|]);
    }
  }

  lemma NewCallKeyed(contract: Contract, w: Writer, key: int)
    requires Keyed(contract, w)
    ensures Keyed(contract, NewCall(w, key))
  {
    if FindCall(w.calls, key) == |w.calls| {
      FindMiss(w.calls, key);
    }
  }

  lemma NewCallSlots(w: Writer, key: int)
    requires Logged(w) && Slots(w)
    ensures Slots(NewCall(w, key)) && Logged(NewCall(w, key))
  {
    hide DeltaText, ArgumentsText, Executed, ParseAll, Numbered, FindCall;
    var w' := NewCall(w, key);
    if FindCall(w.calls, key) == |w.calls| {
      hide Slots;
      SlotsNew(w, w', |w.calls|);
    }
  }

  lemma NewCallKeeps(contract: Contract, w: Writer, key: int)
    ensures Keeps(contract, w, NewCall(w, key))
  {
    hide DeltaText, ArgumentsText, Executed, ParseAll, Numbered, FindCall, Slots, Texts, Keyed, Logged;
    if Inv(contract, w) {
      NewCallTexts(w, key);
      NewCallKeyed(contract, w, key);
      NewCallSlots(w, key);
    }
  }

  predicate Learns(contract: Contract, before: Call, after: Call) {
    && Identified(contract, after)
    && CallGrows(before, after)
    && after.sent == before.sent && after.begun == before.begun && after.live == before.live
    && (Identified(contract, before) && before.name != "" ==> after.name == before.name)
  }

  lemma SetCallTexts(contract: Contract, w: Writer, i: nat, call: Call)
    requires i < |w.calls| && Learns(contract, w.calls[i], call) && Texts(w) && Keyed(contract, w)
    ensures Texts(SetCall(w, i, call))
  {
    hide DeltaText, ArgumentsText, Executed, ParseAll, Numbered;
    var w' := SetCall(w, i, call);
    forall j | 0 <= j < |w'.calls|
      ensures Passed(w'.sent, w'.calls[j])
    {
      assert Passed(w.sent, w.calls[j]) && Identified(contract, w.calls[j]);
      if j == i {
        assert call.arguments[..call.sent] == w.calls[i].arguments[..call.sent];
      }
    }
  }

  lemma SetCallSlots(contract: Contract, w: Writer, i: nat, call: Call)
    requires i < |w.calls| && Learns(contract, w.calls[i], call) && Slots(w)
    ensures Slots(SetCall(w, i, call))
  {
    hide DeltaText, ArgumentsText, Executed, ParseAll, Numbered, Slots, Identified;
    SlotsSame(w, SetCall(w, i, call));
  }

  lemma SetCallKeyed(contract: Contract, w: Writer, i: nat, call: Call)
    requires i < |w.calls| && Learns(contract, w.calls[i], call) && Keyed(contract, w)
    ensures Keyed(contract, SetCall(w, i, call))
  {
    hide Identified;
  }

  lemma SetCallRunning(contract: Contract, w: Writer, i: nat, call: Call)
    requires i < |w.calls| && Learns(contract, w.calls[i], call) && Running(w) && Logged(w) && Parts(w)
    ensures var w' := SetCall(w, i, call); Running(w') && Logged(w') && Parts(w') && Grows(w, w')
  {
    hide ParseAll, Executed, ArgumentsText, Numbered, Identified;
  }

  /** A call that learns its id, its name or more arguments, without an event. */
  lemma SetCallKeeps(contract: Contract, w: Writer, i: nat, call: Call)
    requires i < |w.calls| && Learns(contract, w.calls[i], call)
    ensures Keeps(contract, w, SetCall(w, i, call))
  {
    hide Slots, Texts, Keyed, Logged, Running, Parts, Grows, Learns;
    if Inv(contract, w) {
      SetCallTexts(contract, w, i, call);
      SetCallSlots(contract, w, i, call);
      SetCallKeyed(contract, w, i, call);
      SetCallRunning(contract, w, i, call);
    }
  }

  // ---- Announcing calls and passing arguments on ----

  lemma OpenCallLog(w: Writer, i: nat)
    requires Logged(w) && i < |w.calls| && w.calls[i].outIdx !in Open(w.sent) && w.calls[i].outIdx < w.nextIdx
    ensures var w' := OpenCall(w, i);
            && Spoke(w, w', Summary, "")
            && Open(w'.sent) == Open(w.sent)[w.calls[i].outIdx := true]
            && Logged(w')
  {
    hide ParseAll, DeltaText, ArgumentsText, Executed, Numbered;
    var call := w.calls[i].(live := true, begun := true);
    EmitSpoke(w.(calls := w.calls[i := call]), ItemAdded(call.outIdx, CallOf(call, InProgress)), Summary);
  }

  lemma OpenCallWaiting(w: Writer, i: nat)
    requires i < |w.calls| && !w.calls[i].begun && Slots(w)
    ensures w.calls[i].outIdx !in Open(w.sent) && w.calls[i].outIdx < w.nextIdx
  {
    hide Open;
    assert Used(w, i) && Slot(w, i);
  }

  lemma OpenCallSlots(w: Writer, i: nat)
    requires i < |w.calls| && !w.calls[i].begun && Slots(w) && Logged(w)
    ensures Slots(OpenCall(w, i))
  {
    OpenCallWaiting(w, i);
    OpenCallLog(w, i);
    hide Logged, Open, Spoke, Slots;
    SlotsBegin(w, OpenCall(w, i), i);
  }

  lemma OpenCallTexts(w: Writer, i: nat)
    requires i < |w.calls| && !w.calls[i].begun && Slots(w) && Logged(w) && Texts(w)
    ensures Texts(OpenCall(w, i))
  {
    OpenCallWaiting(w, i);
    OpenCallLog(w, i);
    hide Logged, Open, Slots, DeltaText, ArgumentsText;
    var w' := OpenCall(w, i);
    assert forall j :: 0 <= j < |w.calls| ==> Passed(w.sent, w.calls[j]) ==> Passed(w'.sent, w'.calls[j]);
  }

  lemma OpenCallKeeps(contract: Contract, w: Writer, i: nat)
    requires i < |w.calls| && !w.calls[i].begun && Ready(w.calls[i])
    ensures Keeps(contract, w, OpenCall(w, i))
  {
    hide ParseAll, DeltaText, ArgumentsText, Executed, Numbered, Slots, Texts, Logged, Open;
    if Inv(contract, w) {
      OpenCallWaiting(w, i);
      OpenCallLog(w, i);
      OpenCallSlots(w, i);
      OpenCallTexts(w, i);
    }
  }

  ghost predicate Argued(w: Writer, w': Writer, index: nat, s: string) {
    && w'.nextSeq == |w'.sent|
    && Numbered(w'.sent)
    && ParseAll(w'.sent) == ParseAll(w.sent)
    && (forall k :: DeltaText(w'.sent, k) == DeltaText(w.sent, k))
    && (forall i :: ArgumentsText(w'.sent, i) == ArgumentsText(w.sent, i) + if i == index then s else "")
    && Executed(w'.sent) == Executed(w.sent)
    && w.sent <= w'.sent
  }

  lemma EmitArgued(w: Writer, index: nat, s: string)
    requires Logged(w) && index in Open(w.sent) && Open(w.sent)[index]
    ensures Argued(w, Emit(w, ArgumentsDelta(index, s)), index, s)
  {
    var e := ArgumentsDelta(index, s);
    EmitEffect(w, e);
    hide ParseAll, DeltaText, ArgumentsText, Executed, Numbered, Emit;
    EmitFields(w, e);
  }

  predicate Passes(call: Call) {
    !call.custom && call.sent < |call.arguments|
  }

  lemma SendArgumentsLog(w: Writer, i: nat)
    requires i < |w.calls| && Logged(w) && Slots(w) && w.calls[i].live && Passes(w.calls[i])
    ensures var w' := SendArguments(w, i);
            && Argued(w, w', w.calls[i].outIdx, w.calls[i].arguments[w.calls[i].sent..])
            && w' == w.(sent := w'.sent, nextSeq := w'.nextSeq, calls := w.calls[i := w.calls[i].(sent := |w.calls[i].arguments|)])
            && w.calls[i].outIdx in Open(w.sent)
  {
    hide ParseAll, DeltaText, ArgumentsText, Executed, Numbered;
    var call := w.calls[i];
    assert Slot(w, i) by { assert Used(w, i); }
    EmitArgued(w.(calls := w.calls[i := call.(sent := |call.arguments|)]), call.outIdx, call.arguments[call.sent..]);
  }

  lemma SendArgumentsLogged(w: Writer, i: nat)
    requires i < |w.calls| && Logged(w) && Slots(w) && w.calls[i].live && Passes(w.calls[i])
    ensures var w' := SendArguments(w, i); Logged(w') && Open(w'.sent) == Open(w.sent)
  {
    SendArgumentsLog(w, i);
    hide ParseAll, DeltaText, ArgumentsText, Executed, Numbered, SendArguments, Slots;
  }

  lemma SendArgumentsSlots(w: Writer, i: nat)
    requires i < |w.calls| && Logged(w) && Slots(w) && w.calls[i].live && Passes(w.calls[i])
    ensures Slots(SendArguments(w, i))
  {
    hide ParseAll, DeltaText, ArgumentsText, Executed, Numbered, SendArguments, Slots, Logged, Open, Argued;
    SendArgumentsLog(w, i);
    SendArgumentsLogged(w, i);
    SentSlots(w, SendArguments(w, i), i);
  }

  lemma SentSlots(w: Writer, w': Writer, i: nat)
    requires i < |w.calls| && Slots(w) && Open(w'.sent) == Open(w.sent)
    requires w' == w.(sent := w'.sent, nextSeq := w'.nextSeq, calls := w.calls[i := w.calls[i].(sent := |w.calls[i].arguments|)])
    ensures Slots(w')
  {
    hide Open, Slots;
    SlotsSame(w, w');
  }

  lemma SendArgumentsPassed(w: Writer, i: nat, j: nat)
    requires i < |w.calls| && j < |w.calls| && Logged(w) && Slots(w) && w.calls[i].live && w.calls[i].begun && Passes(w.calls[i])
    requires Passed(w.sent, w.calls[j]) && Passed(w.sent, w.calls[i])
    ensures Passed(SendArguments(w, i).sent, SendArguments(w, i).calls[j])
  {
    SendArgumentsLog(w, i);
    assert Used(w, j) && Used(w, i) && Apart(w, j, i);
    hide ParseAll, DeltaText, ArgumentsText, Executed, Numbered, SendArguments, Logged, Open, Slot, Slots;
    var s := w.calls[i].arguments;
    assert s[..w.calls[i].sent] + s[w.calls[i].sent..] == s == s[..|s|];
  }

  lemma SendArgumentsTexts(w: Writer, i: nat)
    requires i < |w.calls| && Logged(w) && Slots(w) && Texts(w) && w.calls[i].live && w.calls[i].begun && Passes(w.calls[i])
    ensures Texts(SendArguments(w, i))
  {
    SendArgumentsLog(w, i);
    hide ParseAll, DeltaText, ArgumentsText, Executed, Numbered, SendArguments, Logged, Open, Slot, Slots, Passed;
    var w' := SendArguments(w, i);
    forall j | 0 <= j < |w'.calls|
      ensures Passed(w'.sent, w'.calls[j])
    {
      SendArgumentsPassed(w, i, j);
    }
  }

  lemma SendArgumentsKeeps(contract: Contract, w: Writer, i: nat)
    requires i < |w.calls| && w.calls[i].live && w.calls[i].begun
    ensures Keeps(contract, w, SendArguments(w, i))
  {
    hide ParseAll, DeltaText, ArgumentsText, Executed, Numbered, Slots, Texts, Logged, Open;
    if Inv(contract, w) && Passes(w.calls[i]) {
      SendArgumentsLog(w, i);
      SendArgumentsLogged(w, i);
      SendArgumentsSlots(w, i);
      SendArgumentsTexts(w, i);
    }
  }

  lemma FlushOneKeeps(contract: Contract, w: Writer, i: nat)
    requires i < |w.calls| && (w.calls[i].live || Ready(w.calls[i])) && (w.calls[i].live <==> w.calls[i].begun)
    ensures Keeps(contract, w, FlushOne(w, i))
  {
    hide Inv, Grows, SendArguments, Emit;
    if w.calls[i].live {
      SendArgumentsKeeps(contract, w, i);
    } else {
      var w1 := OpenCall(w, i);
      OpenCallKeeps(contract, w, i);
      SendArgumentsKeeps(contract, w1, i) by { EmitCalls(w, i); }
      EmitCalls(w, i);
      Chain(contract, w, w1, FlushOne(w, i));
    }
  }

  lemma EmitCalls(w: Writer, i: nat)
    requires i < |w.calls|
    ensures OpenCall(w, i).calls == w.calls[i := w.calls[i].(live := true, begun := true)]
  {
  }

  lemma FlushFromKeeps(contract: Contract, w: Writer, i: nat)
    ensures Keeps(contract, w, FlushFrom(w, i))
    decreases |w.calls| - i
  {
    hide Grows, FlushOne, Inv;
    if Inv(contract, w) && i < |w.calls| && (w.calls[i].live || Ready(w.calls[i])) {
      InvLiveness(contract, w, i);
      FlushOneKeeps(contract, w, i);
      FlushOneShape(w, i);
      hide Keeps, Ready;
      FlushFromKeeps(contract, FlushOne(w, i), i + 1);
      Chain(contract, w, FlushOne(w, i), FlushFrom(w, i));
    } else {
      GrowsSelf(w);
    }
  }

  lemma InvLiveness(contract: Contract, w: Writer, i: nat)
    requires Inv(contract, w) && i < |w.calls|
    ensures w.calls[i].live <==> w.calls[i].begun
  {
    hide Logged, Slots, Texts, Parts, Keyed, Open, Executed;
  }

  lemma GrowsSelf(w: Writer)
    ensures Grows(w, w)
  {
  }

  lemma FlushReadyKeeps(contract: Contract, w: Writer)
    ensures Keeps(contract, w, FlushReady(w))
  {
    hide Inv, Grows;
    FlushFromKeeps(contract, w, 0);
    GrowsSelf(w);
  }

  // ---- Call deltas ----

  lemma FailKeeps(contract: Contract, w: Writer, error: string)
    ensures Keeps(contract, w, Fail(w, error))
  {
    TouchKeeps(contract, w, Fail(w, error));
  }

  lemma CallIdentified(contract: Contract, w: Writer, i: nat)
    requires Inv(contract, w) && i < |w.calls|
    ensures Identified(contract, w.calls[i])
  {
    hide Logged, Slots, Texts, Parts, Running, Identified;
  }

  lemma ApplyFunctionKeeps(contract: Contract, w: Writer, i: nat, f: FunctionDelta)
    requires i < |w.calls|
    ensures Keeps(contract, w, ApplyFunction(contract, w, i, f))
  {
    hide Inv, Grows, Fail;
    if Inv(contract, w) {
      CallIdentified(contract, w, i);
      match NameCall(contract, w.calls[i], f.name)
      case None => FailKeeps(contract, w, "upstream changed a streamed tool name");
      case Some(named) =>
        match f.arguments
        case NoArguments => SetCallKeeps(contract, w, i, named);
        case NotAString =>
          SetCallKeeps(contract, w, i, named);
          FailKeeps(contract, SetCall(w, i, named), "upstream tool arguments must be a JSON string");
          Chain(contract, w, SetCall(w, i, named), ApplyFunction(contract, w, i, f));
        case Arguments(text) =>
          SetCallKeeps(contract, w, i, named.(argumentsSeen := true, arguments := named.arguments + text));
    }
  }

  lemma SetIdKeeps(contract: Contract, w: Writer, i: nat, id: CallId)
    requires i < |w.calls| && id != NoId && (w.calls[i].id == NoId || w.calls[i].id == id)
    ensures Keeps(contract, w, SetCall(w, i, w.calls[i].(id := id)))
  {
    hide Inv, Grows;
    if Inv(contract, w) {
      CallIdentified(contract, w, i);
      SetCallKeeps(contract, w, i, w.calls[i].(id := id));
    }
  }

  lemma ApplyItemKeeps(contract: Contract, w: Writer, item: ToolItem)
    ensures Keeps(contract, w, ApplyItem(contract, w, item))
  {
    hide Keeps, Fail, NewCall, ApplyFunction;
    match item
    case NotAnObject => FailKeeps(contract, w, "upstream contained an invalid tool call");
    case ToolDelta(key, id, fn) =>
      var w1 := NewCall(w, key);
      NewCallFound(w, key);
      NewCallKeeps(contract, w, key);
      var i := FindCall(w1.calls, key);
      var call := w1.calls[i];
      if id != NoId && call.id != NoId && call.id != id {
        FailKeeps(contract, w1, "upstream changed a streamed tool call identity");
        Chain(contract, w, w1, ApplyItem(contract, w, item));
      } else {
        var w2 := if id != NoId then SetCall(w1, i, call.(id := id)) else w1;
        if id != NoId {
          SetIdKeeps(contract, w1, i, id);
          Chain(contract, w, w1, w2);
        }
        if fn.Some? {
          ApplyFunctionKeeps(contract, w2, i, fn.value);
          Chain(contract, w, w2, ApplyItem(contract, w, item));
        }
      }
  }

  lemma KeepsSelf(contract: Contract, w: Writer)
    ensures Keeps(contract, w, w)
  {
    GrowsSelf(w);
  }

  lemma ApplyItemsKeeps(contract: Contract, w: Writer, items: seq<ToolItem>)
    ensures Keeps(contract, w, ApplyItems(contract, w, items))
    decreases |items|
  {
    hide Keeps, ApplyItem;
    if items == [] || w.error.Some? {
      KeepsSelf(contract, w);
    } else {
      var w1 := ApplyItem(contract, w, items[0]);
      ApplyItemKeeps(contract, w, items[0]);
      ApplyItemsKeeps(contract, w1, items[1..]);
      Chain(contract, w, w1, ApplyItems(contract, w, items));
    }
  }

  lemma ToolCallDeltaKeeps(contract: Contract, w: Writer, items: seq<ToolItem>)
    ensures Keeps(contract, w, ToolCallDelta(contract, w, items))
  {
    hide Keeps, ApplyItems, FlushReady;
    ApplyItemsKeeps(contract, w, items);
    FlushReadyKeeps(contract, ApplyItems(contract, w, items));
    Chain(contract, w, ApplyItems(contract, w, items), ToolCallDelta(contract, w, items));
  }

  lemma LegacyDeltaKeeps(contract: Contract, w: Writer, f: FunctionDelta)
    ensures Keeps(contract, w, LegacyDelta(contract, w, f))
  {
    hide Keeps, ToolCallDelta, Fail;
    KeepsSelf(contract, w);
    FailKeeps(contract, w, "upstream mixed legacy and modern tool calls");
    var w1 := if w.legacyId.None? then w.(legacyId := Some(w.minted), minted := w.minted + 1) else w;
    TouchKeeps(contract, w, w1);
    var items := [ToolDelta(-1, Generated(w1.legacyId.value), Some(f))];
    ToolCallDeltaKeeps(contract, w1, items);
    Chain(contract, w, w1, ToolCallDelta(contract, w1, items));
  }

  // ---- Choices, lines, frames ----

  lemma SpokenKeeps(contract: Contract, w: Writer, d: ChoiceDelta)
    ensures Keeps(contract, w, Spoken(w, d))
  {
    hide Keeps, ReasoningDelta, TextDelta;
    KeepsSelf(contract, w);
    var w1 := if d.reasoning != "" then ReasoningDelta(w, d.reasoning) else w;
    if d.reasoning != "" {
      ReasoningKeeps(contract, w, d.reasoning);
    }
    var w2 := if d.content != "" then TextDelta(w1, OutputText, d.content) else w1;
    if d.content != "" {
      TextKeeps(contract, w1, OutputText, d.content);
      Chain(contract, w, w1, w2);
    }
    if d.refusal != "" {
      TextKeeps(contract, w2, Refusal, d.refusal);
      Chain(contract, w, w2, Spoken(w, d));
    }
  }

  lemma CalledModernKeeps(contract: Contract, w: Writer, tools: ToolField)
    ensures Keeps(contract, w, CalledModern(contract, w, tools).0)
  {
    hide Keeps, ToolCallDelta, Fail;
    KeepsSelf(contract, w);
    match tools
    case NoTools =>
    case NotAnArray => FailKeeps(contract, w, "upstream tool_calls must be an array");
    case Tools(items) =>
      FailKeeps(contract, w, "upstream mixed legacy and modern tool calls");
      ToolCallDeltaKeeps(contract, w, items);
  }

  lemma CalledLegacyKeeps(contract: Contract, w: Writer, legacy: LegacyField)
    ensures Keeps(contract, w, CalledLegacy(contract, w, legacy).0)
  {
    hide Keeps, LegacyDelta;
    KeepsSelf(contract, w);
    match legacy
    case NoFunction =>
    case NotAFunction =>
      FailKeeps(contract, w, "upstream function_call must be an object");
    case Legacy(f) => LegacyDeltaKeeps(contract, w, f);
  }

  lemma HandleChoiceKeeps(contract: Contract, w: Writer, choice: Choice)
    ensures Keeps(contract, w, HandleChoice(contract, w, choice).0)
  {
    hide Keeps, Spoken, CalledModern, CalledLegacy;
    KeepsSelf(contract, w);
    if choice.Choice? && choice.first {
      var w1 := if choice.finishReason != "" then w.(finishReason := choice.finishReason) else w;
      TouchKeeps(contract, w, w1);
      if choice.delta.Some? {
        var d := choice.delta.value;
        var w2 := Spoken(w1, d);
        SpokenKeeps(contract, w1, d);
        Chain(contract, w, w1, w2);
        CalledModernKeeps(contract, w2, d.tools);
        var w3 := CalledModern(contract, w2, d.tools).0;
        Chain(contract, w, w2, w3);
        CalledLegacyKeeps(contract, w3, d.legacy);
        Chain(contract, w, w3, CalledLegacy(contract, w3, d.legacy).0);
      }
    }
  }

  lemma HandleChoicesKeeps(contract: Contract, w: Writer, choices: seq<Choice>)
    ensures Keeps(contract, w, HandleChoices(contract, w, choices))
    decreases |choices|
  {
    hide Keeps, HandleChoice;
    KeepsSelf(contract, w);
    if choices != [] {
      var w1 := HandleChoice(contract, w, choices[0]).0;
      HandleChoiceKeeps(contract, w, choices[0]);
      HandleChoicesKeeps(contract, w1, choices[1..]);
      Chain(contract, w, w1, HandleChoices(contract, w1, choices[1..]));
    }
  }

  lemma HandleLineKeeps(contract: Contract, parse: string -> Payload, w: Writer, raw: string)
    ensures Keeps(contract, w, HandleLine(contract, parse, w, raw))
  {
    hide Keeps, HandleChoices, TrimCarriageReturns;
    KeepsSelf(contract, w);
    var w' := HandleLine(contract, parse, w, raw);
    var line := TrimCarriageReturns(raw);
    if !w.sawDone && DATA <= line && line[|DATA|..] != "[DONE]" && parse(line[|DATA|..]).Chunk? && w.error.None? {
      HandleChoicesKeeps(contract, w, parse(line[|DATA|..]).choices);
    } else {
      TouchKeeps(contract, w, w');
    }
  }

  lemma HandleLinesKeeps(contract: Contract, parse: string -> Payload, w: Writer, frame: string)
    ensures Keeps(contract, w, HandleLines(contract, parse, w, frame))
    decreases |frame|
  {
    hide Keeps, HandleLine;
    var end := LineEnd(frame, 0);
    var w1 := HandleLine(contract, parse, w, frame[..end]);
    HandleLineKeeps(contract, parse, w, frame[..end]);
    if end < |frame| {
      HandleLinesKeeps(contract, parse, w1, frame[end + 1..]);
      Chain(contract, w, w1, HandleLines(contract, parse, w, frame));
    }
  }

  lemma DrainKeeps(contract: Contract, parse: string -> Payload, w: Writer, b: string)
    ensures Keeps(contract, w, Drain(contract, parse, w, b).writer)
    decreases |b|
  {
    hide Keeps, HandleLines;
    var i := FrameEnd(b, 0);
    KeepsSelf(contract, w);
    if i < |b| {
      var w1 := HandleLines(contract, parse, w, b[..i]);
      HandleLinesKeeps(contract, parse, w, b[..i]);
      DrainKeeps(contract, parse, w1, b[i + 2..]);
      Chain(contract, w, w1, Drain(contract, parse, w, b).writer);
    }
  }

  // ---- The check ----

  lemma AssignIdsKeeps(contract: Contract, w: Writer, i: nat)
    ensures Keeps(contract, w, AssignIds(w, i))
    decreases |w.calls| - i
  {
    hide Keeps;
    KeepsSelf(contract, w);
    if i < |w.calls| {
      if w.calls[i].id != NoId {
        AssignIdsKeeps(contract, w, i + 1);
      } else {
        var w1 := SetCall(w, i, w.calls[i].(id := Generated(w.minted)));
        var w2 := w1.(minted := w.minted + 1);
        SetIdKeeps(contract, w, i, Generated(w.minted));
        TouchKeeps(contract, w1, w2);
        Chain(contract, w, w1, w2);
        AssignIdsKeeps(contract, w2, i + 1);
        Chain(contract, w, w2, AssignIds(w, i));
      }
    }
  }

  lemma CheckKeeps(contract: Contract, w: Writer)
    ensures Keeps(contract, w, Check(contract, w))
  {
    hide Keeps, Verdict, AssignIds, FlushReady;
    KeepsSelf(contract, w);
    if Verdict(contract, w).Some? {
      TouchKeeps(contract, w, Check(contract, w));
    } else {
      var w1 := AssignIds(w, 0);
      AssignIdsKeeps(contract, w, 0);
      FlushReadyKeeps(contract, w1);
      Chain(contract, w, w1, FlushReady(w1));
    }
  }

  lemma BeginInv(contract: Contract)
    ensures Inv(contract, Begin())
  {
    BeginLog();
    hide ParseAll, DeltaText, ArgumentsText, Executed;
  }

  lemma BeginLog()
    ensures var sent := Begin().sent;
            && sent == [Sent(0, Created), Sent(1, Progress)] && ParseAll(sent) == Body(map[]) && Executed(sent) == []
            && (forall kind :: DeltaText(sent, kind) == "") && (forall i :: ArgumentsText(sent, i) == "")
  {
    var s0, s1 := Sent(0, Created), Sent(1, Progress);
    var empty: seq<Sent> := [];
    ParseAppend(empty, s0);
    ParseAppend([s0], s1);
    TextAppend(empty, s0);
    TextAppend([s0], s1);
    ExecutedAppend(empty, s0);
    ExecutedAppend([s0], s1);
    assert empty + [s0] == [s0] && [s0] + [s1] == [s0, s1];
  }

  // ---- Whole runs ----

  lemma ApplyKeeps(contract: Contract, parse: string -> Payload, s: Stream, op: Op)
    ensures Keeps(contract, s.writer, Apply(contract, parse, s, op).writer)
  {
    hide Keeps, Drain, Check;
    match op
    case Bytes(p) => DrainKeeps(contract, parse, s.writer, s.buf + p);
    case Ask => CheckKeeps(contract, s.writer);
  }

  lemma {:induction false} RunInv(contract: Contract, parse: string -> Payload, ops: seq<Op>)
    ensures Inv(contract, RunOps(contract, parse, ops).writer)
  {
    hide Inv, Apply, Grows;
    if ops == [] {
      BeginInv(contract);
    } else {
      var n := |ops| - 1;
      RunInv(contract, parse, ops[..n]);
      ApplyKeeps(contract, parse, RunOps(contract, parse, ops[..n]), ops[n]);
    }
  }

  /** Whatever happens later, a call that started is still there, with what it had. */
  lemma {:induction false} RunGrows(contract: Contract, parse: string -> Payload, ops: seq<Op>, more: seq<Op>)
    ensures Grows(RunOps(contract, parse, ops).writer, RunOps(contract, parse, ops + more).writer)
    decreases |more|
  {
    hide Inv, Apply, Grows;
    if more == [] {
      assert ops + more == ops;
      GrowsSelf(RunOps(contract, parse, ops).writer);
    } else {
      var n := |more| - 1;
      var all := ops + more;
      assert all[..|all| - 1] == ops + more[..n];
      RunGrows(contract, parse, ops, more[..n]);
      var before := RunOps(contract, parse, ops + more[..n]);
      RunInv(contract, parse, ops + more[..n]);
      ApplyKeeps(contract, parse, before, all[|all| - 1]);
      GrowsTransitive(RunOps(contract, parse, ops).writer, before.writer, RunOps(contract, parse, all).writer);
    }
  }
}
