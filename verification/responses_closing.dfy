/** Closing the items of a stream once its outcome is decided. */
module ResponsesClosing {
  import opened ResponseEvents
  import opened ToolPolicy
  import opened ResponsesStream
  import opened ResponsesInvariant

  // ---- Events that end something ----

  /** sent' continues sent without deltas, and tells the client to execute more. */
  ghost predicate Told(sent: seq<Sent>, sent': seq<Sent>, more: seq<Invocation>) {
    && Numbered(sent')
    && ParseAll(sent').Body?
    && (forall k :: DeltaText(sent', k) == DeltaText(sent, k))
    && (forall i :: ArgumentsText(sent', i) == ArgumentsText(sent, i))
    && Executed(sent') == Executed(sent) + more
    && sent <= sent'
  }

  predicate Ends(e: Event) {
    e.TextDone? || e.PartDone? || e.ArgumentsDone? || e.ItemDone?
  }

  lemma EmitTold(w: Writer, e: Event)
    requires w.nextSeq == |w.sent| && Numbered(w.sent) && ParseAll(w.sent).Body?
    requires Ends(e) && e.index in Open(w.sent) && Open(w.sent)[e.index]
    ensures Told(w.sent, Emit(w, e).sent, ExecutedBy(e))
    ensures Emit(w, e).nextSeq == |Emit(w, e).sent|
    ensures Open(Emit(w, e).sent) == if e.ItemDone? then Open(w.sent)[e.index := false] else Open(w.sent)
    ensures e.ItemDone? ==> Delivered(Emit(w, e).sent, e.index, e.item)
  {
    EmitEffect(w, e);
    EmitFields(w, e);
    hide ParseAll, DeltaText, ArgumentsText, Executed, Numbered, Emit;
    var sent' := Emit(w, e).sent;
    assert sent'[|w.sent|].event == e;
  }

  lemma ToldChain(sent: seq<Sent>, sent': seq<Sent>, sent'': seq<Sent>, more: seq<Invocation>)
    requires Told(sent, sent', []) && Told(sent', sent'', more)
    ensures Told(sent, sent'', more)
  {
    hide ParseAll, DeltaText, ArgumentsText, Executed, Numbered;
  }

  // ---- The invariant while closing ----

  /** A begun item whose index was closed was delivered; one that is not live any more was closed, if calls may be done. */
  ghost predicate Settled(w: Writer, s: int)
    requires Used(w, s)
  {
    var index := IndexAt(w, s);
    Begun(w, s) && index in Open(w.sent) ==>
      && (!Open(w.sent)[index] ==> Delivered(w.sent, index, ItemAt(w, s)))
      && (!Live(w, s) && StatusOf(w) == Complete ==> !Open(w.sent)[index])
  }

  ghost predicate Closing(w: Writer) {
    && Logged(w) && Slots(w) && Texts(w)
    && w.outcome.Some?
    && (forall s :: Used(w, s) ==> Settled(w, s))
  }

  /** Step from w to w' that finishes slot s. */
  ghost predicate Closes(w: Writer, w': Writer, s: int, more: seq<Invocation>) {
    && Used(w, s) && Live(w, s)
    && w'.nextSeq == |w'.sent|
    && Told(w.sent, w'.sent, more)
    && Open(w'.sent) == Open(w.sent)[IndexAt(w, s) := false]
    && Delivered(w'.sent, IndexAt(w, s), ItemAt(w, s))
    && Used(w', s) && !Live(w', s)
    && SameButLive(w, w')
    && (forall t :: Used(w, t) && t != s ==> Live(w', t) == Live(w, t))
  }

  predicate SameCallButLive(call: Call, call': Call) {
    call' == call.(live := call'.live)
  }

  predicate SameButLive(w: Writer, w': Writer) {
    && |w'.calls| == |w.calls|
    && (forall j :: 0 <= j < |w.calls| ==> SameCallButLive(w.calls[j], w'.calls[j]))
    && w' == w.(sent := w'.sent, nextSeq := w'.nextSeq, rsOpen := w'.rsOpen, rsPart := w'.rsPart, msgOpen := w'.msgOpen, calls := w'.calls)
  }

  lemma SlotView(w: Writer, w': Writer, s: int)
    requires SameButLive(w, w')
    ensures Used(w', s) == Used(w, s)
    ensures Used(w, s) ==> IndexAt(w', s) == IndexAt(w, s) && Begun(w', s) == Begun(w, s) && ItemAt(w', s) == ItemAt(w, s)
    ensures StatusOf(w') == StatusOf(w)
  {
    assert 0 <= s < |w.calls| ==> SameCallButLive(w.calls[s], w'.calls[s]);
  }

  lemma SlotViews(w: Writer, w': Writer)
    requires SameButLive(w, w')
    ensures forall s :: Used(w', s) == Used(w, s)
    ensures forall s :: Used(w, s) ==> IndexAt(w', s) == IndexAt(w, s) && Begun(w', s) == Begun(w, s) && ItemAt(w', s) == ItemAt(w, s)
    ensures StatusOf(w') == StatusOf(w)
  {
    forall s: int
      ensures Used(w', s) == Used(w, s)
      ensures Used(w, s) ==> IndexAt(w', s) == IndexAt(w, s) && Begun(w', s) == Begun(w, s) && ItemAt(w', s) == ItemAt(w, s)
    {
      SlotView(w, w', s);
    }
    SlotView(w, w', 0);
  }

  lemma SlotOpen(w: Writer, s: int)
    requires Slots(w) && Used(w, s) && Live(w, s)
    ensures IndexAt(w, s) in Open(w.sent) && Open(w.sent)[IndexAt(w, s)] && Begun(w, s)
  {
    hide Open;
    assert Slot(w, s);
  }

  lemma ClosesSlots(w: Writer, w': Writer, s: int, more: seq<Invocation>)
    requires Slots(w) && Closes(w, w', s, more)
    ensures Slots(w')
  {
    SlotViews(w, w');
    SlotOpen(w, s);
    hide Used, IndexAt, Begun, Live, Open, ItemAt, Told, Delivered, SameCallButLive;
    forall t | Used(w', t)
      ensures Slot(w', t)
    {
      assert Slot(w, t) && Apart(w, s, t);
    }
    forall t, u | Used(w', t) && Used(w', u)
      ensures Apart(w', t, u)
    {
      assert Apart(w, t, u);
    }
  }

  lemma DeliveredStays(sent: seq<Sent>, sent': seq<Sent>, index: nat, item: Item)
    requires Delivered(sent, index, item) && sent <= sent'
    ensures Delivered(sent', index, item)
  {
    var d :| 0 <= d < |sent| && sent[d].event == ItemDone(index, item);
    assert sent'[d].event == ItemDone(index, item);
  }

  lemma ClosesSettled(w: Writer, w': Writer, s: int, more: seq<Invocation>, t: int)
    requires Slots(w) && Closes(w, w', s, more) && Used(w, t) && Settled(w, t)
    ensures Used(w', t) && Settled(w', t)
  {
    SlotView(w, w', t);
    assert Apart(w, s, t);
    hide Used, IndexAt, Begun, Live, Open, ItemAt, Told, Delivered, SameCallButLive, Slots;
    if t != s && IndexAt(w, t) in Open(w.sent) && !Open(w.sent)[IndexAt(w, t)] && Begun(w, t) {
      ToldGrows(w, w', more);
      DeliveredStays(w.sent, w'.sent, IndexAt(w, t), ItemAt(w, t));
    }
  }

  lemma ToldGrows(w: Writer, w': Writer, more: seq<Invocation>)
    requires Told(w.sent, w'.sent, more)
    ensures w.sent <= w'.sent
  {
  }

  lemma ClosesTexts(w: Writer, w': Writer, s: int, more: seq<Invocation>)
    requires Logged(w) && Texts(w) && Slots(w) && Closes(w, w', s, more)
    ensures Logged(w') && Texts(w')
  {
    SlotOpen(w, s);
    hide ParseAll, DeltaText, ArgumentsText, Executed, Numbered, Open, Slots, Live, Used, Delivered;
    forall j | 0 <= j < |w'.calls|
      ensures Passed(w'.sent, w'.calls[j])
    {
      assert Passed(w.sent, w.calls[j]) && SameCallButLive(w.calls[j], w'.calls[j]);
    }
  }

  lemma ClosesKeeps(w: Writer, w': Writer, s: int, more: seq<Invocation>)
    requires Closing(w) && Closes(w, w', s, more)
    ensures Closing(w')
  {
    ClosesSlots(w, w', s, more);
    ClosesTexts(w, w', s, more);
    SlotViews(w, w');
    hide Slots, Logged, Texts, Used, IndexAt, Live, Told, Delivered, Settled, ItemAt, Begun;
    forall t | Used(w', t)
      ensures Settled(w', t)
    {
      ClosesSettled(w, w', s, more, t);
    }
  }

  // ---- Reasoning and message ----

  ghost predicate LogOk(w: Writer) {
    w.nextSeq == |w.sent| && Numbered(w.sent) && ParseAll(w.sent).Body?
  }

  lemma EmitEnds(w: Writer, e: Event)
    requires LogOk(w) && Ends(e) && e.index in Open(w.sent) && Open(w.sent)[e.index]
    ensures var w' := Emit(w, e);
            && LogOk(w')
            && Told(w.sent, w'.sent, ExecutedBy(e))
            && Open(w'.sent) == (if e.ItemDone? then Open(w.sent)[e.index := false] else Open(w.sent))
            && (e.ItemDone? ==> Delivered(w'.sent, e.index, e.item))
            && w' == w.(sent := w'.sent, nextSeq := w'.nextSeq)
  {
    EmitTold(w, e);
    EmitFields(w, e);
    hide ParseAll, DeltaText, ArgumentsText, Executed, Numbered, Emit, Open, Delivered;
  }

  lemma ReasoningTold(w: Writer)
    requires LogOk(w) && w.rsOpen && w.rsPart && w.rsIdx in Open(w.sent) && Open(w.sent)[w.rsIdx]
    ensures var w' := CloseReasoning(w);
            && LogOk(w')
            && Told(w.sent, w'.sent, [])
            && Open(w'.sent) == Open(w.sent)[w.rsIdx := false]
            && Delivered(w'.sent, w.rsIdx, ReasoningItem(w.reason, StatusOf(w)))
            && w' == w.(sent := w'.sent, nextSeq := w'.nextSeq, rsOpen := false, rsPart := false)
  {
    hide LogOk, Told, Open, Delivered, Emit, Executed;
    var e0, e1 := TextDone(w.rsIdx, 0, Summary, w.reason), PartDone(w.rsIdx, 0, Summary, w.reason);
    var w0 := Emit(w, e0);
    EmitEnds(w, e0);
    var w1 := Emit(w0, e1);
    EmitEnds(w0, e1);
    ToldChain(w.sent, w0.sent, w1.sent, []);
    var w2 := w1.(rsPart := false);
    LogOkFields(w1, w2);
    var e2 := ItemDone(w.rsIdx, ReasoningItem(w.reason, StatusOf(w)));
    EmitEnds(w2, e2);
    assert ExecutedBy(e2) == [];
    ToldChain(w.sent, w1.sent, Emit(w2, e2).sent, []);
    LogOkFields(Emit(w2, e2), CloseReasoning(w));
  }

  lemma LogOkFields(w: Writer, w': Writer)
    requires LogOk(w) && w'.sent == w.sent && w'.nextSeq == w.nextSeq
    ensures LogOk(w')
  {
  }

  lemma LoggedOk(w: Writer)
    requires Logged(w)
    ensures LogOk(w)
  {
  }

  lemma LogOkCount(w: Writer)
    requires LogOk(w)
    ensures w.nextSeq == |w.sent|
  {
  }

  lemma ReasoningCloses(w: Writer)
    requires LogOk(w) && Slots(w) && w.rsOpen && w.rsPart && w.reason != ""
    ensures Closes(w, CloseReasoning(w), REASONING, [])
    ensures CloseReasoning(w).msgOpen == w.msgOpen && CloseReasoning(w).calls == w.calls
  {
    SlotOpen(w, REASONING);
    ReasoningTold(w);
    LogOkCount(CloseReasoning(w));
    hide CloseReasoning, LogOk, Told, Open, Delivered, Slots;
  }

  lemma ToldNothing(sent: seq<Sent>)
    requires Numbered(sent) && ParseAll(sent).Body?
    ensures Told(sent, sent, [])
  {
  }

  lemma {:induction false} PartsTold(w: Writer, i: nat)
    requires LogOk(w) && w.msgIdx in Open(w.sent) && Open(w.sent)[w.msgIdx]
    ensures var w' := CloseParts(w, i);
            && LogOk(w')
            && Told(w.sent, w'.sent, [])
            && Open(w'.sent) == Open(w.sent)
            && w' == w.(sent := w'.sent, nextSeq := w'.nextSeq)
    decreases |w.parts| - i
  {
    if i < |w.parts| {
      hide LogOk, Told, Open, Delivered, Emit, Executed;
      var kind := w.parts[i];
      var e0, e1 := TextDone(w.msgIdx, i, kind, PartText(w, kind)), PartDone(w.msgIdx, i, kind, PartText(w, kind));
      var w0 := Emit(w, e0);
      EmitEnds(w, e0);
      var w1 := Emit(w0, e1);
      EmitEnds(w0, e1);
      ToldChain(w.sent, w0.sent, w1.sent, []);
      PartsTold(w1, i + 1);
      ToldChain(w.sent, w1.sent, CloseParts(w1, i + 1).sent, []);
    } else {
      ToldNothing(w.sent);
    }
  }

  lemma MessageTold(w: Writer)
    requires LogOk(w) && w.msgOpen && w.msgIdx in Open(w.sent) && Open(w.sent)[w.msgIdx]
    ensures var w' := CloseMessage(w);
            && LogOk(w')
            && Told(w.sent, w'.sent, [])
            && Open(w'.sent) == Open(w.sent)[w.msgIdx := false]
            && Delivered(w'.sent, w.msgIdx, MessageOf(w, StatusOf(w)))
            && w' == w.(sent := w'.sent, nextSeq := w'.nextSeq, msgOpen := false)
  {
    PartsTold(w, 0);
    hide LogOk, Told, Open, Delivered, Emit, Executed, CloseParts;
    var w1 := CloseParts(w, 0);
    assert MessageOf(w1, StatusOf(w1)) == MessageOf(w, StatusOf(w)) by { assert MessageContent(w1) == MessageContent(w); }
    var e := ItemDone(w1.msgIdx, MessageOf(w1, StatusOf(w1)));
    EmitEnds(w1, e);
    ToldChain(w.sent, w1.sent, Emit(w1, e).sent, []);
    LogOkFields(Emit(w1, e), CloseMessage(w));
  }

  lemma MessageFields(w: Writer, w': Writer)
    requires w' == w.(sent := w'.sent, nextSeq := w'.nextSeq, msgOpen := false)
    requires w.msgOpen && (w.text != "" || w.refusal != "")
    ensures SameButLive(w, w') && Used(w, MESSAGE) && Used(w', MESSAGE) && Live(w, MESSAGE) && !Live(w', MESSAGE)
    ensures IndexAt(w, MESSAGE) == w.msgIdx && ItemAt(w, MESSAGE) == MessageOf(w, StatusOf(w))
    ensures forall t :: Used(w, t) && t != MESSAGE ==> Live(w', t) == Live(w, t)
  {
    hide MessageOf, StatusOf;
  }

  lemma MessageCloses(w: Writer)
    requires LogOk(w) && Slots(w) && w.msgOpen && (w.text != "" || w.refusal != "")
    ensures Closes(w, CloseMessage(w), MESSAGE, [])
    ensures CloseMessage(w).rsOpen == w.rsOpen && CloseMessage(w).calls == w.calls
  {
    MessageFields(w, w.(msgOpen := false));
    SlotOpen(w, MESSAGE);
    MessageTold(w);
    LogOkCount(CloseMessage(w));
    MessageFields(w, CloseMessage(w));
    hide CloseMessage, MessageOf, StatusOf, LogOk, Told, Open, Delivered, Slots, Begun, Used, Live, IndexAt, ItemAt, SameButLive;
  }

  // ---- Calls ----

  lemma CallTold(w: Writer, i: nat)
    requires LogOk(w) && i < |w.calls| && w.calls[i].live && StatusOf(w) == Complete
    requires w.calls[i].outIdx in Open(w.sent) && Open(w.sent)[w.calls[i].outIdx]
    ensures var w', call := CloseCall(w, i), w.calls[i];
            && LogOk(w')
            && Told(w.sent, w'.sent, [Invocation(call.name, call.arguments)])
            && Open(w'.sent) == Open(w.sent)[call.outIdx := false]
            && Delivered(w'.sent, call.outIdx, CallOf(call, Complete))
            && w' == w.(sent := w'.sent, nextSeq := w'.nextSeq, calls := w.calls[i := call.(live := false)])
  {
    hide LogOk, Told, Open, Delivered, Emit, Executed;
    var call := w.calls[i];
    var e1 := ItemDone(call.outIdx, CallOf(call, Complete));
    if call.custom {
      EmitEnds(w, e1);
      LogOkFields(Emit(w, e1), CloseCall(w, i));
    } else {
      var e0 := ArgumentsDone(call.outIdx, call.arguments);
      var w1 := Emit(w, e0);
      EmitEnds(w, e0);
      EmitEnds(w1, e1);
      assert ExecutedBy(e0) == [];
      ToldChain(w.sent, w1.sent, Emit(w1, e1).sent, ExecutedBy(e1));
      LogOkFields(Emit(w1, e1), CloseCall(w, i));
    }
  }

  lemma CallFields(w: Writer, w': Writer, i: nat)
    requires i < |w.calls| && w.calls[i].live && StatusOf(w) == Complete
    requires w' == w.(sent := w'.sent, nextSeq := w'.nextSeq, calls := w.calls[i := w.calls[i].(live := false)])
    ensures SameButLive(w, w') && Used(w, i) && Used(w', i) && Live(w, i) && !Live(w', i)
    ensures IndexAt(w, i) == w.calls[i].outIdx && ItemAt(w, i) == CallOf(w.calls[i], Complete)
    ensures forall t :: Used(w, t) && t != i ==> Live(w', t) == Live(w, t)
  {
    hide CallOf;
  }

  lemma CallCloses(w: Writer, i: nat)
    requires LogOk(w) && Slots(w) && i < |w.calls| && w.calls[i].live && StatusOf(w) == Complete
    ensures Closes(w, CloseCall(w, i), i, [Invocation(w.calls[i].name, w.calls[i].arguments)])
    ensures CloseCall(w, i).rsOpen == w.rsOpen && CloseCall(w, i).msgOpen == w.msgOpen
    ensures CloseCall(w, i).calls == w.calls[i := w.calls[i].(live := false)]
  {
    CallFields(w, w.(calls := w.calls[i := w.calls[i].(live := false)]), i);
    SlotOpen(w, i);
    CallTold(w, i);
    LogOkCount(CloseCall(w, i));
    CallFields(w, CloseCall(w, i), i);
    hide CloseCall, CallOf, StatusOf, LogOk, Told, Open, Delivered, Slots, Begun, Used, Live, IndexAt, ItemAt, SameButLive;
  }

  lemma DroppedSlot(w: Writer, w': Writer, s: int)
    requires Used(w, s) && Slot(w, s) && Settled(w, s) && StatusOf(w) != Complete
    requires SameButLive(w, w') && w'.sent == w.sent && (Used(w', s) && Live(w', s) ==> Live(w, s))
    ensures Used(w', s) && Slot(w', s) && Settled(w', s)
  {
    SlotView(w, w', s);
    hide Used, IndexAt, Begun, Live, Open, ItemAt, Delivered, StatusOf;
  }

  lemma DroppedApart(w: Writer, w': Writer, s: int, t: int)
    requires SameButLive(w, w') && Used(w, s) && Used(w, t) && Apart(w, s, t)
    ensures Used(w', s) && Used(w', t) && Apart(w', s, t)
  {
    SlotView(w, w', s);
    SlotView(w, w', t);
    hide Used, IndexAt;
  }

  lemma DroppedCounts(w: Writer, w': Writer)
    requires SameButLive(w, w') && Slots(w)
    ensures w'.nextIdx == |w'.calls| + Count(Used(w', REASONING)) + Count(Used(w', MESSAGE))
  {
    SlotView(w, w', REASONING);
    SlotView(w, w', MESSAGE);
    hide Slot, Apart, Used;
  }

  lemma DroppedAll(w: Writer, w': Writer)
    requires Closing(w) && StatusOf(w) != Complete && SameButLive(w, w') && w'.sent == w.sent
    requires forall s :: Used(w, s) && Used(w', s) && Live(w', s) ==> Live(w, s)
    ensures Slots(w') && forall s :: Used(w', s) ==> Settled(w', s)
  {
    DroppedCounts(w, w') by { hide Logged, Texts, Settled; }
    SlotViews(w, w');
    hide Logged, Texts, Open, StatusOf, Live, Used, IndexAt, Begun, ItemAt, Slot, Settled, Apart, SameButLive;
    forall s | Used(w', s)
      ensures Slot(w', s) && Settled(w', s)
    {
      DroppedSlot(w, w', s);
    }
    forall s, t | Used(w', s) && Used(w', t)
      ensures Apart(w', s, t)
    {
      DroppedApart(w, w', s, t);
    }
  }

  lemma DroppedTexts(w: Writer, i: nat)
    requires Logged(w) && Texts(w) && i < |w.calls|
    ensures var w' := SetCall(w, i, w.calls[i].(live := false)); Logged(w') && Texts(w')
  {
    hide ParseAll, DeltaText, ArgumentsText, Executed, Numbered, Open;
    var w' := SetCall(w, i, w.calls[i].(live := false));
    assert forall j :: 0 <= j < |w'.calls| ==> Passed(w.sent, w.calls[j]) ==> Passed(w'.sent, w'.calls[j]);
  }

  lemma DroppedLive(w: Writer, i: nat)
    requires i < |w.calls|
    ensures var w' := SetCall(w, i, w.calls[i].(live := false));
            && SameButLive(w, w')
            && forall s :: Used(w, s) && Used(w', s) && Live(w', s) ==> Live(w, s)
  {
  }

  /** A call of a failed or truncated response is only forgotten: no event. */
  lemma CallDropped(w: Writer, i: nat)
    requires Closing(w) && i < |w.calls| && StatusOf(w) != Complete
    ensures Closing(SetCall(w, i, w.calls[i].(live := false)))
  {
    var w' := SetCall(w, i, w.calls[i].(live := false));
    DroppedLive(w, i);
    DroppedTexts(w, i) by { hide Settled, Slots; }
    hide Logged, Slots, Texts, Settled, Used, Live, SameButLive, StatusOf;
    DroppedAll(w, w');
  }

  predicate LiveFrom(w: Writer, i: nat) {
    forall j :: i <= j < |w.calls| ==> w.calls[j].live == w.calls[j].begun
  }

  /** What closing one call does, whatever the outcome. */
  lemma CloseCallKeeps(w: Writer, i: nat)
    requires Closing(w) && i < |w.calls|
    ensures var w' := CloseCall(w, i);
            && Closing(w')
            && SameButLive(w, w')
            && w'.rsOpen == w.rsOpen && w'.msgOpen == w.msgOpen
            && w'.calls == w.calls[i := w.calls[i].(live := false)]
            && w.sent <= w'.sent
            && Executed(w'.sent) == Executed(w.sent)
                 + if w.calls[i].live && StatusOf(w) == Complete then [Invocation(w.calls[i].name, w.calls[i].arguments)] else []
  {
    if w.calls[i].live && StatusOf(w) == Complete {
      var more := [Invocation(w.calls[i].name, w.calls[i].arguments)];
      LoggedOk(w);
      CallCloses(w, i);
      hide CloseCall, Closing;
      ClosesKeeps(w, CloseCall(w, i), i, more);
      hide ParseAll, DeltaText, ArgumentsText, Executed, Numbered, Open, Delivered, StatusOf;
    } else {
      if w.calls[i].live {
        CallDropped(w, i);
      }
      hide Closing, Executed;
    }
  }

  function InvocationsFrom(calls: seq<Call>, i: nat): seq<Invocation>
    decreases |calls| - i
  {
    if i >= |calls| then [] else [Invocation(calls[i].name, calls[i].arguments)] + InvocationsFrom(calls, i + 1)
  }

  lemma {:induction false} CloseCallsKeeps(w: Writer, i: nat)
    requires Closing(w) && LiveFrom(w, i)
    ensures var w' := CloseCalls(w, i);
            && Closing(w')
            && SameButLive(w, w')
            && w'.rsOpen == w.rsOpen && w'.msgOpen == w.msgOpen
            && w.sent <= w'.sent
            && (forall j :: i <= j < |w.calls| ==> !w'.calls[j].live)
            && (forall j :: 0 <= j < i && j < |w.calls| ==> w'.calls[j] == w.calls[j])
    ensures StatusOf(w) != Complete ==> Executed(CloseCalls(w, i).sent) == Executed(w.sent)
    ensures StatusOf(w) == Complete && (forall j :: i <= j < |w.calls| ==> w.calls[j].begun)
            ==> Executed(CloseCalls(w, i).sent) == Executed(w.sent) + InvocationsFrom(w.calls, i)
    decreases |w.calls| - i
  {
    hide Closing, Executed, CloseCall;
    if i < |w.calls| {
      var w1 := CloseCall(w, i);
      CloseCallKeeps(w, i);
      CloseCallsKeeps(w1, i + 1);
      InvocationsFromSame(w.calls, w1.calls, i + 1);
      SameButLiveChain(w, w1, CloseCalls(w1, i + 1));
    } else {
      SameButLiveSelf(w);
    }
  }

  lemma SameButLiveSelf(w: Writer)
    ensures SameButLive(w, w)
  {
  }

  lemma SameButLiveChain(w: Writer, w': Writer, w'': Writer)
    requires SameButLive(w, w') && SameButLive(w', w'')
    ensures SameButLive(w, w'')
    ensures StatusOf(w') == StatusOf(w)
  {
    forall j | 0 <= j < |w.calls|
      ensures SameCallButLive(w.calls[j], w''.calls[j])
    {
      assert SameCallButLive(w.calls[j], w'.calls[j]) && SameCallButLive(w'.calls[j], w''.calls[j]);
    }
  }

  lemma {:induction false} InvocationsFromSame(calls: seq<Call>, calls': seq<Call>, i: nat)
    requires |calls'| == |calls|
    requires forall j :: i <= j < |calls| ==> calls'[j] == calls[j]
    ensures InvocationsFrom(calls', i) == InvocationsFrom(calls, i)
    decreases |calls| - i
  {
    if i < |calls| {
      InvocationsFromSame(calls, calls', i + 1);
    }
  }

  lemma {:induction false} InvocationsFromAll(calls: seq<Call>, i: nat)
    requires i <= |calls|
    ensures InvocationsFrom(calls, i) == Invocations(calls)[i..]
    decreases |calls| - i
  {
    if i < |calls| {
      InvocationsFromAll(calls, i + 1);
      assert Invocations(calls)[i..] == [Invocations(calls)[i]] + Invocations(calls)[i + 1..];
    }
  }
}
