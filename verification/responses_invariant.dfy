/**
 The invariant of the streaming writer: what the event log says, and how the writer's fields
 mirror it. Every operation keeps it, so it holds in every run.
 */
module ResponsesInvariant {
  import opened Wrappers
  import opened ResponseEvents
  import opened ToolPolicy
  import opened ResponsesStream

  // ---- Slots: the items that own an output index ----

  const REASONING := -2
  const MESSAGE := -1

  predicate Used(w: Writer, s: int) {
    || (s == REASONING && w.reason != "")
    || (s == MESSAGE && (w.text != "" || w.refusal != ""))
    || 0 <= s < |w.calls|
  }

  function IndexAt(w: Writer, s: int): nat
    requires Used(w, s)
  {
    if s == REASONING then w.rsIdx else if s == MESSAGE then w.msgIdx else w.calls[s].outIdx
  }

  predicate Begun(w: Writer, s: int)
    requires Used(w, s)
  {
    s < 0 || w.calls[s].begun
  }

  predicate Live(w: Writer, s: int)
    requires Used(w, s)
  {
    if s == REASONING then w.rsOpen else if s == MESSAGE then w.msgOpen else w.calls[s].live
  }

  /** The item as a done event or the final output shows it. */
  function ItemAt(w: Writer, s: int): Item
    requires Used(w, s)
  {
    if s == REASONING then ReasoningItem(w.reason, StatusOf(w))
    else if s == MESSAGE then MessageOf(w, StatusOf(w))
    else CallOf(w.calls[s], StatusOf(w))
  }

  /** The announced output indices, each with whether its item is still open. */
  ghost function Open(sent: seq<Sent>): map<nat, bool> {
    if ParseAll(sent).Body? then ParseAll(sent).open else map[]
  }

  ghost predicate Delivered(sent: seq<Sent>, index: nat, item: Item) {
    exists d :: 0 <= d < |sent| && sent[d].event == ItemDone(index, item)
  }

  // ---- The invariant ----

  ghost predicate Logged(w: Writer) {
    && w.nextSeq == |w.sent|
    && Numbered(w.sent)
    && ParseAll(w.sent).Body?
    && (forall i :: i in Open(w.sent) ==> i < w.nextIdx)
    && (forall i: nat :: i !in Open(w.sent) ==> ArgumentsText(w.sent, i) == "")
  }

  ghost predicate Slot(w: Writer, s: int)
    requires Used(w, s)
  {
    && IndexAt(w, s) < w.nextIdx
    && (IndexAt(w, s) in Open(w.sent) <==> Begun(w, s))
    && (Live(w, s) ==> Begun(w, s) && Open(w.sent)[IndexAt(w, s)])
  }

  ghost predicate Apart(w: Writer, s: int, t: int)
    requires Used(w, s) && Used(w, t)
  {
    s != t ==> IndexAt(w, s) != IndexAt(w, t)
  }

  function Count(b: bool): nat {
    if b then 1 else 0
  }

  ghost predicate Slots(w: Writer) {
    && (forall s :: Used(w, s) ==> Slot(w, s))
    && (forall s, t :: Used(w, s) && Used(w, t) ==> Apart(w, s, t))
    && w.nextIdx == |w.calls| + Count(Used(w, REASONING)) + Count(Used(w, MESSAGE))
  }

  /** The deltas sent so far add up to what the writer holds. */
  ghost predicate Texts(w: Writer) {
    && DeltaText(w.sent, Summary) == w.reason
    && DeltaText(w.sent, OutputText) == w.text
    && DeltaText(w.sent, Refusal) == w.refusal
    && (forall j :: 0 <= j < |w.calls| ==> Passed(w.sent, w.calls[j]))
  }

  ghost predicate Passed(sent: seq<Sent>, call: Call) {
    && call.sent <= |call.arguments|
    && (call.custom || !call.begun ==> call.sent == 0)
    && ArgumentsText(sent, call.outIdx) == call.arguments[..call.sent]
  }

  predicate Parts(w: Writer) {
    && (forall i, j :: 0 <= i < j < |w.parts| ==> w.parts[i] != w.parts[j])
    && Summary !in w.parts
    && (OutputText in w.parts <==> w.text != "")
    && (Refusal in w.parts <==> w.refusal != "")
  }

  predicate Identified(contract: Contract, call: Call) {
    && (call.begun ==> Ready(call))
    && call.custom == (call.name != "" && call.name in contract.customTools)
  }

  predicate Keyed(contract: Contract, w: Writer) {
    && (forall j :: 0 <= j < |w.calls| ==> Identified(contract, w.calls[j]))
    && (forall i, j :: 0 <= i < j < |w.calls| ==> w.calls[i].key != w.calls[j].key)
  }

  /** Until the stream is being finished, nothing is done and everything begun is live. */
  ghost predicate Running(w: Writer) {
    && w.outcome == None
    && w.rsOpen == w.rsPart == (w.reason != "")
    && w.msgOpen == (w.text != "" || w.refusal != "")
    && (forall j :: 0 <= j < |w.calls| ==> w.calls[j].live == w.calls[j].begun)
    && Executed(w.sent) == []
    && (forall i :: i in Open(w.sent) ==> Open(w.sent)[i])
  }

  /** The calls a client has been told to execute, in order. */
  function Executed(sent: seq<Sent>): seq<Invocation> {
    if sent == [] then [] else Executed(sent[..|sent| - 1]) + ExecutedBy(sent[|sent| - 1].event)
  }

  function ExecutedBy(e: Event): seq<Invocation> {
    if e.ItemDone? && e.item.CallItem? then [Invocation(e.item.name, e.item.arguments)] else []
  }

  ghost predicate Inv(contract: Contract, w: Writer) {
    Logged(w) && Slots(w) && Texts(w) && Parts(w) && Keyed(contract, w) && Running(w)
  }

  // ---- One event ----

  lemma ExecutedAppend(sent: seq<Sent>, s: Sent)
    ensures Executed(sent + [s]) == Executed(sent) + ExecutedBy(s.event)
  {
    assert (sent + [s])[..|sent|] == sent;
  }

  /** What sending one event does to everything the invariant reads off the log. */
  ghost predicate Effect(w: Writer, e: Event, w': Writer) {
    && (forall kind :: DeltaText(w'.sent, kind) == DeltaText(w.sent, kind) + DeltaOf(e, kind))
    && (forall i :: ArgumentsText(w'.sent, i) == ArgumentsText(w.sent, i) + ArgumentsOf(e, i))
    && Executed(w'.sent) == Executed(w.sent) + ExecutedBy(e)
    && w'.nextSeq == |w'.sent|
    && Numbered(w'.sent)
    && ParseAll(w'.sent) == ParseStep(ParseAll(w.sent), e)
  }

  lemma EmitEffect(w: Writer, e: Event)
    requires w.nextSeq == |w.sent| && Numbered(w.sent)
    ensures Effect(w, e, Emit(w, e))
  {
    var s := Sent(w.nextSeq, e);
    ParseAppend(w.sent, s);
    TextAppend(w.sent, s);
    ExecutedAppend(w.sent, s);
  }
}
