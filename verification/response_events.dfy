/** The events of a Responses stream and the grammar a client relies on. */
module ResponseEvents {

  datatype Kind = Summary | OutputText | Refusal

  datatype ItemStatus = InProgress | Complete | Incomplete

  /** Generated ids are fresh: they are told apart from each other and from upstream ids. */
  datatype CallId = NoId | Given(id: string) | Generated(n: nat)

  datatype Item =
    | ReasoningItem(text: string, status: ItemStatus)
    | MessageItem(content: seq<(Kind, string)>, status: ItemStatus)
    | CallItem(callId: CallId, name: string, arguments: string, custom: bool, status: ItemStatus)

  datatype Outcome = Completed | Truncated | Failed

  datatype Event =
    | Created
    | Progress
    | ItemAdded(index: nat, item: Item)
    | PartAdded(index: nat, part: nat, kind: Kind)
    | Delta(index: nat, part: nat, kind: Kind, text: string)
    | TextDone(index: nat, part: nat, kind: Kind, text: string)
    | PartDone(index: nat, part: nat, kind: Kind, text: string)
    | ArgumentsDelta(index: nat, text: string)
    | ArgumentsDone(index: nat, text: string)
    | ItemDone(index: nat, item: Item)
    | Terminal(outcome: Outcome, output: seq<Item>)

  /** An event with its sequence number. */
  datatype Sent = Sent(number: nat, event: Event)

  /** How an item is announced: in progress and still empty. */
  predicate Fresh(item: Item) {
    && item.status == InProgress
    && match item
       case ReasoningItem(text, _) => text == ""
       case MessageItem(content, _) => content == []
       case CallItem(_, _, arguments, _, _) => arguments == ""
  }

  // ---- The grammar as an automaton ----

  /** Progress of a stream; open maps each announced output index to whether its item is still open. */
  datatype Parse = Nothing | Announced | Body(open: map<nat, bool>) | Ended(open: map<nat, bool>) | Broken

  function ParseStep(p: Parse, e: Event): Parse {
    match (p, e)
    case (Nothing, Created) => Announced
    case (Announced, Progress) => Body(map[])
    case (Body(open), ItemAdded(i, item)) => if i in open || !Fresh(item) then Broken else Body(open[i := true])
    case (Body(open), ItemDone(i, _)) => if i in open && open[i] then Body(open[i := false]) else Broken
    case (Body(open), Terminal(_, _)) => Ended(open)
    case (Body(open), Created) => Broken
    case (Body(open), Progress) => Broken
    case (Body(open), _) => if e.index in open && open[e.index] then p else Broken
    case _ => Broken
  }

  function ParseAll(sent: seq<Sent>): Parse {
    if sent == [] then Nothing else ParseStep(ParseAll(sent[..|sent| - 1]), sent[|sent| - 1].event)
  }

  lemma ParseAppend(sent: seq<Sent>, s: Sent)
    ensures ParseAll(sent + [s]) == ParseStep(ParseAll(sent), s.event)
  {
    assert (sent + [s])[..|sent|] == sent;
  }

  predicate Numbered(sent: seq<Sent>) {
    forall i :: 0 <= i < |sent| ==> sent[i].number == i
  }

  // ---- The grammar as a client reads it ----

  predicate Concerns(e: Event, index: nat) {
    !e.Created? && !e.Progress? && !e.Terminal? && e.index == index
  }

  /** Event k of the stream is announced, empty, by an earlier item-added event and not past its item-done event. */
  ghost predicate WellPlaced(sent: seq<Sent>, k: nat)
    requires k < |sent|
  {
    var e := sent[k].event;
    && (e.Created? <==> k == 0)
    && (e.Progress? <==> k == 1)
    && (e.Terminal? ==> k == |sent| - 1)
    && (!e.Created? && !e.Progress? && !e.Terminal? ==>
          && (!e.ItemAdded? ==> exists a :: 0 <= a < k && AddedAt(sent, a, e.index))
          && (e.ItemAdded? ==> Fresh(e.item) && forall a :: 0 <= a < k ==> !Concerns(sent[a].event, e.index))
          && (forall d :: 0 <= d < k ==> !DoneAt(sent, d, e.index)))
  }

  ghost predicate AddedAt(sent: seq<Sent>, a: int, index: nat) {
    0 <= a < |sent| && sent[a].event.ItemAdded? && sent[a].event.index == index
  }

  ghost predicate DoneAt(sent: seq<Sent>, d: int, index: nat) {
    0 <= d < |sent| && sent[d].event.ItemDone? && sent[d].event.index == index
  }

  /** What the automaton's state says about the events so far. */
  ghost predicate Faithful(sent: seq<Sent>) {
    match ParseAll(sent)
    case Nothing => sent == []
    case Announced => |sent| == 1
    case Body(open) => OpenMeans(sent, open) && |sent| >= 2
    case Ended(open) => OpenMeans(sent, open) && |sent| >= 3
    case Broken => true
  }

  ghost predicate OpenMeans(sent: seq<Sent>, open: map<nat, bool>) {
    && (forall i :: i in open ==> exists a :: AddedAt(sent, a, i))
    && (forall i, d :: DoneAt(sent, d, i) ==> i in open && !open[i])
    && (forall k :: 0 <= k < |sent| && !sent[k].event.Created? && !sent[k].event.Progress? && !sent[k].event.Terminal? ==>
          sent[k].event.index in open)
  }

  lemma {:induction false} ParseIsFaithful(sent: seq<Sent>)
    ensures Faithful(sent)
  {
    if sent != [] {
      var n := |sent| - 1;
      ParseIsFaithful(sent[..n]);
      if ParseAll(sent[..n]).Body? && (ParseAll(sent).Body? || ParseAll(sent).Ended?) {
        OpenGrows(sent, n);
      }
    }
  }

  lemma OpenGrows(sent: seq<Sent>, n: nat)
    requires |sent| == n + 1 && ParseAll(sent[..n]).Body? && OpenMeans(sent[..n], ParseAll(sent[..n]).open)
    requires ParseAll(sent).Body? || ParseAll(sent).Ended?
    ensures OpenMeans(sent, ParseAll(sent).open)
  {
    var before, open, e := ParseAll(sent[..n]).open, ParseAll(sent).open, sent[n].event;
    assert ParseAll(sent) == ParseStep(Body(before), e);
    forall i | i in open
      ensures exists a :: AddedAt(sent, a, i)
    {
      if i in before {
        var a :| AddedAt(sent[..n], a, i);
        assert AddedAt(sent, a, i);
      } else {
        assert AddedAt(sent, n, i);
      }
    }
    forall i, d | DoneAt(sent, d, i)
      ensures i in open && !open[i]
    {
      if d < n {
        assert DoneAt(sent[..n], d, i);
      }
    }
    forall k | 0 <= k < |sent| && !sent[k].event.Created? && !sent[k].event.Progress? && !sent[k].event.Terminal?
      ensures sent[k].event.index in open
    {
      if k < n {
        assert sent[..n][k] == sent[k];
      }
    }
  }

  /** Whatever the automaton accepts satisfies the grammar as the client reads it. */
  lemma {:induction false} ParseMeansGrammar(sent: seq<Sent>, k: nat)
    requires !ParseAll(sent).Broken? && k < |sent|
    ensures WellPlaced(sent, k)
    ensures ParseAll(sent).Ended? ==> sent[|sent| - 1].event.Terminal?
    decreases |sent|
  {
    var n := |sent| - 1;
    ParseIsFaithful(sent[..n]);
    assert forall a :: 0 <= a < n ==> sent[..n][a] == sent[a];
    if k < n {
      ParseMeansGrammar(sent[..n], k);
      assert !sent[k].event.Terminal? by {
        NotEnded(sent, k);
      }
      var e := sent[k].event;
      if !e.Created? && !e.Progress? && !e.Terminal? {
        if !e.ItemAdded? {
          var a :| 0 <= a < k && AddedAt(sent[..n], a, e.index);
          assert AddedAt(sent, a, e.index);
        }
        forall d | 0 <= d < k
          ensures !DoneAt(sent, d, e.index)
        {
          assert !DoneAt(sent[..n], d, e.index);
        }
      }
    } else {
      var e := sent[n].event;
      if ParseAll(sent[..n]).Body? && !e.Terminal? {
        var open := ParseAll(sent[..n]).open;
        forall d | 0 <= d < n
          ensures !DoneAt(sent, d, e.index)
        {
          if DoneAt(sent, d, e.index) {
            assert DoneAt(sent[..n], d, e.index);
          }
        }
        if !e.ItemAdded? {
          var a :| AddedAt(sent[..n], a, e.index);
          assert AddedAt(sent, a, e.index);
        }
      }
    }
  }

  lemma {:induction false} NotEnded(sent: seq<Sent>, k: nat)
    requires !ParseAll(sent).Broken? && k < |sent| - 1
    ensures !sent[k].event.Terminal?
    decreases |sent|
  {
    var n := |sent| - 1;
    if k < n - 1 {
      NotEnded(sent[..n], k);
    } else {
      assert sent[..n][k] == sent[k];
      assert ParseAll(sent[..n]) == ParseStep(ParseAll(sent[..n][..k]), sent[k].event);
    }
  }

  // ---- What the deltas add up to ----

  function DeltaText(sent: seq<Sent>, kind: Kind): string {
    if sent == [] then "" else DeltaText(sent[..|sent| - 1], kind) + DeltaOf(sent[|sent| - 1].event, kind)
  }

  function DeltaOf(e: Event, kind: Kind): string {
    if e.Delta? && e.kind == kind then e.text else ""
  }

  function ArgumentsText(sent: seq<Sent>, index: nat): string {
    if sent == [] then "" else ArgumentsText(sent[..|sent| - 1], index) + ArgumentsOf(sent[|sent| - 1].event, index)
  }

  function ArgumentsOf(e: Event, index: nat): string {
    if e.ArgumentsDelta? && e.index == index then e.text else ""
  }

  lemma TextAppend(sent: seq<Sent>, s: Sent)
    ensures forall kind :: DeltaText(sent + [s], kind) == DeltaText(sent, kind) + DeltaOf(s.event, kind)
    ensures forall i :: ArgumentsText(sent + [s], i) == ArgumentsText(sent, i) + ArgumentsOf(s.event, i)
  {
    assert (sent + [s])[..|sent|] == sent;
  }
}
