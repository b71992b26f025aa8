/** The grammar inside the items of a Responses stream: content parts, and the arguments of calls. */
module ResponseParts {
  import opened Wrappers
  import opened ResponseEvents

  // ---- The grammar as an automaton ----

  /** A part receives deltas, then its whole text, then it is done; text is what the deltas add up to. */
  datatype Part = Flowing(kind: Kind, text: string) | Told(kind: Kind, text: string) | Closed(kind: Kind, text: string)

  /** told holds the arguments of the calls that were told to be whole. */
  datatype Track = Track(parts: map<nat, seq<Part>>, told: map<nat, string>) | Astray

  function At(parts: map<nat, seq<Part>>, index: nat): seq<Part> {
    if index in parts then parts[index] else []
  }

  function Put(t: Track, index: nat, p: nat, part: Part): Track
    requires t.Track? && p < |At(t.parts, index)|
  {
    t.(parts := t.parts[index := At(t.parts, index)[p := part]])
  }

  function Answers(told: map<nat, string>, index: nat): seq<string> {
    if index in told then [told[index]] else []
  }

  /** A done call is told its whole arguments, unless it takes custom input. */
  function AnswersOf(item: Item): seq<string> {
    if item.CallItem? && !item.custom then [item.arguments] else []
  }

  function Contents(parts: seq<Part>): (r: seq<(Kind, string)>)
    ensures |r| == |parts|
  {
    seq(|parts|, p requires 0 <= p < |parts| => (parts[p].kind, parts[p].text))
  }

  predicate AllClosed(parts: seq<Part>) {
    forall p :: 0 <= p < |parts| ==> parts[p].Closed?
  }

  /** A done item shows exactly the texts of its parts. */
  predicate Shows(item: Item, parts: seq<Part>) {
    && AllClosed(parts)
    && match item
       case ReasoningItem(text, _) => Contents(parts) == [(Summary, text)]
       case MessageItem(content, _) => Contents(parts) == content
       case CallItem(_, _, _, _, _) => parts == []
  }

  function PartStep(t: Track, e: Event): Track {
    if t.Astray? then Astray
    else
      match e
      case PartAdded(i, p, kind) =>
        if p == |At(t.parts, i)| then t.(parts := t.parts[i := At(t.parts, i) + [Flowing(kind, "")]]) else Astray
      case Delta(i, p, kind, s) =>
        var parts := At(t.parts, i);
        if p < |parts| && parts[p].Flowing? && parts[p].kind == kind then Put(t, i, p, Flowing(kind, parts[p].text + s)) else Astray
      case TextDone(i, p, kind, s) =>
        if p < |At(t.parts, i)| && At(t.parts, i)[p] == Flowing(kind, s) then Put(t, i, p, Told(kind, s)) else Astray
      case PartDone(i, p, kind, s) =>
        if p < |At(t.parts, i)| && At(t.parts, i)[p] == Told(kind, s) then Put(t, i, p, Closed(kind, s)) else Astray
      case ItemDone(i, item) => if Shows(item, At(t.parts, i)) && Answers(t.told, i) == AnswersOf(item) then t else Astray
      case ArgumentsDelta(i, _) => if i in t.told then Astray else t
      case ArgumentsDone(i, s) => if i in t.told then Astray else t.(told := t.told[i := s])
      case Terminal(outcome, _) =>
        if (forall i :: i in t.parts ==> AllClosed(t.parts[i])) && (outcome != Completed ==> t.told == map[]) then t else Astray
      case Created => t
      case Progress => t
      case ItemAdded(_, _) => t
  }

  function TrackAll(sent: seq<Sent>): Track {
    if sent == [] then Track(map[], map[]) else PartStep(TrackAll(sent[..|sent| - 1]), sent[|sent| - 1].event)
  }

  lemma TrackAppend(sent: seq<Sent>, s: Sent)
    ensures TrackAll(sent + [s]) == PartStep(TrackAll(sent), s.event)
  {
    assert (sent + [s])[..|sent|] == sent;
  }

  // ---- The grammar as a client reads it ----

  predicate AboutPart(e: Event, i: nat, p: nat) {
    (e.PartAdded? || e.Delta? || e.TextDone? || e.PartDone?) && e.index == i && e.part == p
  }

  /** What a client knows of one part: its kind once it was added, the sum of its deltas, whether its text was told and it is done. */
  datatype View = View(kind: Option<Kind>, text: string, told: bool, done: bool)

  const UNSEEN := View(None, "", false, false)

  function Seen(v: View, e: Event, i: nat, p: nat): View {
    if !AboutPart(e, i, p) then v
    else if e.PartAdded? then v.(kind := Some(e.kind))
    else if e.Delta? then v.(text := v.text + e.text)
    else if e.TextDone? then v.(told := true)
    else v.(done := true)
  }

  function ViewOf(sent: seq<Sent>, i: nat, p: nat): View {
    if sent == [] then UNSEEN else Seen(ViewOf(sent[..|sent| - 1], i, p), sent[|sent| - 1].event, i, p)
  }

  /** The arguments that a client was told to be whole, of one call. */
  function Heard(sent: seq<Sent>, i: nat): seq<string> {
    if sent == [] then [] else Heard(sent[..|sent| - 1], i) + HeardFrom(sent[|sent| - 1].event, i)
  }

  function HeardFrom(e: Event, i: nat): seq<string> {
    if e.ArgumentsDone? && e.index == i then [e.text] else []
  }

  predicate Finished(v: View) {
    v.kind.Some? ==> v.done
  }

  /**
   A part is added once, with the next number of its item; deltas of its kind follow until its text is
   told, once and exactly as they add up; then it is done, once, with the same text; an item is done, and
   the stream ends, only after all its parts are done, and a done item shows their texts. A call's arguments
   are told to be whole at most once, after all their deltas and just if the call is then done with them.
   */
  ghost predicate PartPlaced(sent: seq<Sent>, k: nat)
    requires k < |sent|
  {
    var e, before := sent[k].event, sent[..k];
    match e
    case PartAdded(i, p, kind) =>
      ViewOf(before, i, p) == UNSEEN && (p > 0 ==> ViewOf(before, i, p - 1).kind.Some?)
    case Delta(i, p, kind, text) =>
      var v := ViewOf(before, i, p); v.kind == Some(kind) && !v.told && !v.done
    case TextDone(i, p, kind, text) =>
      var v := ViewOf(before, i, p); v.kind == Some(kind) && !v.told && !v.done && text == v.text
    case PartDone(i, p, kind, text) =>
      var v := ViewOf(before, i, p); v.kind == Some(kind) && v.told && !v.done && text == v.text
    case ItemDone(i, item) =>
      && (forall p: nat :: Finished(ViewOf(before, i, p)))
      && (item.ReasoningItem? ==> ViewOf(before, i, 0).text == item.text)
      && (item.MessageItem? ==> forall p :: 0 <= p < |item.content| ==>
            ViewOf(before, i, p).kind == Some(item.content[p].0) && ViewOf(before, i, p).text == item.content[p].1)
      && (item.CallItem? ==> forall p: nat :: ViewOf(before, i, p).kind.None?)
      && Heard(before, i) == AnswersOf(item)
    case ArgumentsDelta(i, _) => Heard(before, i) == []
    case ArgumentsDone(i, _) => Heard(before, i) == []
    case Terminal(outcome, _) =>
      && (forall i: nat, p: nat :: Finished(ViewOf(before, i, p)))
      && (outcome != Completed ==> forall i: nat :: Heard(before, i) == [])
    case _ => true
  }

  // ---- The automaton means the grammar ----

  function Look(parts: map<nat, seq<Part>>, i: nat, p: nat): Option<Part> {
    if p < |At(parts, i)| then Some(At(parts, i)[p]) else None
  }

  function Known(part: Option<Part>): View {
    match part
    case None => UNSEEN
    case Some(x) => View(Some(x.kind), x.text, !x.Flowing?, x.Closed?)
  }

  /** One event moves the record of a part as it moves the client's view. */
  lemma LookStep(t: Track, e: Event, i: nat, p: nat)
    requires t.Track? && PartStep(t, e).Track?
    ensures Known(Look(PartStep(t, e).parts, i, p)) == Seen(Known(Look(t.parts, i, p)), e, i, p)
    ensures Answers(PartStep(t, e).told, i) == Answers(t.told, i) + HeardFrom(e, i)
  {
    hide Shows, AllClosed, AnswersOf;
  }

  lemma {:induction false} TrackMeans(sent: seq<Sent>, i: nat, p: nat)
    requires TrackAll(sent).Track?
    ensures ViewOf(sent, i, p) == Known(Look(TrackAll(sent).parts, i, p))
    ensures Heard(sent, i) == Answers(TrackAll(sent).told, i)
  {
    if sent != [] {
      var n := |sent| - 1;
      TrackMeans(sent[..n], i, p);
      hide PartStep, Seen, Look, Known, Answers, HeardFrom;
      LookStep(TrackAll(sent[..n]), sent[n].event, i, p);
    }
  }

  lemma {:induction false} TrackPrefix(sent: seq<Sent>, k: nat)
    requires TrackAll(sent).Track? && k <= |sent|
    ensures TrackAll(sent[..k]).Track?
    ensures k < |sent| ==> PartStep(TrackAll(sent[..k]), sent[k].event).Track?
  {
    if sent != [] {
      var n := |sent| - 1;
      if k < n {
        TrackPrefix(sent[..n], k);
        assert sent[..n][..k] == sent[..k];
      } else if k == |sent| {
        assert sent[..k] == sent;
      }
    } else {
      assert sent[..k] == sent;
    }
    hide PartStep;
  }

  /** Whatever the automaton accepts satisfies the grammar as the client reads it. */
  lemma TrackMeansGrammar(sent: seq<Sent>, k: nat)
    requires TrackAll(sent).Track? && k < |sent|
    ensures PartPlaced(sent, k)
  {
    TrackPrefix(sent, k);
    var before, t, e := sent[..k], TrackAll(sent[..k]), sent[k].event;
    var parts := t.parts;
    forall i: nat, p: nat
      ensures ViewOf(before, i, p) == Known(Look(parts, i, p))
    {
      TrackMeans(before, i, p);
    }
    forall i: nat
      ensures Heard(before, i) == Answers(t.told, i)
    {
      TrackMeans(before, i, 0);
    }
    hide TrackAll, ViewOf, Heard, AnswersOf;
    assert PartStep(t, e).Track?;
    if e.ItemDone? {
      ShownParts(before, parts, e.index, e.item);
    }
    hide Shows;
    if e.Terminal? {
      assert forall i: nat, p: nat :: p < |At(parts, i)| ==> At(parts, i)[p].Closed?;
    }
  }

  lemma ShownParts(before: seq<Sent>, parts: map<nat, seq<Part>>, i: nat, item: Item)
    requires Shows(item, At(parts, i)) && forall p: nat :: ViewOf(before, i, p) == Known(Look(parts, i, p))
    ensures forall p: nat :: Finished(ViewOf(before, i, p))
    ensures item.ReasoningItem? ==> ViewOf(before, i, 0).text == item.text
    ensures item.MessageItem? ==> forall p :: 0 <= p < |item.content| ==>
              ViewOf(before, i, p).kind == Some(item.content[p].0) && ViewOf(before, i, p).text == item.content[p].1
    ensures item.CallItem? ==> forall p: nat :: ViewOf(before, i, p).kind.None?
  {
    hide ViewOf;
    if item.ReasoningItem? {
      assert Contents(At(parts, i))[0] == (Summary, item.text);
    }
    if item.MessageItem? {
      assert forall p :: 0 <= p < |item.content| ==> Contents(At(parts, i))[p] == item.content[p];
    }
  }
}
