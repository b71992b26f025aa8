/** Calls and their replies: what a translated history says of each call, and that its reply finds it. */
module HistoryCalls {
  import opened Wrappers
  import Text
  import opened History
  import opened HistoryTurns

  // ---- Where an event of the history stands ----

  lemma {:induction false} TraceAt(msgs: seq<Message>, p: nat) returns (a: nat)
    requires p < |Trace(msgs)|
    ensures a < |msgs| && |Trace(msgs[..a])| <= p < |Trace(msgs[..a + 1])|
    ensures Trace(msgs)[p] in MessageEvents(msgs[a])
  {
    hide MessageEvents;
    var n := |msgs| - 1;
    assert msgs[..n + 1] == msgs;
    if p >= |Trace(msgs[..n])| {
      a := n;
    } else {
      a := TraceAt(msgs[..n], p);
      assert msgs[..n][..a] == msgs[..a] && msgs[..n][..a + 1] == msgs[..a + 1];
    }
  }

  lemma {:induction false} TraceGrows(msgs: seq<Message>, a: nat, b: nat)
    requires a <= b <= |msgs|
    ensures |Trace(msgs[..a])| <= |Trace(msgs[..b])|
    decreases b
  {
    hide MessageEvents;
    if a < b {
      TraceGrows(msgs, a, b - 1);
      assert msgs[..b][..b - 1] == msgs[..b - 1];
    }
  }

  /** Earlier events stand in earlier messages. */
  lemma TraceOrder(msgs: seq<Message>, p: nat, q: nat) returns (a: nat, b: nat)
    requires p < q < |Trace(msgs)|
    ensures a <= b < |msgs| && Trace(msgs)[p] in MessageEvents(msgs[a]) && Trace(msgs)[q] in MessageEvents(msgs[b])
  {
    hide Trace, MessageEvents;
    a := TraceAt(msgs, p);
    b := TraceAt(msgs, q);
    if b < a {
      TraceGrows(msgs, b + 1, a);
    }
  }

  lemma CalledIs(m: Message, call: Call)
    requires Called(call) in MessageEvents(m)
    ensures call in m.calls
  {
    assert forall i :: 0 <= i < |m.calls| ==> CallEvents(m.calls)[i] == Called(m.calls[i]);
  }

  lemma RepliedIs(m: Message, id: string, output: Content)
    requires Replied(id, output) in MessageEvents(m)
    ensures m.reply == Some(id) && m.content == output
  {
  }

  lemma {:induction false} ItemTraceGrows(naming: Naming, items: seq<Item>, i: nat, j: nat)
    requires i < j <= |items|
    ensures |ItemTrace(naming, items[..i])| + |ItemEvents(naming, items[i])| <= |ItemTrace(naming, items[..j])|
    ensures ItemEvents(naming, items[i]) != [] ==> ItemTrace(naming, items[..j])[|ItemTrace(naming, items[..i])|] == ItemEvents(naming, items[i])[0]
    decreases j
  {
    hide ItemEvents;
    assert items[..j][..j - 1] == items[..j - 1];
    if i < j - 1 {
      ItemTraceGrows(naming, items, i, j - 1);
    }
  }

  // ---- Replies ----

  predicate CallsAs(item: Item, callId: string) {
    (item.FunctionCall? || item.CustomCall?) && item.callId == callId
  }

  predicate AnswersTo(item: Item, callId: string) {
    (item.FunctionOutput? || item.CustomOutput?) && item.callId == callId
  }

  /** Message b answers the call of this id, which message a before it makes. */
  predicate Paired(msgs: seq<Message>, a: int, b: int, callId: string, output: Content) {
    && 0 <= a < b < |msgs|
    && msgs[a].role == "assistant" && (exists k :: 0 <= k < |msgs[a].calls| && msgs[a].calls[k].id == callId)
    && msgs[b].role == "tool" && msgs[b].reply == Some(callId) && msgs[b].content == output
  }

  /** A call with a call id and an output with the same id behind it end as a call and its answer. */
  lemma RepliesPaired(naming: Naming, items: seq<Item>, instructions: string, deepSeek: bool, i: nat, j: nat, callId: string)
    requires i < j < |items| && callId != "" && CallsAs(items[i], callId) && AnswersTo(items[j], callId)
    ensures exists a, b :: Paired(Translate(naming, Items(items), instructions, deepSeek), a, b, callId, items[j].output)
  {
    hide Translate, Trace, ItemTrace, Shaped, Speech, ItemSpeech, Paired;
    var out := Translate(naming, Items(items), instructions, deepSeek);
    TranslationConserves(naming, items, instructions, deepSeek);
    var said := if Text.Blank(instructions) then [] else [Said("system", Plain(instructions))];
    var p, q, call := Positions(naming, items, i, j, callId);
    BehindSaid(out, said, ItemTrace(naming, items), p, q, call, items[j].output);
  }

  lemma BehindSaid(out: seq<Message>, said: seq<Event>, trace: seq<Event>, p: nat, q: nat, call: Call, output: Content)
    requires Shaped(out) && Trace(out) == said + trace && p < q < |trace| && trace[p] == Called(call) && trace[q] == Replied(call.id, output)
    ensures exists a, b :: Paired(out, a, b, call.id, output)
  {
    hide *;
    Shifted(said, trace, p);
    Shifted(said, trace, q);
    PairedIn(out, |said| + p, |said| + q, call, output);
  }

  lemma Positions(naming: Naming, items: seq<Item>, i: nat, j: nat, callId: string) returns (p: nat, q: nat, call: Call)
    requires i < j < |items| && callId != "" && CallsAs(items[i], callId) && AnswersTo(items[j], callId)
    ensures var trace := ItemTrace(naming, items);
            p < q < |trace| && trace[p] == Called(call) && call.id == callId && trace[q] == Replied(callId, items[j].output)
  {
    CallEvent(naming, items[i], callId);
    AnswerEvent(naming, items[j], callId);
    hide ItemTrace, ItemEvents;
    ItemTraceGrows(naming, items, i, j);
    ItemTraceGrows(naming, items, i, |items|);
    ItemTraceGrows(naming, items, j, |items|);
    assert items[..|items|] == items;
    p, q := |ItemTrace(naming, items[..i])|, |ItemTrace(naming, items[..j])|;
    call := ItemEvents(naming, items[i])[0].call;
  }

  lemma Shifted<T>(a: seq<T>, b: seq<T>, k: nat)
    requires k < |b|
    ensures (a + b)[|a| + k] == b[k]
  {
  }

  lemma CallEvent(naming: Naming, item: Item, callId: string)
    requires CallsAs(item, callId) && callId != ""
    ensures |ItemEvents(naming, item)| == 1 && ItemEvents(naming, item)[0].Called? && ItemEvents(naming, item)[0].call.id == callId
  {
  }

  lemma AnswerEvent(naming: Naming, item: Item, callId: string)
    requires AnswersTo(item, callId)
    ensures (item.FunctionOutput? || item.CustomOutput?) && ItemEvents(naming, item) == [Replied(callId, item.output)]
  {
  }

  lemma PairedIn(out: seq<Message>, p: nat, q: nat, call: Call, output: Content)
    requires Shaped(out) && p < q < |Trace(out)| && Trace(out)[p] == Called(call) && Trace(out)[q] == Replied(call.id, output)
    ensures exists a, b :: Paired(out, a, b, call.id, output)
  {
    hide Trace, MessageEvents;
    var a, b := TraceOrder(out, p, q);
    CalledIs(out[a], call);
    RepliedIs(out[b], call.id, output);
    assert Paired(out, a, b, call.id, output);
  }

  // ---- Calls ----

  /** What a call item calls: its call id, or its own id if that is missing, the wire name and the arguments. */
  predicate Names(naming: Naming, item: Item, call: Call) {
    && (item.FunctionCall? || item.CustomCall?)
    && call.id == (if item.callId != "" then item.callId else item.id)
    && call.name == naming.wire(item.namespace, item.name)
    && call.arguments == (if item.FunctionCall? then item.arguments else naming.bridge(item.input))
  }

  function CallItems(items: seq<Item>): seq<Item> {
    if items == [] then []
    else CallItems(items[..|items| - 1]) + if items[|items| - 1].FunctionCall? || items[|items| - 1].CustomCall? then [items[|items| - 1]] else []
  }

  function CalledIn(trace: seq<Event>): seq<Call> {
    if trace == [] then [] else CalledIn(trace[..|trace| - 1]) + if trace[|trace| - 1].Called? then [trace[|trace| - 1].call] else []
  }

  lemma {:induction false} CalledConcat(a: seq<Event>, b: seq<Event>)
    ensures CalledIn(a + b) == CalledIn(a) + CalledIn(b)
  {
    if b == [] {
      assert a + b == a;
    } else {
      assert (a + b)[..|a + b| - 1] == a + b[..|b| - 1];
      CalledConcat(a, b[..|b| - 1]);
    }
  }

  lemma {:induction false} CalledEvents(calls: seq<Call>)
    ensures CalledIn(CallEvents(calls)) == calls
  {
    if calls == [] {
      assert CallEvents(calls) == [];
    } else {
      var n := |calls| - 1;
      CalledEvents(calls[..n]);
      assert CallEvents(calls)[..n] == CallEvents(calls[..n]) && calls == calls[..n] + [calls[n]];
    }
  }

  lemma CalledOne(m: Message)
    ensures CalledIn(MessageEvents(m)) == m.calls
  {
    CalledEvents(m.calls);
    var rest := if m.reply.Some? then [Replied(m.reply.value, m.content)] else if m.role == "assistant" then [] else [Said(m.role, m.content)];
    CalledConcat(CallEvents(m.calls), rest);
    assert rest != [] ==> rest[..0] == [];
    assert CalledIn(rest) == [];
    assert m.calls + [] == m.calls;
  }

  lemma {:induction false} CalledTrace(msgs: seq<Message>)
    ensures CalledIn(Trace(msgs)) == AllCalls(msgs)
  {
    if msgs != [] {
      var n := |msgs| - 1;
      CalledTrace(msgs[..n]);
      CalledConcat(Trace(msgs[..n]), MessageEvents(msgs[n]));
      CalledOne(msgs[n]);
    }
  }

  lemma {:induction false} CalledItems(naming: Naming, items: seq<Item>)
    ensures var calls := CalledIn(ItemTrace(naming, items));
            |calls| == |CallItems(items)| && forall k :: 0 <= k < |calls| ==> Names(naming, CallItems(items)[k], calls[k])
  {
    if items != [] {
      var n := |items| - 1;
      CalledItems(naming, items[..n]);
      var events := ItemEvents(naming, items[n]);
      CalledConcat(ItemTrace(naming, items[..n]), events);
      assert events != [] ==> events[..0] == [];
      hide ItemTrace, CallItems, CalledIn;
      OneCalled(naming, items[n]);
      CallItemsNext(items);
      ItemTraceNext(naming, items);
    }
  }

  lemma CallItemsNext(items: seq<Item>)
    requires items != []
    ensures CallItems(items) == CallItems(items[..|items| - 1]) + if items[|items| - 1].FunctionCall? || items[|items| - 1].CustomCall? then [items[|items| - 1]] else []
  {
  }

  lemma ItemTraceNext(naming: Naming, items: seq<Item>)
    requires items != []
    ensures ItemTrace(naming, items) == ItemTrace(naming, items[..|items| - 1]) + ItemEvents(naming, items[|items| - 1])
  {
    hide ItemEvents;
  }

  lemma OneCalled(naming: Naming, item: Item)
    ensures var calls := CalledIn(ItemEvents(naming, item));
            if item.FunctionCall? || item.CustomCall? then |calls| == 1 && Names(naming, item, calls[0]) else calls == []
  {
    var events := ItemEvents(naming, item);
    assert events != [] ==> events[..0] == [];
  }

  /** The k-th call of the messages is that of the k-th call item. */
  lemma CallsTold(naming: Naming, items: seq<Item>, instructions: string, deepSeek: bool)
    ensures var calls := AllCalls(Translate(naming, Items(items), instructions, deepSeek));
            |calls| == |CallItems(items)| && forall k :: 0 <= k < |calls| ==> Names(naming, CallItems(items)[k], calls[k])
  {
    hide *;
    var out := Translate(naming, Items(items), instructions, deepSeek);
    TranslationConserves(naming, items, instructions, deepSeek);
    CalledTrace(out);
    CalledItems(naming, items);
    var said := if Text.Blank(instructions) then [] else [Said("system", Plain(instructions))];
    SaidOnly(said);
    CalledConcat(said, ItemTrace(naming, items));
    assert [] + CalledIn(ItemTrace(naming, items)) == CalledIn(ItemTrace(naming, items));
  }

  lemma SaidOnly(said: seq<Event>)
    requires |said| <= 1 && (said != [] ==> said[0].Said?)
    ensures CalledIn(said) == []
  {
    assert said != [] ==> said[..0] == [];
  }
}
