/**
 Translation of a Responses input history into chat messages (internal/server/responses.go):
 calls of one turn are collected into one assistant message, reasoning text is attached to the
 assistant message it belongs to, and adjacent assistant messages are merged.
 */
module History {
  import opened Wrappers
  import opened Text

  datatype Part = TextPart(text: string) | ImagePart(url: string)

  datatype Content = Plain(text: string) | Parts(parts: seq<Part>)

  datatype Call = Call(id: string, name: string, arguments: string)

  datatype Message = Message(role: string, content: Content, calls: seq<Call>, reply: Option<string>, reasoning: Option<string>)

  /** A decoded input item. Other stands for items the translation skips. */
  datatype Item =
    | FunctionCall(namespace: string, name: string, callId: string, id: string, arguments: string)
    | FunctionOutput(callId: string, output: Content)
    | CustomCall(namespace: string, name: string, callId: string, id: string, input: string)
    | CustomOutput(callId: string, output: Content)
    | Reasoning(text: string)
    | Turn(role: string, content: Option<Content>)
    | Other

  datatype Input = NoInput | PlainInput(text: string) | Items(items: seq<Item>)

  /** How the request names tools upstream, and how it wraps a custom tool's raw input as JSON. */
  datatype Naming = Naming(wire: (string, string) -> string, bridge: string -> string)

  // ---- Items to messages ----

  /** The messages so far, the calls and the reasoning text still waiting for their assistant message. */
  datatype Draft = Draft(msgs: seq<Message>, pending: seq<Call>, reasoning: string, reasoningItems: nat)

  function AsReasoning(text: string): Option<string> {
    if text == "" then None else Some(text)
  }

  function Flush(d: Draft): Draft {
    if d.pending == [] then d
    else d.(msgs := d.msgs + [Message("assistant", Plain(""), d.pending, None, AsReasoning(d.reasoning))],
            pending := [], reasoning := "")
  }

  function Reply(d: Draft, callId: string, output: Content): Draft {
    var f := Flush(d);
    f.(msgs := f.msgs + [Message("tool", output, [], Some(callId), None)])
  }

  function CallOf(naming: Naming, item: Item): Call
    requires item.FunctionCall? || item.CustomCall?
  {
    Call(if item.callId == "" then item.id else item.callId,
         naming.wire(item.namespace, item.name),
         if item.FunctionCall? then item.arguments else naming.bridge(item.input))
  }

  function Role(role: string): string {
    if role == "" then "user" else role
  }

  function Take(naming: Naming, d: Draft, item: Item): Draft {
    match item
    case FunctionCall(_, _, _, _, _) => d.(pending := d.pending + [CallOf(naming, item)])
    case CustomCall(_, _, _, _, _) => d.(pending := d.pending + [CallOf(naming, item)])
    case FunctionOutput(callId, output) => Reply(d, callId, output)
    case CustomOutput(callId, output) => Reply(d, callId, output)
    case Reasoning(text) =>
      d.(reasoningItems := d.reasoningItems + 1,
         reasoning := if text == "" then d.reasoning
                      else if d.reasoning != "" then d.reasoning + "\n\n" + text else text)
    case Turn(role, None) => d
    case Turn(role, Some(content)) =>
      var f := Flush(d);
      var assistant := Role(role) == "assistant";
      f.(msgs := f.msgs + [Message(Role(role), content, [], None, if assistant then AsReasoning(f.reasoning) else None)],
         reasoning := if assistant then "" else f.reasoning)
    case Other => d
  }

  function TakeAll(naming: Naming, start: seq<Message>, items: seq<Item>): Draft {
    if items == [] then Draft(start, [], "", 0)
    else Take(naming, TakeAll(naming, start, items[..|items| - 1]), items[|items| - 1])
  }

  /** Puts leftover reasoning on the last assistant message that has none. */
  function AttachLast(msgs: seq<Message>, text: string): seq<Message> {
    if msgs == [] then []
    else
      var n := |msgs| - 1;
      if msgs[n].role == "assistant" && msgs[n].reasoning.None? then msgs[n := msgs[n].(reasoning := Some(text))]
      else AttachLast(msgs[..n], text) + [msgs[n]]
  }

  function FillOne(m: Message): Message {
    if m.role == "assistant" && m.reasoning.None? then m.(reasoning := Some("")) else m
  }

  function FillReasoning(msgs: seq<Message>): (r: seq<Message>)
    ensures |r| == |msgs|
  {
    seq(|msgs|, i requires 0 <= i < |msgs| => FillOne(msgs[i]))
  }

  function Unmerged(naming: Naming, start: seq<Message>, items: seq<Item>, deepSeek: bool): seq<Message> {
    var d := Flush(TakeAll(naming, start, items));
    var attached := if d.reasoning != "" then AttachLast(d.msgs, d.reasoning) else d.msgs;
    if d.reasoningItems > 0 && deepSeek then FillReasoning(attached) else attached
  }

  // ---- Merging adjacent assistant messages ----

  function ContentParts(content: Content): seq<Part> {
    match content
    case Parts(parts) => parts
    case Plain(text) => if text == "" then [] else [TextPart(text)]
  }

  function MergeContent(earlier: Content, later: Content): Content {
    if earlier.Plain? && later.Plain? then
      if Blank(later.text) then earlier
      else if Blank(earlier.text) then later
      else Plain(earlier.text + "\n\n" + later.text)
    else
      var parts := ContentParts(earlier) + ContentParts(later);
      if parts == [] then earlier else Parts(parts)
  }

  function TextOf(reasoning: Option<string>): string {
    match reasoning case Some(text) => text case None => ""
  }

  function MergeAssistant(earlier: Message, later: Message): Message {
    earlier.(content := MergeContent(earlier.content, later.content),
             calls := earlier.calls + later.calls,
             reasoning := if Blank(TextOf(earlier.reasoning)) && !Blank(TextOf(later.reasoning))
                          then later.reasoning else earlier.reasoning)
  }

  function Merge(msgs: seq<Message>): seq<Message> {
    if msgs == [] then []
    else MergeOne(Merge(msgs[..|msgs| - 1]), msgs[|msgs| - 1])
  }

  function MergeOne(out: seq<Message>, m: Message): seq<Message> {
    if m.role == "assistant" && out != [] && out[|out| - 1].role == "assistant"
    then out[..|out| - 1] + [MergeAssistant(out[|out| - 1], m)]
    else out + [m]
  }

  method MergeAdjacentAssistants(msgs: seq<Message>) returns (out: seq<Message>)
    ensures out == Merge(msgs)
  {
    if |msgs| < 2 {
      assert msgs == [] || msgs[..0] == [];
      return msgs;
    }
    out := [];
    for i := 0 to |msgs|
      invariant out == Merge(msgs[..i])
    {
      assert msgs[..i + 1][..i] == msgs[..i];
      var message := msgs[i];
      if message.role != "assistant" || |out| == 0 || out[|out| - 1].role != "assistant" {
        out := out + [message];
      } else {
        out := out[..|out| - 1] + [MergeAssistant(out[|out| - 1], message)];
      }
    }
    assert msgs[..|msgs|] == msgs;
  }

  function Start(instructions: string): seq<Message> {
    if Blank(instructions) then [] else [Message("system", Plain(instructions), [], None, None)]
  }

  function Translate(naming: Naming, input: Input, instructions: string, deepSeek: bool): seq<Message> {
    match input
    case NoInput => Start(instructions)
    case PlainInput(text) => Start(instructions) + [Message("user", Plain(text), [], None, None)]
    case Items(items) => Merge(Unmerged(naming, Start(instructions), items, deepSeek))
  }

  method ResponsesMessages(naming: Naming, input: Input, instructions: string, deepSeek: bool) returns (out: seq<Message>)
    ensures out == Translate(naming, input, instructions, deepSeek)
    ensures !input.Items? ==>
              out == (if forall i :: 0 <= i < |instructions| ==> Space(instructions[i]) then [] else [Message("system", Plain(instructions), [], None, None)])
                     + if input.PlainInput? then [Message("user", Plain(input.text), [], None, None)] else []
  {
    var msgs := Start(instructions);
    match input {
      case NoInput => return msgs;
      case PlainInput(text) => return msgs + [Message("user", Plain(text), [], None, None)];
      case Items(items) =>
        var pending: seq<Call>, reasoning, reasoningItems := [], "", 0;
        for i := 0 to |items|
          invariant Draft(msgs, pending, reasoning, reasoningItems) == TakeAll(naming, Start(instructions), items[..i])
        {
          assert items[..i + 1][..i] == items[..i];
          var item := items[i];
          if item.FunctionCall? || item.CustomCall? {
            pending := pending + [CallOf(naming, item)];
          } else if item.Reasoning? {
            reasoningItems := reasoningItems + 1;
            if item.text != "" {
              reasoning := if reasoning != "" then reasoning + "\n\n" + item.text else item.text;
            }
          } else if item.FunctionOutput? || item.CustomOutput? || (item.Turn? && item.content.Some?) {
            if pending != [] {
              msgs := msgs + [Message("assistant", Plain(""), pending, None, AsReasoning(reasoning))];
              pending, reasoning := [], "";
            }
            if item.Turn? {
              var assistant := Role(item.role) == "assistant";
              msgs := msgs + [Message(Role(item.role), item.content.value, [], None,
                                      if assistant then AsReasoning(reasoning) else None)];
              reasoning := if assistant then "" else reasoning;
            } else {
              msgs := msgs + [Message("tool", item.output, [], Some(item.callId), None)];
            }
          }
        }
        assert items[..|items|] == items;
        if pending != [] {
          msgs := msgs + [Message("assistant", Plain(""), pending, None, AsReasoning(reasoning))];
          pending, reasoning := [], "";
        }
        if reasoning != "" {
          msgs := AttachLast(msgs, reasoning);
        }
        if reasoningItems > 0 && deepSeek {
          msgs := FillReasoning(msgs);
        }
        out := MergeAdjacentAssistants(msgs);
    }
  }

  // ---- What a history says, independently of how it is packed into messages ----

  datatype Event = Called(call: Call) | Replied(id: string, output: Content) | Said(role: string, content: Content)

  function CallEvents(calls: seq<Call>): (r: seq<Event>)
    ensures |r| == |calls|
  {
    seq(|calls|, i requires 0 <= i < |calls| => Called(calls[i]))
  }

  /** An assistant message contributes its calls, a tool message its reply, any other message itself. */
  function MessageEvents(m: Message): seq<Event> {
    CallEvents(m.calls)
    + (if m.reply.Some? then [Replied(m.reply.value, m.content)]
       else if m.role == "assistant" then [] else [Said(m.role, m.content)])
  }

  function Trace(msgs: seq<Message>): seq<Event> {
    if msgs == [] then [] else Trace(msgs[..|msgs| - 1]) + MessageEvents(msgs[|msgs| - 1])
  }

  function ItemEvents(naming: Naming, item: Item): seq<Event> {
    match item
    case FunctionCall(namespace, name, callId, id, arguments) =>
      [Called(Call(if callId != "" then callId else id, naming.wire(namespace, name), arguments))]
    case CustomCall(namespace, name, callId, id, input) =>
      [Called(Call(if callId != "" then callId else id, naming.wire(namespace, name), naming.bridge(input)))]
    case FunctionOutput(callId, output) => [Replied(callId, output)]
    case CustomOutput(callId, output) => [Replied(callId, output)]
    case Turn(role, Some(content)) => if role == "assistant" then [] else [Said(if role == "" then "user" else role, content)]
    case _ => []
  }

  function ItemTrace(naming: Naming, items: seq<Item>): seq<Event> {
    if items == [] then [] else ItemTrace(naming, items[..|items| - 1]) + ItemEvents(naming, items[|items| - 1])
  }

  // ---- What the assistant wrote, independently of how it is packed into messages ----

  /** A visible character or an image of the assistant's, or a whole message of somebody else's. */
  datatype Mark = Ink(c: char) | Image(url: string) | Answer(id: string, output: Content) | Utterance(role: string, content: Content)

  function TextInk(text: string): seq<Mark> {
    if text == "" then []
    else
      var n := |text| - 1;
      TextInk(text[..n]) + if Space(text[n]) then [] else [Ink(text[n])]
  }

  function PartInk(part: Part): seq<Mark> {
    match part
    case TextPart(text) => TextInk(text)
    case ImagePart(url) => [Image(url)]
  }

  function PartsInk(parts: seq<Part>): seq<Mark> {
    if parts == [] then [] else PartsInk(parts[..|parts| - 1]) + PartInk(parts[|parts| - 1])
  }

  function ContentInk(content: Content): seq<Mark> {
    match content
    case Plain(text) => TextInk(text)
    case Parts(parts) => PartsInk(parts)
  }

  function MessageMarks(m: Message): seq<Mark> {
    if m.reply.Some? then [Answer(m.reply.value, m.content)]
    else if m.role == "assistant" then ContentInk(m.content)
    else [Utterance(m.role, m.content)]
  }

  function Speech(msgs: seq<Message>): seq<Mark> {
    if msgs == [] then [] else Speech(msgs[..|msgs| - 1]) + MessageMarks(msgs[|msgs| - 1])
  }

  function ItemMarks(item: Item): seq<Mark> {
    match item
    case FunctionOutput(callId, output) => [Answer(callId, output)]
    case CustomOutput(callId, output) => [Answer(callId, output)]
    case Turn(role, Some(content)) => if role == "assistant" then ContentInk(content) else [Utterance(if role == "" then "user" else role, content)]
    case _ => []
  }

  function ItemSpeech(items: seq<Item>): seq<Mark> {
    if items == [] then [] else ItemSpeech(items[..|items| - 1]) + ItemMarks(items[|items| - 1])
  }

  /** Only assistant messages carry calls, and only tool messages answer one. */
  ghost predicate Shaped(msgs: seq<Message>) {
    forall i :: 0 <= i < |msgs| ==>
      (msgs[i].calls != [] ==> msgs[i].role == "assistant") && (msgs[i].reply.Some? ==> msgs[i].role == "tool")
  }

  lemma TraceAppend(msgs: seq<Message>, m: Message)
    ensures Trace(msgs + [m]) == Trace(msgs) + MessageEvents(m)
  {
    assert (msgs + [m])[..|msgs|] == msgs;
  }

  lemma FlushKeeps(d: Draft)
    requires Shaped(d.msgs)
    ensures Shaped(Flush(d).msgs) && Flush(d).pending == []
    ensures Trace(Flush(d).msgs) == Trace(d.msgs) + CallEvents(d.pending)
  {
    if d.pending != [] {
      TraceAppend(d.msgs, Flush(d).msgs[|d.msgs|]);
    }
  }

  /** What a draft has said so far. */
  ghost function DraftTrace(d: Draft): seq<Event> {
    Trace(d.msgs) + CallEvents(d.pending)
  }

  lemma AddCallKeeps(d: Draft, call: Call)
    ensures DraftTrace(d.(pending := d.pending + [call])) == DraftTrace(d) + [Called(call)]
  {
    assert CallEvents(d.pending + [call]) == CallEvents(d.pending) + [Called(call)];
  }

  lemma AddMessageKeeps(d: Draft, t: Draft, m: Message)
    requires Shaped(d.msgs) && m.calls == [] && (m.reply.Some? ==> m.role == "tool")
    requires t.msgs == Flush(d).msgs + [m] && t.pending == []
    ensures Shaped(t.msgs) && DraftTrace(t) == DraftTrace(d) + MessageEvents(m)
  {
    FlushKeeps(d);
    hide Flush, Trace, MessageEvents;
    TraceAppend(Flush(d).msgs, m);
    assert CallEvents([]) == [];
  }

  lemma TakeKeeps(naming: Naming, d: Draft, item: Item)
    requires Shaped(d.msgs)
    ensures Shaped(Take(naming, d, item).msgs)
    ensures DraftTrace(Take(naming, d, item)) == DraftTrace(d) + ItemEvents(naming, item)
  {
    hide Shaped, DraftTrace, Trace, Flush;
    var t := Take(naming, d, item);
    if item.FunctionCall? || item.CustomCall? {
      AddCallKeeps(d, CallOf(naming, item));
    } else if item.FunctionOutput? || item.CustomOutput? || (item.Turn? && item.content.Some?) {
      var m := t.msgs[|t.msgs| - 1];
      FlushEmpties(d);
      AddMessageKeeps(d, t, m);
      assert MessageEvents(m) == ItemEvents(naming, item);
    } else {
      SameTrace(d, t);
    }
  }

  lemma FlushEmpties(d: Draft)
    ensures Flush(d).pending == []
  {
  }

  lemma SameTrace(d: Draft, t: Draft)
    requires t.msgs == d.msgs && t.pending == d.pending
    ensures DraftTrace(t) == DraftTrace(d) + []
  {
  }

  lemma {:induction false} TakeAllTrace(naming: Naming, start: seq<Message>, items: seq<Item>)
    requires Shaped(start)
    ensures var d := TakeAll(naming, start, items);
            Shaped(d.msgs) && DraftTrace(d) == Trace(start) + ItemTrace(naming, items)
  {
    if items == [] {
      assert CallEvents([]) == [];
    }
    if items != [] {
      var n := |items| - 1;
      TakeAllTrace(naming, start, items[..n]);
      TakeKeeps(naming, TakeAll(naming, start, items[..n]), items[n]);
    }
  }

  /** Same messages up to reasoning text. */
  ghost predicate SameButReasoning(a: seq<Message>, b: seq<Message>) {
    |a| == |b| && forall i :: 0 <= i < |a| ==> a[i].(reasoning := None) == b[i].(reasoning := None)
  }

  lemma {:induction false} TraceIgnoresReasoning(a: seq<Message>, b: seq<Message>)
    requires SameButReasoning(a, b)
    ensures Trace(a) == Trace(b)
    ensures Shaped(a) ==> Shaped(b)
  {
    if a != [] {
      var n := |a| - 1;
      TraceIgnoresReasoning(a[..n], b[..n]);
      assert a[n].(reasoning := None) == b[n].(reasoning := None);
      assert MessageEvents(a[n]) == MessageEvents(b[n]);
    }
    if Shaped(a) {
      forall i | 0 <= i < |b|
        ensures (b[i].calls != [] ==> b[i].role == "assistant") && (b[i].reply.Some? ==> b[i].role == "tool")
      {
        assert a[i].(reasoning := None) == b[i].(reasoning := None);
      }
    }
  }

  lemma {:induction false} AttachOnlyReasoning(msgs: seq<Message>, text: string)
    ensures SameButReasoning(msgs, AttachLast(msgs, text))
  {
    if msgs != [] {
      AttachOnlyReasoning(msgs[..|msgs| - 1], text);
    }
  }

  lemma UnmergedTrace(naming: Naming, start: seq<Message>, items: seq<Item>, deepSeek: bool)
    requires Shaped(start)
    ensures Shaped(Unmerged(naming, start, items, deepSeek))
    ensures Trace(Unmerged(naming, start, items, deepSeek)) == Trace(start) + ItemTrace(naming, items)
  {
    var all := TakeAll(naming, start, items);
    TakeAllTrace(naming, start, items);
    FlushKeeps(all);
    var d := Flush(all);
    AttachOnlyReasoning(d.msgs, d.reasoning);
    var attached := if d.reasoning != "" then AttachLast(d.msgs, d.reasoning) else d.msgs;
    hide Trace, AttachLast, Flush, TakeAll;
    TraceIgnoresReasoning(d.msgs, attached);
    TraceIgnoresReasoning(attached, FillReasoning(attached));
  }

  lemma MergeAssistantEvents(earlier: Message, later: Message)
    requires earlier.role == later.role == "assistant" && earlier.reply.None? && later.reply.None?
    ensures MessageEvents(MergeAssistant(earlier, later)) == MessageEvents(earlier) + MessageEvents(later)
  {
    assert CallEvents(earlier.calls + later.calls) == CallEvents(earlier.calls) + CallEvents(later.calls);
  }

  lemma MergeAssistantShape(earlier: Message, later: Message)
    ensures MergeAssistant(earlier, later).role == earlier.role && MergeAssistant(earlier, later).reply == earlier.reply
  {
  }

  lemma MergeOneTrace(out: seq<Message>, m: Message)
    requires Shaped(out + [m])
    ensures Shaped(MergeOne(out, m)) && Trace(MergeOne(out, m)) == Trace(out) + MessageEvents(m)
  {
    hide Trace, MessageEvents, MergeAssistant;
    assert (out + [m])[|out|] == m;
    forall i | 0 <= i < |out|
      ensures (out + [m])[i] == out[i]
    {
    }
    if m.role == "assistant" && out != [] && out[|out| - 1].role == "assistant" {
      var k := |out| - 1;
      MergeAssistantEvents(out[k], m);
      MergeAssistantShape(out[k], m);
      TraceAppend(out[..k], MergeAssistant(out[k], m));
      TraceAppend(out[..k], out[k]);
      assert out == out[..k] + [out[k]];
    } else {
      TraceAppend(out, m);
    }
  }

  lemma ShapedPart(msgs: seq<Message>, n: nat)
    requires n < |msgs| && Shaped(msgs)
    ensures Shaped(msgs[..n])
  {
  }

  lemma ShapedJoin(msgs: seq<Message>, out: seq<Message>, n: nat)
    requires n < |msgs| && Shaped(msgs) && Shaped(out)
    ensures Shaped(out + [msgs[n]])
  {
  }

  lemma {:induction false} MergeTrace(msgs: seq<Message>)
    requires Shaped(msgs)
    ensures Shaped(Merge(msgs)) && Trace(Merge(msgs)) == Trace(msgs)
  {
    if msgs != [] {
      var n := |msgs| - 1;
      ShapedPart(msgs, n);
      MergeTrace(msgs[..n]);
      ShapedJoin(msgs, Merge(msgs[..n]), n);
      hide MergeOne, MessageEvents, Shaped;
      MergeOneTrace(Merge(msgs[..n]), msgs[n]);
    }
  }

  lemma SpeechAppend(msgs: seq<Message>, m: Message)
    ensures Speech(msgs + [m]) == Speech(msgs) + MessageMarks(m)
  {
    assert (msgs + [m])[..|msgs|] == msgs;
  }

  lemma FlushSpeech(d: Draft)
    ensures Speech(Flush(d).msgs) == Speech(d.msgs)
  {
    if d.pending != [] {
      SpeechAppend(d.msgs, Flush(d).msgs[|d.msgs|]);
      assert TextInk("") == [];
    }
  }

  lemma AddMessageSpeech(d: Draft, t: Draft, m: Message)
    requires t.msgs == Flush(d).msgs + [m]
    ensures Speech(t.msgs) == Speech(d.msgs) + MessageMarks(m)
  {
    FlushSpeech(d);
    hide Flush, Speech, MessageMarks;
    SpeechAppend(Flush(d).msgs, m);
  }

  lemma TakeSpeech(naming: Naming, d: Draft, item: Item)
    ensures Speech(Take(naming, d, item).msgs) == Speech(d.msgs) + ItemMarks(item)
  {
    hide Speech, Flush, ContentInk;
    var t := Take(naming, d, item);
    if item.FunctionOutput? || item.CustomOutput? || (item.Turn? && item.content.Some?) {
      var m := t.msgs[|t.msgs| - 1];
      assert t.msgs == Flush(d).msgs + [m];
      assert MessageMarks(m) == ItemMarks(item);
      AddMessageSpeech(d, t, m);
    } else {
      assert ItemMarks(item) == [] && t.msgs == d.msgs;
      assert Speech(d.msgs) + [] == Speech(d.msgs);
    }
  }

  lemma {:induction false} TakeAllSpeech(naming: Naming, start: seq<Message>, items: seq<Item>)
    ensures Speech(TakeAll(naming, start, items).msgs) == Speech(start) + ItemSpeech(items)
  {
    if items != [] {
      var n := |items| - 1;
      TakeAllSpeech(naming, start, items[..n]);
      TakeSpeech(naming, TakeAll(naming, start, items[..n]), items[n]);
    }
  }

  lemma {:induction false} SpeechIgnoresReasoning(a: seq<Message>, b: seq<Message>)
    requires SameButReasoning(a, b)
    ensures Speech(a) == Speech(b)
  {
    if a != [] {
      var n := |a| - 1;
      SpeechIgnoresReasoning(a[..n], b[..n]);
      assert a[n].(reasoning := None) == b[n].(reasoning := None);
      assert MessageMarks(a[n]) == MessageMarks(b[n]);
    }
  }

  lemma UnmergedSpeech(naming: Naming, start: seq<Message>, items: seq<Item>, deepSeek: bool)
    ensures Speech(Unmerged(naming, start, items, deepSeek)) == Speech(start) + ItemSpeech(items)
  {
    var all := TakeAll(naming, start, items);
    TakeAllSpeech(naming, start, items);
    FlushSpeech(all);
    var d := Flush(all);
    AttachOnlyReasoning(d.msgs, d.reasoning);
    var attached := if d.reasoning != "" then AttachLast(d.msgs, d.reasoning) else d.msgs;
    hide Speech, AttachLast, Flush, TakeAll;
    SpeechIgnoresReasoning(d.msgs, attached);
    SpeechIgnoresReasoning(attached, FillReasoning(attached));
  }

  lemma {:induction false} TextInkConcat(a: string, b: string)
    ensures TextInk(a + b) == TextInk(a) + TextInk(b)
  {
    if b == "" {
      assert a + b == a;
    } else {
      var n := |b| - 1;
      assert (a + b)[..|a| + n] == a + b[..n];
      TextInkConcat(a, b[..n]);
    }
  }

  lemma {:induction false} BlankInk(text: string)
    requires Blank(text)
    ensures TextInk(text) == []
  {
    if text != "" {
      BlankInk(text[..|text| - 1]);
    }
  }

  lemma {:induction false} PartsInkConcat(a: seq<Part>, b: seq<Part>)
    ensures PartsInk(a + b) == PartsInk(a) + PartsInk(b)
  {
    hide PartInk;
    if b == [] {
      assert a + b == a;
    } else {
      var n := |b| - 1;
      assert (a + b)[..|a| + n] == a + b[..n];
      PartsInkConcat(a, b[..n]);
    }
  }

  lemma ContentPartsInk(content: Content)
    ensures PartsInk(ContentParts(content)) == ContentInk(content)
  {
    if content.Plain? && content.text != "" {
      assert [TextPart(content.text)][..0] == [];
      assert PartsInk([TextPart(content.text)]) == PartsInk([]) + PartInk(TextPart(content.text));
    }
  }

  lemma JoinedInk(a: string, b: string)
    ensures TextInk(a + "\n\n" + b) == TextInk(a) + TextInk(b)
  {
    TextInkConcat(a + "\n\n", b);
    TextInkConcat(a, "\n\n");
    BlankInk("\n\n");
    hide TextInk;
    assert TextInk(a) + [] == TextInk(a);
  }

  lemma MergeContentInk(earlier: Content, later: Content)
    ensures ContentInk(MergeContent(earlier, later)) == ContentInk(earlier) + ContentInk(later)
  {
    hide TextInk, PartsInk, Blank, ContentParts;
    if earlier.Plain? && later.Plain? {
      if Blank(later.text) {
        BlankInk(later.text);
        assert TextInk(earlier.text) + [] == TextInk(earlier.text);
      } else if Blank(earlier.text) {
        BlankInk(earlier.text);
        assert [] + TextInk(later.text) == TextInk(later.text);
      } else {
        JoinedInk(earlier.text, later.text);
      }
    } else {
      ContentPartsInk(earlier);
      ContentPartsInk(later);
      PartsInkConcat(ContentParts(earlier), ContentParts(later));
      NoPartsInk();
    }
  }

  lemma NoPartsInk()
    ensures PartsInk([]) == []
  {
  }

  lemma MergeAssistantMarks(earlier: Message, later: Message)
    requires earlier.role == later.role == "assistant" && earlier.reply.None? && later.reply.None?
    ensures MessageMarks(MergeAssistant(earlier, later)) == MessageMarks(earlier) + MessageMarks(later)
  {
    MergeContentInk(earlier.content, later.content);
    hide ContentInk, MergeContent;
  }

  lemma MergeOneSpeech(out: seq<Message>, m: Message)
    requires Shaped(out + [m])
    ensures Speech(MergeOne(out, m)) == Speech(out) + MessageMarks(m)
  {
    hide Speech, MessageMarks, MergeAssistant;
    assert (out + [m])[|out|] == m;
    if m.role == "assistant" && out != [] && out[|out| - 1].role == "assistant" {
      var k := |out| - 1;
      assert (out + [m])[k] == out[k];
      MergeAssistantMarks(out[k], m);
      SpeechAppend(out[..k], MergeAssistant(out[k], m));
      SpeechAppend(out[..k], out[k]);
      assert out == out[..k] + [out[k]];
    } else {
      SpeechAppend(out, m);
    }
  }

  lemma {:induction false} MergeSpeech(msgs: seq<Message>)
    requires Shaped(msgs)
    ensures Speech(Merge(msgs)) == Speech(msgs)
  {
    if msgs != [] {
      var n := |msgs| - 1;
      ShapedPart(msgs, n);
      MergeSpeech(msgs[..n]);
      MergeTrace(msgs[..n]);
      ShapedJoin(msgs, Merge(msgs[..n]), n);
      hide MergeOne, MessageMarks, Shaped;
      MergeOneSpeech(Merge(msgs[..n]), msgs[n]);
    }
  }

  /**
   The messages say exactly what the items say: all tool calls, all tool replies and all client turns,
   each once and in the order of the items, after the instructions; and every visible character and image
   of the assistant's turns, in order, between the same replies and client turns.
   */
  lemma TranslationConserves(naming: Naming, items: seq<Item>, instructions: string, deepSeek: bool)
    ensures var out := Translate(naming, Items(items), instructions, deepSeek);
            && Shaped(out)
            && Trace(out) == (if Blank(instructions) then [] else [Said("system", Plain(instructions))]) + ItemTrace(naming, items)
            && Speech(out) == (if Blank(instructions) then [] else [Utterance("system", Plain(instructions))]) + ItemSpeech(items)
  {
    hide Unmerged, Merge, Trace, ItemTrace, Speech, ItemSpeech;
    var start := Start(instructions);
    StartTrace(instructions);
    UnmergedTrace(naming, start, items, deepSeek);
    UnmergedSpeech(naming, start, items, deepSeek);
    MergeTrace(Unmerged(naming, start, items, deepSeek));
    MergeSpeech(Unmerged(naming, start, items, deepSeek));
  }

  lemma StartTrace(instructions: string)
    ensures Shaped(Start(instructions))
    ensures Trace(Start(instructions)) == if Blank(instructions) then [] else [Said("system", Plain(instructions))]
    ensures Speech(Start(instructions)) == if Blank(instructions) then [] else [Utterance("system", Plain(instructions))]
  {
    assert CallEvents([]) == [];
  }

  ghost predicate NoAdjacentAssistants(msgs: seq<Message>) {
    forall i :: 0 < i < |msgs| ==> !(msgs[i - 1].role == "assistant" && msgs[i].role == "assistant")
  }

  lemma {:induction false} MergeSeparates(msgs: seq<Message>)
    ensures NoAdjacentAssistants(Merge(msgs))
  {
    if msgs != [] {
      MergeSeparates(msgs[..|msgs| - 1]);
    }
  }

  lemma {:induction false} MergeFixpoint(msgs: seq<Message>)
    requires NoAdjacentAssistants(msgs)
    ensures Merge(msgs) == msgs
  {
    if msgs != [] {
      MergeFixpoint(msgs[..|msgs| - 1]);
    }
  }

  /** No two neighbours of the result are assistant messages, and merging again changes nothing. */
  lemma MergeIsIdempotent(msgs: seq<Message>)
    ensures NoAdjacentAssistants(Merge(msgs)) && Merge(Merge(msgs)) == Merge(msgs)
  {
    MergeSeparates(msgs);
    MergeFixpoint(Merge(msgs));
  }

  ghost predicate AllReasoned(msgs: seq<Message>) {
    forall i :: 0 <= i < |msgs| && msgs[i].role == "assistant" ==> msgs[i].reasoning.Some?
  }

  lemma {:induction false} MergeKeepsReasoned(msgs: seq<Message>)
    requires AllReasoned(msgs)
    ensures AllReasoned(Merge(msgs))
  {
    if msgs != [] {
      var n := |msgs| - 1;
      MergeKeepsReasoned(msgs[..n]);
    }
  }

  lemma {:induction false} CountsReasoning(naming: Naming, start: seq<Message>, items: seq<Item>)
    ensures TakeAll(naming, start, items).reasoningItems > 0 <==> exists i :: 0 <= i < |items| && items[i].Reasoning?
  {
    if items != [] {
      CountsReasoning(naming, start, items[..|items| - 1]);
    }
  }

  /** For a DeepSeek model a history with any reasoning item leaves no assistant message without the field. */
  lemma DeepSeekFieldPresent(naming: Naming, items: seq<Item>, instructions: string)
    requires exists i :: 0 <= i < |items| && items[i].Reasoning?
    ensures AllReasoned(Translate(naming, Items(items), instructions, true))
  {
    CountsReasoning(naming, Start(instructions), items);
    MergeKeepsReasoned(Unmerged(naming, Start(instructions), items, true));
  }

  /** The message is the same, or an assistant message whose missing reasoning field was set to the empty text. */
  predicate Filled(plain: Message, filled: Message) {
    filled == plain || (plain.role == "assistant" && plain.reasoning.None? && filled == plain.(reasoning := Some("")))
  }

  ghost predicate AllFilled(plain: seq<Message>, filled: seq<Message>) {
    |plain| == |filled| && forall i :: 0 <= i < |plain| ==> Filled(plain[i], filled[i])
  }

  lemma MergeFilled(plain: Message, filled: Message, later: Message, laterFilled: Message)
    requires Filled(plain, filled) && Filled(later, laterFilled) && plain.role == "assistant"
    ensures Filled(MergeAssistant(plain, later), MergeAssistant(filled, laterFilled))
  {
    hide MergeContent;
  }

  lemma {:induction false} MergeKeepsFilled(plain: seq<Message>, filled: seq<Message>)
    requires AllFilled(plain, filled)
    ensures AllFilled(Merge(plain), Merge(filled))
  {
    if plain != [] {
      var n := |plain| - 1;
      MergeKeepsFilled(plain[..n], filled[..n]);
      var a, b := Merge(plain[..n]), Merge(filled[..n]);
      hide MergeAssistant;
      assert Filled(plain[n], filled[n]);
      if a != [] && a[|a| - 1].role == plain[n].role == "assistant" {
        MergeFilled(a[|a| - 1], b[|a| - 1], plain[n], filled[n]);
      }
    }
  }

  /** All that the DeepSeek rule does is to set missing reasoning fields of assistant messages to the empty text. */
  lemma DeepSeekOnlyFills(naming: Naming, items: seq<Item>, instructions: string)
    ensures AllFilled(Translate(naming, Items(items), instructions, false), Translate(naming, Items(items), instructions, true))
  {
    var start := Start(instructions);
    assert AllFilled(Unmerged(naming, start, items, false), Unmerged(naming, start, items, true)) by {
      hide TakeAll, AttachLast, Flush;
    }
    hide Unmerged, Merge;
    MergeKeepsFilled(Unmerged(naming, start, items, false), Unmerged(naming, start, items, true));
  }
}
