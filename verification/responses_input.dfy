/**
 What the streaming writer hears: the upstream's bytes as the payloads of their data lines up to [DONE].
 An error among them decides the outcome for good.
 */
module ResponsesInput {
  import opened Wrappers
  import opened Text
  import opened ResponseEvents
  import opened ToolPolicy
  import opened ResponsesStream
  import opened ResponsesInvariant
  import opened ResponsesSteps
  import opened ResponsesRuns
  import opened ResponsesGuarantees

  // ---- The texts of the data lines ----

  /** What a line says, if it is a data line. */
  function LineText(raw: string): seq<string> {
    var line := TrimCarriageReturns(raw);
    if DATA <= line then [line[|DATA|..]] else []
  }

  function LineTexts(frame: string): seq<string>
    decreases |frame|
  {
    var end := LineEnd(frame, 0);
    LineText(frame[..end]) + if end == |frame| then [] else LineTexts(frame[end + 1..])
  }

  /** The data lines of all frames, which end in a blank line each. */
  function FrameTexts(frames: seq<string>): seq<string>
    requires forall i :: 0 <= i < |frames| ==> |frames[i]| >= 2
    decreases |frames|
  {
    if frames == [] then [] else LineTexts(frames[0][..|frames[0]| - 2]) + FrameTexts(frames[1..])
  }

  lemma {:induction false} FramesLong(b: string)
    ensures forall i :: 0 <= i < |Frames(b)| ==> |Frames(b)[i]| >= 2
    decreases |b|
  {
    var i := FrameEnd(b, 0);
    if i < |b| {
      FramesLong(b[i + 2..]);
    }
  }

  /** The data lines of the complete frames of a byte string. */
  function DataTexts(b: string): seq<string> {
    FramesLong(b); FrameTexts(Frames(b))
  }

  /** Everything before the first [DONE]. */
  function Until(texts: seq<string>): seq<string>
    decreases |texts|
  {
    if texts == [] || texts[0] == "[DONE]" then [] else [texts[0]] + Until(texts[1..])
  }

  // ---- The writer hears them one by one ----

  function HandleText(contract: Contract, parse: string -> Payload, w: Writer, text: string): Writer {
    if w.sawDone then w
    else if text == "[DONE]" then w.(sawDone := true)
    else HandlePayload(contract, w, parse(text))
  }

  function HandleTexts(contract: Contract, parse: string -> Payload, w: Writer, texts: seq<string>): Writer
    decreases |texts|
  {
    if texts == [] then w else HandleTexts(contract, parse, HandleText(contract, parse, w, texts[0]), texts[1..])
  }

  lemma {:induction false} TextsAppend(contract: Contract, parse: string -> Payload, w: Writer, a: seq<string>, b: seq<string>)
    ensures HandleTexts(contract, parse, w, a + b) == HandleTexts(contract, parse, HandleTexts(contract, parse, w, a), b)
    decreases |a|
  {
    hide HandleText;
    if a == [] {
      assert a + b == b;
    } else {
      assert (a + b)[1..] == a[1..] + b;
      TextsAppend(contract, parse, HandleText(contract, parse, w, a[0]), a[1..], b);
    }
  }

  lemma LineHeard(contract: Contract, parse: string -> Payload, w: Writer, raw: string)
    ensures HandleLine(contract, parse, w, raw) == HandleTexts(contract, parse, w, LineText(raw))
  {
    hide HandlePayload, TrimCarriageReturns;
    var line := TrimCarriageReturns(raw);
    if DATA <= line {
      assert [line[|DATA|..]][1..] == [];
      assert HandleTexts(contract, parse, HandleText(contract, parse, w, line[|DATA|..]), []) == HandleText(contract, parse, w, line[|DATA|..]);
    }
  }

  lemma {:induction false} LinesHeard(contract: Contract, parse: string -> Payload, w: Writer, frame: string)
    ensures HandleLines(contract, parse, w, frame) == HandleTexts(contract, parse, w, LineTexts(frame))
    decreases |frame|
  {
    hide HandleLine, HandleText, LineText;
    var end := LineEnd(frame, 0);
    LineHeard(contract, parse, w, frame[..end]);
    if end == |frame| {
      assert LineText(frame[..end]) + [] == LineText(frame[..end]);
    } else {
      LinesHeard(contract, parse, HandleLine(contract, parse, w, frame[..end]), frame[end + 1..]);
      TextsAppend(contract, parse, w, LineText(frame[..end]), LineTexts(frame[end + 1..]));
    }
  }

  lemma {:induction false} DrainHeard(contract: Contract, parse: string -> Payload, w: Writer, b: string)
    ensures Drain(contract, parse, w, b) == Stream(Rest(b), HandleTexts(contract, parse, w, DataTexts(b)))
    decreases |b|
  {
    hide HandleLines, HandleText, LineTexts;
    var i := FrameEnd(b, 0);
    FramesLong(b);
    if i < |b| {
      var tail := b[i + 2..];
      LinesHeard(contract, parse, w, b[..i]);
      DrainHeard(contract, parse, HandleLines(contract, parse, w, b[..i]), tail);
      FramesLong(tail);
      assert Frames(b)[1..] == Frames(tail) && b[..i + 2][..i] == b[..i];
      TextsAppend(contract, parse, w, LineTexts(b[..i]), FrameTexts(Frames(tail)));
    }
  }

  lemma {:induction false} FrameTextsSplit(a: seq<string>, b: seq<string>)
    requires forall i :: 0 <= i < |a| ==> |a[i]| >= 2
    requires forall i :: 0 <= i < |b| ==> |b[i]| >= 2
    ensures forall i :: 0 <= i < |a + b| ==> |(a + b)[i]| >= 2
    ensures FrameTexts(a + b) == FrameTexts(a) + FrameTexts(b)
    decreases |a|
  {
    hide LineTexts;
    if a == [] {
      assert a + b == b;
    } else {
      assert (a + b)[1..] == a[1..] + b;
      FrameTextsSplit(a[1..], b);
    }
  }

  lemma TextsSplit(p: string, q: string)
    ensures DataTexts(p + q) == DataTexts(p) + DataTexts(Rest(p) + q)
  {
    FramesSplit(p, q);
    FramesLong(p);
    FramesLong(Rest(p) + q);
    FrameTextsSplit(Frames(p), Frames(Rest(p) + q));
    hide FrameTexts, Frames, Rest;
  }

  /** All upstream bytes of a run, whatever was asked in between. */
  function AllBytes(ops: seq<Op>): string {
    if ops == [] then ""
    else AllBytes(ops[..|ops| - 1]) + if ops[|ops| - 1].Bytes? then ops[|ops| - 1].p else ""
  }

  // ---- [DONE] ----

  lemma {:induction false} UntilSplit(a: seq<string>, b: seq<string>)
    ensures Until(a + b) == if "[DONE]" in a then Until(a) else a + Until(b)
    ensures "[DONE]" !in a ==> Until(a) == a
    decreases |a|
  {
    if a == [] {
      assert a + b == b;
    } else {
      assert (a + b)[1..] == a[1..] + b;
      assert a == [a[0]] + a[1..];
      if a[0] != "[DONE]" {
        UntilSplit(a[1..], b);
        assert [a[0]] + (a[1..] + Until(b)) == a + Until(b);
      }
    }
  }

  // ---- What handling calls leaves alone ----

  /** Nothing of what was said, of the marks and of an error is lost. */
  predicate Calm(w: Writer, w': Writer) {
    && w'.sawDone == w.sawDone && w'.finishReason == w.finishReason
    && w'.reason == w.reason && w'.text == w.text && w'.refusal == w.refusal
    && (w.error.Some? ==> w'.error.Some?)
  }

  lemma CalmChain(w: Writer, w': Writer, w'': Writer)
    requires Calm(w, w') && Calm(w', w'')
    ensures Calm(w, w'')
  {
  }

  lemma SetCalm(w: Writer, i: nat, call: Call)
    requires i < |w.calls|
    ensures Calm(w, SetCall(w, i, call)) && |SetCall(w, i, call).calls| == |w.calls|
  {
  }

  lemma FailCalm(w: Writer, error: string)
    ensures Calm(w, Fail(w, error))
  {
  }

  lemma CalmSelf(w: Writer)
    ensures Calm(w, w)
  {
  }

  lemma FunctionCalm(contract: Contract, w: Writer, i: nat, f: FunctionDelta)
    requires i < |w.calls|
    ensures Calm(w, ApplyFunction(contract, w, i, f))
  {
    hide Calm, SetCall, Fail, NameCall;
    match NameCall(contract, w.calls[i], f.name)
    case None => FailCalm(w, "upstream changed a streamed tool name");
    case Some(named) =>
      match f.arguments
      case NoArguments => SetCalm(w, i, named);
      case NotAString =>
        SetCalm(w, i, named);
        FailCalm(SetCall(w, i, named), "upstream tool arguments must be a JSON string");
        CalmChain(w, SetCall(w, i, named), ApplyFunction(contract, w, i, f));
      case Arguments(text) => SetCalm(w, i, named.(argumentsSeen := true, arguments := named.arguments + text));
  }

  lemma NewCalm(w: Writer, key: int)
    ensures Calm(w, NewCall(w, key))
  {
    hide FindCall;
  }

  lemma ItemCalm(contract: Contract, w: Writer, item: ToolItem)
    ensures Calm(w, ApplyItem(contract, w, item))
  {
    hide Calm, ApplyFunction, NewCall, SetCall, Fail;
    match item
    case NotAnObject => FailCalm(w, "upstream contained an invalid tool call");
    case ToolDelta(key, id, fn) =>
      var w1 := NewCall(w, key);
      NewCalm(w, key);
      NewCallFound(w, key);
      var i := FindCall(w1.calls, key);
      var call := w1.calls[i];
      if id != NoId && call.id != NoId && call.id != id {
        FailCalm(w1, "upstream changed a streamed tool call identity");
        CalmChain(w, w1, ApplyItem(contract, w, item));
      } else {
        var w2 := if id != NoId then SetCall(w1, i, call.(id := id)) else w1;
        SetCalm(w1, i, call.(id := id));
        CalmSelf(w1);
        CalmChain(w, w1, w2);
        if fn.Some? {
          FunctionCalm(contract, w2, i, fn.value);
          CalmChain(w, w2, ApplyItem(contract, w, item));
        }
      }
  }

  lemma {:induction false} ItemsCalm(contract: Contract, w: Writer, items: seq<ToolItem>)
    ensures Calm(w, ApplyItems(contract, w, items))
    decreases |items|
  {
    hide ApplyItem, Calm;
    CalmSelf(w);
    if items != [] && w.error.None? {
      var w1 := ApplyItem(contract, w, items[0]);
      ItemCalm(contract, w, items[0]);
      ItemsCalm(contract, w1, items[1..]);
      CalmChain(w, w1, ApplyItems(contract, w1, items[1..]));
    }
  }

  lemma FlushOneCalm(w: Writer, i: nat)
    requires i < |w.calls|
    ensures Calm(w, FlushOne(w, i))
  {
    hide CallOf;
  }

  lemma {:induction false} FlushCalm(w: Writer, i: nat)
    ensures Calm(w, FlushFrom(w, i))
    decreases |w.calls| - i
  {
    hide FlushOne, Calm, Ready;
    CalmSelf(w);
    if i < |w.calls| && (w.calls[i].live || Ready(w.calls[i])) {
      FlushOneShape(w, i);
      FlushOneCalm(w, i);
      FlushCalm(FlushOne(w, i), i + 1);
      CalmChain(w, FlushOne(w, i), FlushFrom(FlushOne(w, i), i + 1));
    }
  }

  lemma DeltaCalm(contract: Contract, w: Writer, items: seq<ToolItem>)
    ensures Calm(w, ToolCallDelta(contract, w, items))
  {
    hide ApplyItems, FlushFrom, Calm;
    var w1 := ApplyItems(contract, w, items);
    ItemsCalm(contract, w, items);
    FlushCalm(w1, 0);
    CalmChain(w, w1, FlushFrom(w1, 0));
  }

  lemma ModernCalm(contract: Contract, w: Writer, tools: ToolField)
    ensures Calm(w, CalledModern(contract, w, tools).0)
  {
    hide ToolCallDelta, Calm, Fail;
    CalmSelf(w);
    FailCalm(w, "upstream tool_calls must be an array");
    FailCalm(w, "upstream mixed legacy and modern tool calls");
    if tools.Tools? {
      DeltaCalm(contract, w, tools.items);
    }
  }

  lemma LegacyCalm(contract: Contract, w: Writer, legacy: LegacyField)
    ensures Calm(w, CalledLegacy(contract, w, legacy).0)
  {
    CalmSelf(w);
    FailCalm(w, "upstream function_call must be an object");
    FailCalm(w, "upstream mixed legacy and modern tool calls");
    var w1 := if w.legacyId.None? then w.(legacyId := Some(w.minted), minted := w.minted + 1) else w;
    assert Calm(w, w1);
    hide ToolCallDelta, Calm, Fail;
    if legacy.Legacy? {
      var items := [ToolDelta(-1, Generated(w1.legacyId.value), Some(legacy.fn))];
      DeltaCalm(contract, w1, items);
      CalmChain(w, w1, ToolCallDelta(contract, w1, items));
    }
  }

  lemma {:induction false} AssignCalm(w: Writer, i: nat)
    ensures Calm(w, AssignIds(w, i))
    decreases |w.calls| - i
  {
    if i < |w.calls| {
      if w.calls[i].id != NoId {
        AssignCalm(w, i + 1);
      } else {
        AssignCalm(SetCall(w, i, w.calls[i].(id := Generated(w.minted))).(minted := w.minted + 1), i + 1);
      }
    }
  }

  lemma CheckCalm(contract: Contract, w: Writer)
    ensures Calm(w, Check(contract, w))
  {
    CalmSelf(w);
    assert forall error :: Calm(w, w.(error := Some(error)));
    hide AssignIds, FlushFrom, Calm, Verdict;
    var w1 := AssignIds(w, 0);
    AssignCalm(w, 0);
    FlushCalm(w1, 0);
    CalmChain(w, w1, FlushFrom(w1, 0));
  }

  lemma ReasoningSaid(w: Writer, s: string)
    ensures var w' := ReasoningDelta(w, s);
            Calm(w, w'.(reason := w.reason)) && w'.reason == w.reason + s
  {
  }

  lemma TextSaid(w: Writer, kind: Kind, s: string)
    ensures var w' := TextDelta(w, kind, s);
            && Calm(w, w'.(text := w.text, refusal := w.refusal))
            && w'.text == (if kind == Refusal then w.text else w.text + s)
            && w'.refusal == (if kind == Refusal then w.refusal + s else w.refusal)
  {
    assert Calm(w, EnsurePart(w, kind));
    hide EnsurePart, IndexOf;
  }

  lemma SpokenSays(w: Writer, d: ChoiceDelta)
    ensures var w' := Spoken(w, d);
            && Calm(w, w'.(reason := w.reason, text := w.text, refusal := w.refusal))
            && w'.reason == w.reason + d.reasoning && w'.text == w.text + d.content && w'.refusal == w.refusal + d.refusal
  {
    var w1 := if d.reasoning != "" then ReasoningDelta(w, d.reasoning) else w;
    var w2 := if d.content != "" then TextDelta(w1, OutputText, d.content) else w1;
    ReasoningSaid(w, d.reasoning);
    TextSaid(w1, OutputText, d.content);
    TextSaid(w2, Refusal, d.refusal);
    hide ReasoningDelta, TextDelta;
  }

  /** What a choice adds to the texts, and that it loses nothing. */
  lemma ChoiceSays(contract: Contract, w: Writer, choice: Choice)
    ensures var w' := HandleChoice(contract, w, choice).0;
            && w'.sawDone == w.sawDone && (w.error.Some? ==> w'.error.Some?)
            && (if choice.Choice? && choice.first && choice.delta.Some? then
                  w'.reason == w.reason + choice.delta.value.reasoning && w'.text == w.text + choice.delta.value.content && w'.refusal == w.refusal + choice.delta.value.refusal
                else
                  w'.reason == w.reason && w'.text == w.text && w'.refusal == w.refusal)
            && w'.finishReason == (if choice.Choice? && choice.first && choice.finishReason != "" then choice.finishReason else w.finishReason)
  {
    hide Spoken, CalledModern, CalledLegacy;
    if choice.Choice? && choice.first && choice.delta.Some? {
      var w1 := if choice.finishReason != "" then w.(finishReason := choice.finishReason) else w;
      var d := choice.delta.value;
      SpokenSays(w1, d);
      ModernCalm(contract, Spoken(w1, d), d.tools);
      LegacyCalm(contract, CalledModern(contract, Spoken(w1, d), d.tools).0, d.legacy);
    }
  }

  lemma {:induction false} ChoicesKeep(contract: Contract, w: Writer, choices: seq<Choice>)
    ensures var w' := HandleChoices(contract, w, choices); w'.sawDone == w.sawDone && (w.error.Some? ==> w'.error.Some?)
    decreases |choices|
  {
    hide HandleChoice;
    if choices != [] {
      ChoiceSays(contract, w, choices[0]);
      ChoicesKeep(contract, HandleChoice(contract, w, choices[0]).0, choices[1..]);
    }
  }

  lemma PayloadKeeps(contract: Contract, w: Writer, payload: Payload)
    ensures var w' := HandlePayload(contract, w, payload);
            && w'.sawDone == w.sawDone && (w.error.Some? ==> w'.error.Some?)
            && (!payload.Chunk? ==> w'.error.Some?)
  {
    hide HandleChoices;
    if payload.Chunk? {
      ChoicesKeep(contract, w, payload.choices);
    }
  }

  // ---- An upstream error decides ----

  /** One of the texts is an error of the upstream, or no chunk at all. */
  ghost predicate Wrong(parse: string -> Payload, texts: seq<string>) {
    exists k :: 0 <= k < |texts| && !parse(texts[k]).Chunk?
  }

  lemma WrongConcat(parse: string -> Payload, a: seq<string>, b: seq<string>)
    ensures Wrong(parse, a + b) <==> Wrong(parse, a) || Wrong(parse, b)
  {
    if k :| 0 <= k < |a| && !parse(a[k]).Chunk? {
      assert (a + b)[k] == a[k];
    }
    if k :| 0 <= k < |b| && !parse(b[k]).Chunk? {
      assert (a + b)[|a| + k] == b[k];
    }
  }

  /** Hearing texts: whether [DONE] was heard, and that an error is never forgotten. */
  lemma {:induction false} HeardMarks(contract: Contract, parse: string -> Payload, w: Writer, texts: seq<string>)
    ensures var w' := HandleTexts(contract, parse, w, texts);
            && (w'.sawDone <==> w.sawDone || "[DONE]" in texts)
            && (w.error.Some? ==> w'.error.Some?)
            && (!w.sawDone && Wrong(parse, Until(texts)) ==> w'.error.Some?)
    decreases |texts|
  {
    hide HandlePayload, Wrong;
    if texts != [] {
      var w1 := HandleText(contract, parse, w, texts[0]);
      PayloadKeeps(contract, w, parse(texts[0]));
      HeardMarks(contract, parse, w1, texts[1..]);
      assert texts == [texts[0]] + texts[1..];
      NoneWrong(parse);
      if !w.sawDone && texts[0] != "[DONE]" {
        assert Until(texts) == [texts[0]] + Until(texts[1..]);
        WrongConcat(parse, [texts[0]], Until(texts[1..]));
        WrongFails(contract, parse, w, texts[0]);
      }
    } else {
      NoneWrong(parse);
    }
  }

  lemma NoneWrong(parse: string -> Payload)
    ensures !Wrong(parse, []) && Until([]) == []
  {
  }

  lemma WrongFails(contract: Contract, parse: string -> Payload, w: Writer, text: string)
    ensures Wrong(parse, [text]) <==> !parse(text).Chunk?
  {
    assert !parse(text).Chunk? ==> !parse([text][0]).Chunk?;
  }

  /** A run of upstream bytes and early checks: what was heard, and that an error among it stays. */
  lemma {:induction false} RunHears(contract: Contract, parse: string -> Payload, ops: seq<Op>)
    ensures var s, texts := RunOps(contract, parse, ops), DataTexts(AllBytes(ops));
            && s.buf == Rest(AllBytes(ops))
            && (s.writer.sawDone <==> "[DONE]" in texts)
            && (Wrong(parse, Until(texts)) ==> s.writer.error.Some?)
  {
    hide Drain, Check, DataTexts, Rest, HandleTexts, Until, Wrong;
    if ops == [] {
      NothingHeard();
      NoneWrong(parse);
    } else {
      var n := |ops| - 1;
      var s, bytes := RunOps(contract, parse, ops[..n]), AllBytes(ops[..n]);
      RunHears(contract, parse, ops[..n]);
      match ops[n]
      case Ask =>
        CheckCalm(contract, s.writer);
        assert bytes + "" == bytes;
      case Bytes(p) =>
        DrainHeard(contract, parse, s.writer, s.buf + p);
        HeardMarks(contract, parse, s.writer, DataTexts(s.buf + p));
        TextsSplit(bytes, p);
        FramesSplit(bytes, p);
        UntilSplit(DataTexts(bytes), DataTexts(s.buf + p));
        WrongConcat(parse, DataTexts(bytes), Until(DataTexts(s.buf + p)));
    }
  }

  lemma NothingHeard()
    ensures DataTexts("") == [] && Rest("") == "" && Until([]) == []
  {
    FramesStep("", 0);
  }

  /**
   The upstream's failure is the response's: if a data line before [DONE] is an error, or no chunk at all,
   the response fails, whatever comes before and after and however often it is checked early.
   */
  lemma UpstreamErrorFails(contract: Contract, parse: string -> Payload, ops: seq<Op>, outcome: Outcome, output: seq<Item>)
    requires EndsWith(FinalLog(contract, parse, ops), outcome, output)
    requires var texts := Until(DataTexts(AllBytes(ops))); exists k :: 0 <= k < |texts| && !parse(texts[k]).Chunk?
    ensures outcome == Failed
  {
    var texts := Until(DataTexts(AllBytes(ops)));
    assert Wrong(parse, texts);
    RunHears(contract, parse, ops);
    RunInv(contract, parse, ops);
    hide RunOps, Finish, Wrong, Inv, DataTexts, Until;
    ErrorIsFinal(contract, RunOps(contract, parse, ops).writer);
  }

  lemma ErrorIsFinal(contract: Contract, w: Writer)
    requires Inv(contract, w) && w.error.Some?
    ensures Finish(contract, w).sent != [] && Finish(contract, w).sent[|Finish(contract, w).sent| - 1].event.Terminal?
    ensures Finish(contract, w).sent[|Finish(contract, w).sent| - 1].event.outcome == Failed
  {
    FinishLog(contract, w);
    OutcomeKept(contract, w);
    CheckCalm(contract, w);
    hide Inv, Closed, Finish, OutputItems, Check, Executed, ParseAll, Numbered, Open;
  }
}
