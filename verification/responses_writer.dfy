/**
 responsesWriter (internal/server/responses.go) in its own form: an object whose methods update its
 fields. Every method is proved to do what its function in ResponsesStream says.
 */
module ResponsesWriters {
  import opened Wrappers
  import opened ResponseEvents
  import opened ToolPolicy
  import opened Text
  import S = ResponsesStream

  type Call = S.Call

  /** The calls in order of first appearance. */
  function Listed(calls: map<int, Call>, order: seq<int>): (r: seq<Call>)
    requires forall i :: 0 <= i < |order| ==> order[i] in calls
    ensures |r| == |order|
  {
    seq(|order|, i requires 0 <= i < |order| => calls[order[i]])
  }

  predicate Indexed(calls: map<int, Call>, order: seq<int>) {
    && (forall i :: 0 <= i < |order| ==> order[i] in calls)
    && (forall k :: k in calls ==> k in order)
    && (forall i, j :: 0 <= i < j < |order| ==> order[i] != order[j])
    && (forall k :: k in calls ==> calls[k].key == k)
  }

  lemma ListedAt(calls: map<int, Call>, order: seq<int>, k: nat)
    requires Indexed(calls, order) && k < |order|
    ensures order[k] in calls && Listed(calls, order)[k] == calls[order[k]] && calls[order[k]].key == order[k]
  {
  }

  lemma ListedUpdate(calls: map<int, Call>, order: seq<int>, i: nat, call: Call)
    requires Indexed(calls, order) && i < |order| && call.key == order[i]
    ensures Indexed(calls[order[i] := call], order)
    ensures Listed(calls[order[i] := call], order) == Listed(calls, order)[i := call]
  {
  }

  lemma ListedNew(calls: map<int, Call>, order: seq<int>, call: Call)
    requires Indexed(calls, order) && call.key !in calls
    ensures Indexed(calls[call.key := call], order + [call.key])
    ensures Listed(calls[call.key := call], order + [call.key]) == Listed(calls, order) + [call]
  {
  }

  lemma ListedFind(calls: map<int, Call>, order: seq<int>, key: int)
    requires Indexed(calls, order)
    ensures var i := S.FindCall(Listed(calls, order), key);
            if key in calls then i < |order| && order[i] == key else i == |order|
  {
    var list := Listed(calls, order);
    if key in calls {
      var j :| 0 <= j < |order| && order[j] == key;
      S.FindHit(list, j);
    }
    var i := S.FindCall(list, key);
    assert i < |order| ==> list[i].key == order[i];
  }

  lemma {:induction false} DoneSkips(contract: Contract, parse: string -> S.Payload, w: S.Writer, frame: string)
    requires w.sawDone
    ensures S.HandleLines(contract, parse, w, frame) == w
    decreases |frame|
  {
    var end := LineEnd(frame, 0);
    if end < |frame| {
      DoneSkips(contract, parse, w, frame[end + 1..]);
    }
  }

  class ResponsesWriter {
    const contract: Contract
    const parse: string -> S.Payload
    var buf: string
    var sent: seq<Sent>
    var nextSeq: nat
    var sawDone: bool
    var finishReason: string
    var streamErr: Option<string>
    var terminalStatus: Option<Outcome>
    var nextIdx: nat
    var rsOutIdx: nat
    var msgOutIdx: nat
    var rsOpen: bool
    var rsPart: bool
    var msgOpen: bool
    var messageParts: seq<Kind>
    var reason: string
    var text: string
    var refusal: string
    var calls: map<int, Call>
    var order: seq<int>
    var legacyCallId: Option<nat>
    var minted: nat

    ghost predicate Valid()
      reads this
    {
      Indexed(calls, order)
    }

    ghost function View(): S.Writer
      reads this
      requires Valid()
    {
      S.Writer(sawDone, finishReason, streamErr, terminalStatus, nextSeq, sent, nextIdx, rsOutIdx, msgOutIdx,
               rsOpen, rsPart, msgOpen, messageParts, reason, text, refusal, Listed(calls, order), legacyCallId, minted)
    }

    /** beginStream: the object announces the response at once. */
    constructor (contract: Contract, parse: string -> S.Payload)
      ensures Valid() && View() == S.Begin() && buf == "" && this.contract == contract && this.parse == parse
    {
      this.contract, this.parse := contract, parse;
      buf, sent, nextSeq := "", [], 0;
      sawDone, finishReason, streamErr, terminalStatus := false, "", None, None;
      nextIdx, rsOutIdx, msgOutIdx := 0, 0, 0;
      rsOpen, rsPart, msgOpen, messageParts := false, false, false, [];
      reason, text, refusal := "", "", "";
      calls, order, legacyCallId, minted := map[], [], None, 0;
      new;
      EmitEvent(Created);
      EmitEvent(Progress);
    }

    method EmitEvent(e: Event)
      requires Valid()
      modifies this`sent, this`nextSeq
      ensures Valid() && View() == S.Emit(old(View()), e)
    {
      sent := sent + [Sent(nextSeq, e)];
      nextSeq := nextSeq + 1;
    }

    method FailOutput(error: string)
      requires Valid()
      modifies this`streamErr
      ensures Valid() && View() == S.Fail(old(View()), error)
    {
      if streamErr.None? {
        streamErr := Some(error);
      }
    }

    method OpenReasoning()
      requires Valid()
      modifies this
      ensures Valid() && View() == S.OpenReasoning(old(View())) && buf == old(buf) && sawDone == old(sawDone)
    {
      hide Listed, Indexed;
      if rsOpen {
        return;
      }
      rsOutIdx := nextIdx;
      nextIdx := nextIdx + 1;
      EmitEvent(ItemAdded(rsOutIdx, ReasoningItem(reason, InProgress)));
      rsOpen := true;
    }

    /** The reasoning item is open and has its summary part. */
    method OpenSummary()
      requires Valid()
      modifies this
      ensures Valid() && View() == WithSummary(S.OpenReasoning(old(View()))) && buf == old(buf) && sawDone == old(sawDone)
    {
      hide S.OpenReasoning, Listed, Indexed;
      OpenReasoning();
      if !rsPart {
        EmitEvent(PartAdded(rsOutIdx, 0, Summary));
        rsPart := true;
      }
    }

    method ReasoningDelta(s: string)
      requires Valid()
      modifies this
      ensures Valid() && View() == S.ReasoningDelta(old(View()), s) && buf == old(buf) && sawDone == old(sawDone)
      ensures rsOpen && rsPart && reason == old(reason) + s && rsOutIdx == (if old(rsOpen) then old(rsOutIdx) else old(nextIdx))
      ensures text == old(text) && refusal == old(refusal) && streamErr == old(streamErr)
      ensures sent != [] && sent[|sent| - 1].event == Delta(rsOutIdx, 0, Summary, s)
    {
      hide S.OpenReasoning, S.ReasoningDelta, S.Emit, WithSummary, Listed, Indexed;
      OpenSummary();
      reason := reason + s;
      EmitEvent(Delta(rsOutIdx, 0, Summary, s));
      ReasoningInSteps(old(View()), s);
      ReasoningShape(old(View()), s);
    }

    method OpenMessage()
      requires Valid()
      modifies this
      ensures Valid() && View() == S.OpenMessage(old(View())) && buf == old(buf) && sawDone == old(sawDone)
    {
      hide Listed, Indexed;
      if msgOpen {
        return;
      }
      msgOutIdx := nextIdx;
      nextIdx := nextIdx + 1;
      EmitEvent(ItemAdded(msgOutIdx, MessageItem([], InProgress)));
      msgOpen := true;
    }

    method EnsureMessagePart(kind: Kind) returns (index: nat)
      requires Valid()
      modifies this
      ensures Valid() && View() == S.EnsurePart(old(View()), kind) && buf == old(buf) && sawDone == old(sawDone)
      ensures index == S.IndexOf(messageParts, kind)
    {
      OpenMessage();
      index := 0;
      while index < |messageParts|
        invariant index <= |messageParts|
        invariant S.IndexOf(messageParts, kind) == index + S.IndexOf(messageParts[index..], kind)
      {
        if messageParts[index] == kind {
          return;
        }
        assert messageParts[index..][1..] == messageParts[index + 1..];
        index := index + 1;
      }
      ghost var parts := messageParts;
      messageParts := messageParts + [kind];
      EmitEvent(PartAdded(msgOutIdx, index, kind));
      AppendedPart(parts, kind);
    }

    method TextDelta(kind: Kind, s: string)
      requires Valid() && kind != Summary
      modifies this
      ensures Valid() && View() == S.TextDelta(old(View()), kind, s) && buf == old(buf) && sawDone == old(sawDone)
      ensures text == (if kind == Refusal then old(text) else old(text) + s) && refusal == (if kind == Refusal then old(refusal) + s else old(refusal))
      ensures msgOpen && kind in messageParts && msgOutIdx == (if old(msgOpen) then old(msgOutIdx) else old(nextIdx))
      ensures reason == old(reason) && streamErr == old(streamErr)
      ensures sent != [] && sent[|sent| - 1].event == Delta(msgOutIdx, S.IndexOf(messageParts, kind), kind, s)
    {
      hide S.EnsurePart, Listed, Indexed;
      var index := EnsureMessagePart(kind);
      if kind == Refusal {
        refusal := refusal + s;
      } else {
        text := text + s;
      }
      EmitEvent(Delta(msgOutIdx, index, kind, s));
      assert View() == S.TextDelta(old(View()), kind, s);
      hide S.TextDelta, S.Emit;
      TextShape(old(View()), kind, s);
    }

    method StoreCall(ghost i: nat, call: Call)
      requires Valid() && i < |order| && call.key == order[i]
      modifies this`calls
      ensures Valid() && View() == S.SetCall(old(View()), i, call)
    {
      ListedUpdate(calls, order, i, call);
      calls := calls[call.key := call];
    }

    method OpenCall(i: nat)
      requires Valid() && i < |order|
      modifies this
      ensures Valid() && View() == S.OpenCall(old(View()), i) && buf == old(buf) && sawDone == old(sawDone) && order == old(order)
    {
      var call := calls[order[i]].(live := true, begun := true);
      StoreCall(i, call);
      EmitEvent(ItemAdded(call.outIdx, S.CallOf(call, InProgress)));
    }

    /** Arguments that arrived early are sent once; those of a custom call wait for its input. */
    method PassArguments(i: nat)
      requires Valid() && i < |order|
      modifies this
      ensures Valid() && View() == S.SendArguments(old(View()), i) && buf == old(buf) && sawDone == old(sawDone) && order == old(order)
    {
      var call := calls[order[i]];
      if !call.custom && call.sent < |call.arguments| {
        StoreCall(i, call.(sent := |call.arguments|));
        EmitEvent(ArgumentsDelta(call.outIdx, call.arguments[call.sent..]));
      }
    }

    method FlushReadyCalls()
      requires Valid()
      modifies this
      ensures Valid() && View() == S.FlushReady(old(View())) && buf == old(buf) && sawDone == old(sawDone) && order == old(order)
    {
      if streamErr.Some? {
        return;
      }
      ghost var result := S.FlushFrom(View(), 0);
      var i := 0;
      while i < |order|
        invariant Valid() && buf == old(buf) && sawDone == old(sawDone) && order == old(order)
        invariant S.FlushFrom(View(), i) == result
      {
        hide S.OpenCall, S.SendArguments, S.FlushFrom;
        ghost var w := View();
        FlushSteps(w, i);
        var call := calls[order[i]];
        if !call.live {
          if call.name == "" || call.id == NoId {
            return;
          }
          OpenCall(i);
        }
        PassArguments(i);
        i := i + 1;
      }
    }

    /** The call for a key, created on first sight. */
    method CallFor(key: int) returns (ghost i: nat)
      requires Valid()
      modifies this
      ensures Valid() && View() == S.NewCall(old(View()), key) && buf == old(buf) && sawDone == old(sawDone)
      ensures i == S.FindCall(View().calls, key) < |order| && order[i] == key
    {
      ListedFind(calls, order, key);
      if key !in calls {
        var call := S.Call(key, nextIdx, NoId, "", "", 0, false, false, false, false);
        ListedNew(calls, order, call);
        calls := calls[key := call];
        order := order + [key];
        nextIdx := nextIdx + 1;
      }
      ListedFind(calls, order, key);
      i := S.FindCall(Listed(calls, order), key);
    }

    /** The function part of one delta. */
    method ApplyFunction(ghost i: nat, key: int, f: S.FunctionDelta)
      requires Valid() && i < |order| && order[i] == key
      modifies this
      ensures Valid() && View() == S.ApplyFunction(contract, old(View()), i, f) && buf == old(buf) && sawDone == old(sawDone)
    {
      var call := calls[key];
      if f.name != "" {
        if call.name != "" && call.name != f.name {
          FailOutput("upstream changed a streamed tool name");
          return;
        }
        call := call.(name := f.name, custom := f.name in contract.customTools);
      }
      match f.arguments
      case NoArguments =>
        StoreCall(i, call);
      case NotAString =>
        StoreCall(i, call);
        FailOutput("upstream tool arguments must be a JSON string");
      case Arguments(text) =>
        StoreCall(i, call.(argumentsSeen := true, arguments := call.arguments + text));
    }

    method ApplyToolItem(item: S.ToolItem)
      requires Valid()
      modifies this
      ensures Valid() && View() == S.ApplyItem(contract, old(View()), item) && buf == old(buf) && sawDone == old(sawDone)
    {
      match item
      case NotAnObject =>
        FailOutput("upstream contained an invalid tool call");
      case ToolDelta(key, id, fn) =>
        hide S.NewCall, S.FindCall, S.ApplyFunction, S.ApplyItem, Identified, Listed, Indexed;
        ghost var i := CallFor(key);
        ApplyIdentified(i, key, id, fn);
        ApplyItemIs(contract, old(View()), key, id, fn);
    }

    method SetIdentity(ghost i: nat, key: int, id: CallId) returns (ok: bool)
      requires Valid() && i < |order| && order[i] == key
      modifies this`calls, this`streamErr
      ensures Valid()
      ensures (View(), ok) == Identity(old(View()), i, id)
    {
      var call := calls[key];
      assert View().calls[i] == call && call.key == key;
      hide Listed, Indexed, S.SetCall, S.Fail;
      ok := id == NoId || call.id == NoId || call.id == id;
      if !ok {
        FailOutput("upstream changed a streamed tool call identity");
      } else if id != NoId {
        StoreCall(i, call.(id := id));
      }
    }

    method ApplyIdentified(ghost i: nat, key: int, id: CallId, fn: Option<S.FunctionDelta>)
      requires Valid() && i < |order| && order[i] == key
      modifies this
      ensures Valid() && buf == old(buf) && sawDone == old(sawDone)
      ensures View() == Identified(contract, old(View()), i, id, fn)
    {
      hide S.ApplyFunction, Identity, Indexed, Listed;
      var ok := SetIdentity(i, key, id);
      if ok && fn.Some? {
        ApplyFunction(i, key, fn.value);
      }
    }

    method ToolCallDelta(items: seq<S.ToolItem>)
      requires Valid()
      modifies this
      ensures Valid() && View() == S.ToolCallDelta(contract, old(View()), items) && buf == old(buf) && sawDone == old(sawDone)
    {
      hide S.ApplyItem, S.FlushReady;
      var k := 0;
      while k < |items| && streamErr.None?
        invariant k <= |items| && Valid() && buf == old(buf) && sawDone == old(sawDone)
        invariant S.ApplyItems(contract, View(), items[k..]) == S.ApplyItems(contract, old(View()), items)
      {
        assert items[k..][1..] == items[k + 1..];
        ApplyToolItem(items[k]);
        k := k + 1;
      }
      assert S.ApplyItems(contract, View(), items[k..]) == View();
      FlushReadyCalls();
    }

    method LegacyFunctionDelta(f: S.FunctionDelta)
      requires Valid()
      modifies this
      ensures Valid() && View() == S.LegacyDelta(contract, old(View()), f) && buf == old(buf) && sawDone == old(sawDone)
      ensures old(legacyCallId).None? && f.name == "" && (f.arguments == S.NoArguments || f.arguments == S.Arguments("")) ==> View() == old(View())
      ensures old(legacyCallId).None? && !(f.name == "" && (f.arguments == S.NoArguments || f.arguments == S.Arguments(""))) && old(order) != [] ==>
                streamErr.Some? && sent == old(sent) && order == old(order)
    {
      hide S.ToolCallDelta;
      if legacyCallId.None? {
        if f.name == "" && (f.arguments == S.NoArguments || f.arguments == S.Arguments("")) {
          return;
        }
        if |order| > 0 {
          FailOutput("upstream mixed legacy and modern tool calls");
          return;
        }
        legacyCallId := Some(minted);
        minted := minted + 1;
      }
      ToolCallDelta([S.ToolDelta(-1, Generated(legacyCallId.value), Some(f))]);
    }

    /** The part of a choice after its text; the result says whether the rest of the chunk is ignored. */
    method HandleTools(d: S.ChoiceDelta) returns (stop: bool)
      requires Valid()
      modifies this
      ensures Valid() && buf == old(buf) && sawDone == old(sawDone)
      ensures var (w, stopped) := S.CalledModern(contract, old(View()), d.tools);
              if stopped then View() == w && stop else (View(), stop) == S.CalledLegacy(contract, w, d.legacy)
    {
      hide S.ToolCallDelta, S.LegacyDelta;
      stop := false;
      match d.tools {
        case NoTools =>
        case NotAnArray =>
          FailOutput("upstream tool_calls must be an array");
          return true;
        case Tools(items) =>
          if |items| > 0 {
            if legacyCallId.Some? {
              FailOutput("upstream mixed legacy and modern tool calls");
              return true;
            }
            ToolCallDelta(items);
          }
      }
      match d.legacy {
        case NoFunction =>
        case NotAFunction =>
          FailOutput("upstream function_call must be an object");
          return true;
        case Legacy(f) =>
          LegacyFunctionDelta(f);
      }
    }

    method Speak(d: S.ChoiceDelta)
      requires Valid()
      modifies this
      ensures Valid() && View() == S.Spoken(old(View()), d) && buf == old(buf) && sawDone == old(sawDone)
    {
      hide S.ReasoningDelta, S.TextDelta;
      if d.reasoning != "" {
        ReasoningDelta(d.reasoning);
      }
      if d.content != "" {
        TextDelta(OutputText, d.content);
      }
      if d.refusal != "" {
        TextDelta(Refusal, d.refusal);
      }
    }

    method HandleChunk(choices: seq<S.Choice>)
      requires Valid() && streamErr.None?
      modifies this
      ensures Valid() && View() == S.HandleChoices(contract, old(View()), choices) && buf == old(buf) && sawDone == old(sawDone)
    {
      hide S.Spoken, S.CalledModern, S.CalledLegacy;
      var k := 0;
      while k < |choices|
        invariant k <= |choices| && Valid() && buf == old(buf) && sawDone == old(sawDone)
        invariant S.HandleChoices(contract, View(), choices[k..]) == S.HandleChoices(contract, old(View()), choices)
      {
        var choice := choices[k];
        assert choices[k..][1..] == choices[k + 1..];
        k := k + 1;
        if choice.Malformed? || !choice.first {
          continue;
        }
        if choice.finishReason != "" {
          finishReason := choice.finishReason;
        }
        if choice.delta.None? {
          continue;
        }
        Speak(choice.delta.value);
        var stop := HandleTools(choice.delta.value);
        if stop {
          return;
        }
      }
    }

    method HandleFrame(frame: string)
      requires Valid()
      modifies this
      ensures Valid() && View() == S.HandleLines(contract, parse, old(View()), frame) && buf == old(buf)
    {
      hide S.HandleChoices, TrimCarriageReturns;
      if sawDone {
        DoneSkips(contract, parse, View(), frame);
        return;
      }
      var rest, more := frame, true;
      while more
        invariant Valid() && buf == old(buf) && !sawDone
        invariant (if more then S.HandleLines(contract, parse, View(), rest) else View()) == S.HandleLines(contract, parse, old(View()), frame)
        decreases |rest| + if more then 1 else 0
      {
        var end := LineEnd(rest, 0);
        var line := TrimCarriageReturns(rest[..end]);
        ghost var w := View();
        if DATA <= line {
          var payload := line[|DATA|..];
          if payload == "[DONE]" {
            sawDone := true;
            if end < |rest| {
              DoneSkips(contract, parse, View(), rest[end + 1..]);
            }
            return;
          }
          HandlePayload(parse(payload));
        }
        assert View() == S.HandleLine(contract, parse, w, rest[..end]);
        if end == |rest| {
          more := false;
        } else {
          rest := rest[end + 1..];
        }
      }
    }

    method HandlePayload(payload: S.Payload)
      requires Valid()
      modifies this
      ensures Valid() && View() == S.HandlePayload(contract, old(View()), payload) && buf == old(buf) && sawDone == old(sawDone)
    {
      hide S.HandleChoices;
      match payload
      case Garbage =>
        streamErr := Some("invalid upstream event");
      case Problem(error) =>
        streamErr := Some(error);
      case Chunk(choices) =>
        if streamErr.None? {
          HandleChunk(choices);
        }
    }

    /** feed: collects bytes and handles every frame that a blank line ends. */
    method Feed(p: string)
      requires Valid()
      modifies this
      ensures Valid() && S.Stream(buf, View()) == S.Feed(contract, parse, S.Stream(old(buf), old(View())), p)
    {
      hide S.HandleLines;
      buf := buf + p;
      ghost var result := S.Drain(contract, parse, View(), buf);
      while true
        invariant Valid() && S.Drain(contract, parse, View(), buf) == result
        decreases |buf|
      {
        var i := FrameEnd(buf, 0);
        if i == |buf| {
          return;
        }
        var frame := buf[..i];
        buf := buf[i + 2..];
        HandleFrame(frame);
      }
    }

    // ---- The end of the stream ----

    method ValidateCalls()
      requires Valid()
      modifies this`streamErr
      ensures Valid()
      ensures View() == if S.AllValid(contract, old(View()).calls) then old(View()) else S.Fail(old(View()), "invalid tool call")
    {
      for k := 0 to |order|
        invariant View() == old(View())
        invariant forall j :: 0 <= j < k ==> ValidAt(contract, View().calls, j)
      {
        var call := calls[order[k]];
        if !CallValid(contract, call.name, call.arguments, call.argumentsSeen) {
          assert !ValidAt(contract, View().calls, k);
          AllValidAt(contract, View().calls);
          FailOutput("invalid tool call");
          return;
        }
      }
      AllValidAt(contract, View().calls);
    }

    method CollectInvocations() returns (invocations: seq<Invocation>)
      requires Valid()
      ensures invocations == S.Invocations(View().calls)
    {
      invocations := [];
      for k := 0 to |order|
        invariant |invocations| == k
        invariant forall j :: 0 <= j < k ==> invocations[j] == Invocation(calls[order[j]].name, calls[order[j]].arguments)
      {
        invocations := invocations + [Invocation(calls[order[k]].name, calls[order[k]].arguments)];
      }
    }

    method AssignIds()
      requires Valid()
      modifies this`calls, this`minted
      ensures Valid() && View() == S.AssignIds(old(View()), 0)
    {
      var k := 0;
      while k < |order|
        invariant k <= |order| && Valid()
        invariant S.AssignIds(View(), k) == S.AssignIds(old(View()), 0)
      {
        ListedAt(calls, order, k);
        hide Listed, Indexed;
        var call := calls[order[k]];
        AssignStep(View(), k);
        hide S.AssignIds;
        if call.id == NoId {
          StoreCall(k, call.(id := Generated(minted)));
          minted := minted + 1;
        }
        k := k + 1;
      }
    }

    /** CompletionError: nothing is announced or done before every check passed. */
    method CompletionError() returns (failure: Option<string>)
      requires Valid()
      modifies this
      ensures Valid() && View() == S.Check(contract, old(View())) && failure == View().error
    {
      Decide();
      hide S.AssignIds, S.FlushReady, S.Verdict, Listed, Indexed;
      if streamErr.None? && !CutShort(finishReason) {
        ghost var w := View();
        assert w == old(View());
        AssignIds();
        FlushReadyCalls();
        FlushKeepsError(S.AssignIds(w, 0));
        AssignIdsKeepsError(w, 0);
      }
      failure := streamErr;
    }

    method Decide()
      requires Valid()
      modifies this`streamErr
      ensures Valid() && View() == old(View()).(error := S.Verdict(contract, old(View())))
    {
      hide S.Verdict, Indexed;
      EarlyVerdict(contract, View());
      if streamErr.None? && !sawDone && finishReason == "" {
        FailOutput("upstream stream ended without a completion marker");
      }
      if streamErr.None? && ToolFinish(finishReason) && |order| == 0 {
        FailOutput("upstream ended with a tool finish reason but no tool call");
      }
      if streamErr.None? && !CutShort(finishReason) {
        Judge();
      }
    }

    /** The checks on a whole completion. */
    method Judge()
      requires Valid() && streamErr.None? && !CutShort(finishReason) && (sawDone || finishReason != "")
      requires !(ToolFinish(finishReason) && |order| == 0)
      modifies this`streamErr
      ensures Valid() && View() == old(View()).(error := S.Verdict(contract, old(View())))
    {
      hide S.Verdict, S.AllValid, S.Invocations, PolicyAccepts, Indexed, Listed, CutShort, ToolFinish;
      ghost var w := View();
      LateVerdict(contract, w);
      if contract.forbidParallel && |order| > 1 {
        streamErr := Some("model returned parallel tool calls");
        return;
      }
      ValidateCalls();
      if streamErr.Some? {
        return;
      }
      var invocations := CollectInvocations();
      if !PolicyAccepts(contract.policy, invocations, refusal != "") {
        streamErr := Some("tool contract violation");
        return;
      }
      if |order| == 0 && refusal == "" && !contract.outputAccepts(text) {
        streamErr := Some("response format violation");
      }
    }

    method CloseReasoning()
      requires Valid()
      modifies this
      ensures Valid() && View() == S.CloseReasoning(old(View()))
    {
      hide Listed, Indexed;
      if !rsOpen {
        return;
      }
      if rsPart {
        EmitEvent(TextDone(rsOutIdx, 0, Summary, reason));
        EmitEvent(PartDone(rsOutIdx, 0, Summary, reason));
        rsPart := false;
      }
      EmitEvent(ItemDone(rsOutIdx, ReasoningItem(reason, S.StatusOf(Fields()))));
      rsOpen := false;
    }

    method CloseMessage()
      requires Valid()
      modifies this
      ensures Valid() && View() == S.CloseMessage(old(View()))
    {
      hide S.Emit, Listed, Indexed;
      if !msgOpen {
        return;
      }
      var i := 0;
      while i < |messageParts|
        invariant i <= |messageParts| && Valid()
        invariant S.CloseParts(View(), i) == S.CloseParts(old(View()), 0)
      {
        var kind := messageParts[i];
        var content := S.PartText(Fields(), kind);
        EmitEvent(TextDone(msgOutIdx, i, kind, content));
        EmitEvent(PartDone(msgOutIdx, i, kind, content));
        i := i + 1;
      }
      EmitEvent(ItemDone(msgOutIdx, S.MessageOf(Fields(), S.StatusOf(Fields()))));
      msgOpen := false;
    }

    method CloseCall(i: nat)
      requires Valid() && i < |order|
      modifies this
      ensures Valid() && View() == S.CloseCall(old(View()), i) && order == old(order)
    {
      var call := calls[order[i]];
      if !call.live {
        return;
      }
      if S.StatusOf(Fields()) == Complete {
        if !call.custom {
          EmitEvent(ArgumentsDone(call.outIdx, call.arguments));
        }
        EmitEvent(ItemDone(call.outIdx, S.CallOf(call, Complete)));
      }
      StoreCall(i, call.(live := false));
    }

    method CloseCalls()
      requires Valid()
      modifies this
      ensures Valid() && View() == S.CloseCalls(S.CloseMessage(S.CloseReasoning(old(View()))), 0)
    {
      hide S.CloseReasoning, S.CloseMessage, S.CloseCall;
      CloseReasoning();
      CloseMessage();
      var i := 0;
      while i < |order|
        invariant i <= |order| && Valid()
        invariant S.CloseCalls(View(), i) == S.CloseCalls(S.CloseMessage(S.CloseReasoning(old(View()))), 0)
      {
        CloseCall(i);
        i := i + 1;
      }
    }

    /** Everything behind the decision: the items are closed and the terminal event sent. */
    method EndWith(status: Outcome)
      requires Valid()
      modifies this
      ensures Valid() && View() == EndedWith(old(View()), status)
      ensures terminalStatus == Some(status) && sent != [] && sent[|sent| - 1].event.Terminal? && sent[|sent| - 1].event.outcome == status
    {
      hide S.CloseReasoning, S.CloseMessage, S.CloseCalls, S.OutputItems, S.Emit, Listed, Indexed;
      terminalStatus := Some(status);
      ghost var decided := View();
      CloseCalls();
      ghost var closed := View();
      ClosedOutcome(decided);
      assert terminalStatus == closed.outcome == Some(status);
      EmitEvent(Terminal(status, S.OutputItems(Fields())));
      S.EmitFields(closed, Terminal(status, S.OutputItems(closed)));
    }

    method FinishStream()
      requires Valid()
      modifies this
      ensures Valid() && View() == S.Finish(contract, old(View()))
      ensures terminalStatus.Some? && sent != [] && sent[|sent| - 1].event.Terminal? && sent[|sent| - 1].event.outcome == terminalStatus.value
      ensures terminalStatus.value == Completed ==> S.Verdict(contract, old(View())).None? && !CutShort(old(finishReason))
    {
      hide S.Check, S.Verdict, EndedWith, S.Finish, Listed, Indexed;
      var failure := CompletionError();
      CheckDecides(contract, old(View()));
      var status := Completed;
      if CutShort(finishReason) {
        status := Truncated;
      }
      if streamErr.Some? {
        status := Failed;
      }
      FinishEnds(contract, old(View()), status);
      EndWith(status);
    }

    /** The fields as a value, for the item builders. */
    function Fields(): (w: S.Writer)
      reads this
      requires Valid()
      ensures w == View()
    {
      S.Writer(sawDone, finishReason, streamErr, terminalStatus, nextSeq, sent, nextIdx, rsOutIdx, msgOutIdx,
               rsOpen, rsPart, msgOpen, messageParts, reason, text, refusal, Listed(calls, order), legacyCallId, minted)
    }
  }

  predicate ValidAt(contract: Contract, calls: seq<Call>, j: int) {
    0 <= j < |calls| ==> CallValid(contract, calls[j].name, calls[j].arguments, calls[j].argumentsSeen)
  }

  lemma EarlyVerdict(contract: Contract, w: S.Writer)
    ensures w.error.Some? ==> S.Verdict(contract, w) == w.error
    ensures w.error.None? && !w.sawDone && w.finishReason == ""
            ==> S.Verdict(contract, w) == Some("upstream stream ended without a completion marker")
    ensures w.error.None? && (w.sawDone || w.finishReason != "") && ToolFinish(w.finishReason) && w.calls == []
            ==> S.Verdict(contract, w) == Some("upstream ended with a tool finish reason but no tool call")
    ensures w.error.None? && (w.sawDone || w.finishReason != "") && CutShort(w.finishReason)
            ==> S.Verdict(contract, w) == None
  {
    hide S.AllValid, S.Invocations, PolicyAccepts;
  }

  lemma LateVerdict(contract: Contract, w: S.Writer)
    requires w.error.None? && !CutShort(w.finishReason) && (w.sawDone || w.finishReason != "")
    requires !(ToolFinish(w.finishReason) && w.calls == [])
    ensures S.Verdict(contract, w) ==
            if contract.forbidParallel && |w.calls| > 1 then Some("model returned parallel tool calls")
            else if !S.AllValid(contract, w.calls) then Some("invalid tool call")
            else if !PolicyAccepts(contract.policy, S.Invocations(w.calls), w.refusal != "") then Some("tool contract violation")
            else if w.calls == [] && w.refusal == "" && !contract.outputAccepts(w.text) then Some("response format violation")
            else None
  {
    hide S.AllValid, S.Invocations, PolicyAccepts;
  }

  lemma AllValidAt(contract: Contract, calls: seq<Call>)
    ensures S.AllValid(contract, calls) <==> forall j :: 0 <= j < |calls| ==> ValidAt(contract, calls, j)
  {
    hide CallValid;
    if forall j :: 0 <= j < |calls| ==> ValidAt(contract, calls, j) {
      forall j | 0 <= j < |calls|
        ensures CallValid(contract, calls[j].name, calls[j].arguments, calls[j].argumentsSeen)
      {
        assert ValidAt(contract, calls, j);
      }
    }
  }

  lemma FlushKeepsError(w: S.Writer)
    ensures S.FlushReady(w).error == w.error && S.FlushReady(w).finishReason == w.finishReason
  {
    FlushFromKeepsError(w, 0);
  }

  lemma {:induction false} FlushFromKeepsError(w: S.Writer, i: nat)
    ensures S.FlushFrom(w, i).error == w.error && S.FlushFrom(w, i).finishReason == w.finishReason
    decreases |w.calls| - i
  {
    if i < |w.calls| && (w.calls[i].live || S.Ready(w.calls[i])) {
      S.FlushOneShape(w, i);
      FlushFromKeepsError(S.FlushOne(w, i), i + 1);
    }
  }

  lemma {:induction false} AssignIdsKeepsError(w: S.Writer, i: nat)
    ensures S.AssignIds(w, i).error == w.error && S.AssignIds(w, i).finishReason == w.finishReason
    decreases |w.calls| - i
  {
    if i < |w.calls| {
      if w.calls[i].id != NoId {
        AssignIdsKeepsError(w, i + 1);
      } else {
        AssignIdsKeepsError(S.SetCall(w, i, w.calls[i].(id := Generated(w.minted))).(minted := w.minted + 1), i + 1);
      }
    }
  }

  lemma ReasoningShape(w: S.Writer, s: string)
    ensures var w' := S.ReasoningDelta(w, s);
            && w'.rsOpen && w'.rsPart && w'.reason == w.reason + s && w'.rsIdx == (if w.rsOpen then w.rsIdx else w.nextIdx)
            && w'.text == w.text && w'.refusal == w.refusal && w'.error == w.error
            && w'.sent != [] && w'.sent[|w'.sent| - 1].event == Delta(w'.rsIdx, 0, Summary, s)
  {
  }

  lemma {:induction false} PartIndex(parts: seq<Kind>, kind: Kind)
    ensures S.IndexOf(parts, kind) < |parts| <==> kind in parts
  {
    if parts != [] && parts[0] != kind {
      PartIndex(parts[1..], kind);
    }
  }

  lemma EnsureShape(w: S.Writer, kind: Kind)
    ensures var w' := S.EnsurePart(w, kind);
            && w'.msgOpen && kind in w'.parts && w'.msgIdx == (if w.msgOpen then w.msgIdx else w.nextIdx)
            && w'.text == w.text && w'.refusal == w.refusal && w'.reason == w.reason && w'.error == w.error
  {
    PartIndex(w.parts, kind);
    hide S.IndexOf;
  }

  lemma TextShape(w: S.Writer, kind: Kind, s: string)
    requires kind != Summary
    ensures var w' := S.TextDelta(w, kind, s);
            && w'.text == (if kind == Refusal then w.text else w.text + s) && w'.refusal == (if kind == Refusal then w.refusal + s else w.refusal)
            && w'.msgOpen && kind in w'.parts && w'.msgIdx == (if w.msgOpen then w.msgIdx else w.nextIdx)
            && w'.reason == w.reason && w'.error == w.error
            && w'.sent != [] && w'.sent[|w'.sent| - 1].event == Delta(w'.msgIdx, S.IndexOf(w'.parts, kind), kind, s)
  {
    EnsureShape(w, kind);
    hide S.EnsurePart, S.IndexOf;
  }

  /** The end of a stream whose outcome is decided. */
  function EndedWith(w: S.Writer, status: Outcome): S.Writer {
    var closed := S.CloseCalls(S.CloseMessage(S.CloseReasoning(w.(outcome := Some(status)))), 0);
    S.Emit(closed, Terminal(status, S.OutputItems(closed)))
  }

  lemma FinishEnds(contract: Contract, w: S.Writer, status: Outcome)
    requires status == S.OutcomeOf(S.Check(contract, w))
    ensures S.Finish(contract, w) == EndedWith(S.Check(contract, w), status)
  {
    hide S.Check, S.CloseReasoning, S.CloseMessage, S.CloseCalls, S.OutputItems, S.Emit;
    ClosedOutcome(S.Check(contract, w).(outcome := Some(status)));
  }

  /** A check that rejects records its error, and no check changes how the upstream ended. */
  lemma CheckDecides(contract: Contract, w: S.Writer)
    ensures S.Check(contract, w).finishReason == w.finishReason
    ensures S.Check(contract, w).error == S.Verdict(contract, w)
  {
    VerdictClean(contract, w);
    AssignIdsKeepsError(w, 0);
    FlushKeepsError(S.AssignIds(w, 0));
    hide S.Verdict, S.AssignIds, S.FlushReady;
  }

  lemma VerdictClean(contract: Contract, w: S.Writer)
    ensures S.Verdict(contract, w).None? ==> w.error.None?
  {
  }

  lemma ClosedOutcome(d: S.Writer)
    ensures var c := S.CloseCalls(S.CloseMessage(S.CloseReasoning(d)), 0);
            c.error == d.error && c.finishReason == d.finishReason && c.outcome == d.outcome
  {
    ClosePartsOutcome(d, 0);
    var r := S.CloseReasoning(d);
    assert r.error == d.error && r.finishReason == d.finishReason && r.outcome == d.outcome;
    ClosePartsOutcome(r, 0);
    hide S.CloseReasoning, S.CloseParts;
    var m := S.CloseMessage(r);
    assert m.error == d.error && m.finishReason == d.finishReason && m.outcome == d.outcome;
    hide S.CloseMessage;
    CloseCallsOutcome(m, 0);
  }

  lemma {:induction false} ClosePartsOutcome(w: S.Writer, i: nat)
    ensures S.CloseParts(w, i).error == w.error && S.CloseParts(w, i).finishReason == w.finishReason && S.CloseParts(w, i).outcome == w.outcome
    decreases |w.parts| - i
  {
    if i < |w.parts| {
      var kind := w.parts[i];
      ClosePartsOutcome(S.Emit(S.Emit(w, TextDone(w.msgIdx, i, kind, S.PartText(w, kind))), PartDone(w.msgIdx, i, kind, S.PartText(w, kind))), i + 1);
    }
  }

  lemma CloseCallOutcome(w: S.Writer, i: nat)
    requires i < |w.calls|
    ensures var c := S.CloseCall(w, i); c.error == w.error && c.finishReason == w.finishReason && c.outcome == w.outcome
  {
    hide S.CallOf, S.StatusOf;
  }

  lemma {:induction false} CloseCallsOutcome(w: S.Writer, i: nat)
    ensures S.CloseCalls(w, i).error == w.error && S.CloseCalls(w, i).finishReason == w.finishReason && S.CloseCalls(w, i).outcome == w.outcome
    decreases |w.calls| - i
  {
    if i < |w.calls| {
      CloseCallOutcome(w, i);
      hide S.CloseCall;
      CloseCallsOutcome(S.CloseCall(w, i), i + 1);
    }
  }

  /** The summary part of the reasoning is there, or added. */
  function WithSummary(w: S.Writer): S.Writer {
    if w.rsPart then w else S.Emit(w, PartAdded(w.rsIdx, 0, Summary)).(rsPart := true)
  }

  lemma ReasoningInSteps(w: S.Writer, s: string)
    ensures var w2 := WithSummary(S.OpenReasoning(w));
            S.ReasoningDelta(w, s) == S.Emit(w2.(reason := w2.reason + s), Delta(w2.rsIdx, 0, Summary, s))
  {
    hide S.OpenReasoning, S.Emit;
  }

  function Identity(w: S.Writer, i: nat, id: CallId): (S.Writer, bool)
    requires i < |w.calls|
  {
    var call := w.calls[i];
    if id != NoId && call.id != NoId && call.id != id then (S.Fail(w, "upstream changed a streamed tool call identity"), false)
    else (if id != NoId then S.SetCall(w, i, call.(id := id)) else w, true)
  }

  function Identified(contract: Contract, w: S.Writer, i: nat, id: CallId, fn: Option<S.FunctionDelta>): S.Writer
    requires i < |w.calls|
  {
    var (w2, ok) := Identity(w, i, id);
    if ok && fn.Some? then S.ApplyFunction(contract, w2, i, fn.value) else w2
  }

  lemma ApplyItemIs(contract: Contract, w: S.Writer, key: int, id: CallId, fn: Option<S.FunctionDelta>)
    ensures var w1 := S.NewCall(w, key);
            var i := S.FindCall(w1.calls, key);
            i < |w1.calls| && S.ApplyItem(contract, w, S.ToolDelta(key, id, fn)) == Identified(contract, w1, i, id, fn)
  {
    S.NewCallFound(w, key);
    var w1 := S.NewCall(w, key);
    hide S.NewCall, S.FindCall, S.ApplyFunction, S.Fail;
    assert S.ApplyItem(contract, w, S.ToolDelta(key, id, fn)) == Identified(contract, w1, S.FindCall(w1.calls, key), id, fn) by {
      hide S.SetCall;
    }
  }

  lemma AssignStep(w: S.Writer, i: nat)
    requires i < |w.calls|
    ensures S.AssignIds(w, i) ==
            if w.calls[i].id != NoId then S.AssignIds(w, i + 1)
            else S.AssignIds(w.(calls := w.calls[i := w.calls[i].(id := Generated(w.minted))], minted := w.minted + 1), i + 1)
  {
  }

  lemma FlushSteps(w: S.Writer, i: nat)
    requires i < |w.calls|
    ensures !w.calls[i].live && !S.Ready(w.calls[i]) ==> S.FlushFrom(w, i) == w
    ensures w.calls[i].live ==> S.FlushFrom(w, i) == S.FlushFrom(S.SendArguments(w, i), i + 1)
    ensures !w.calls[i].live && S.Ready(w.calls[i]) ==>
              i < |S.OpenCall(w, i).calls| && S.FlushFrom(w, i) == S.FlushFrom(S.SendArguments(S.OpenCall(w, i), i), i + 1)
  {
    hide S.SendArguments;
  }

  lemma {:induction false} AppendedPart(parts: seq<Kind>, kind: Kind)
    requires S.IndexOf(parts, kind) == |parts|
    ensures S.IndexOf(parts + [kind], kind) == |parts|
  {
    if parts != [] {
      assert (parts + [kind])[1..] == parts[1..] + [kind];
      AppendedPart(parts[1..], kind);
    }
  }
}
