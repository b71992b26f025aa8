/**
 The streaming half of responsesWriter (internal/server/responses.go) as functions on its state:
 bytes are cut into frames, frames into data lines, and every delta moves the state and may send
 events. The JSON decoding of a data line is the parameter parse.
 */
module ResponsesStream {
  import opened Wrappers
  import opened ResponseEvents
  import opened ToolPolicy
  import opened Text

  // ---- Decoded upstream data ----

  datatype ArgumentsField = NoArguments | NotAString | Arguments(text: string)

  datatype FunctionDelta = FunctionDelta(name: string, arguments: ArgumentsField)

  datatype ToolItem = NotAnObject | ToolDelta(key: int, id: CallId, fn: Option<FunctionDelta>)

  datatype ToolField = NoTools | NotAnArray | Tools(items: seq<ToolItem>)

  datatype LegacyField = NoFunction | NotAFunction | Legacy(fn: FunctionDelta)

  datatype ChoiceDelta = ChoiceDelta(reasoning: string, content: string, refusal: string, tools: ToolField, legacy: LegacyField)

  /** first is false for a choice with a nonzero index; fields that are not strings read as "". */
  datatype Choice = Malformed | Choice(first: bool, finishReason: string, delta: Option<ChoiceDelta>)

  datatype Payload = Garbage | Problem(error: string) | Chunk(choices: seq<Choice>)

  // ---- State ----

  /** One streamed call. begun stays true once its item was announced; sent counts the argument bytes passed on. */
  datatype Call = Call(key: int, outIdx: nat, id: CallId, name: string, arguments: string, sent: nat,
                       argumentsSeen: bool, live: bool, begun: bool, custom: bool)

  /** calls holds the streamed calls in order of first appearance. */
  datatype Writer = Writer(
    sawDone: bool, finishReason: string, error: Option<string>, outcome: Option<Outcome>,
    nextSeq: nat, sent: seq<Sent>, nextIdx: nat, rsIdx: nat, msgIdx: nat,
    rsOpen: bool, rsPart: bool, msgOpen: bool, parts: seq<Kind>,
    reason: string, text: string, refusal: string,
    calls: seq<Call>, legacyId: Option<nat>, minted: nat)

  /** The writer together with the bytes that do not make a frame yet. */
  datatype Stream = Stream(buf: string, writer: Writer)

  function Emit(w: Writer, e: Event): Writer {
    w.(sent := w.sent + [Sent(w.nextSeq, e)], nextSeq := w.nextSeq + 1)
  }

  /** An event goes to the log and nowhere else. */
  lemma EmitFields(w: Writer, e: Event)
    ensures Emit(w, e) == w.(sent := w.sent + [Sent(w.nextSeq, e)], nextSeq := w.nextSeq + 1)
  {
  }

  function Begin(): Writer {
    Emit(Emit(Writer(false, "", None, None, 0, [], 0, 0, 0, false, false, false, [], "", "", "", [], None, 0),
              Created), Progress)
  }

  function Fail(w: Writer, error: string): Writer {
    if w.error.None? then w.(error := Some(error)) else w
  }

  // ---- Items ----

  function StatusOf(w: Writer): ItemStatus {
    if w.outcome == Some(Failed) || w.outcome == Some(Truncated) then Incomplete else Complete
  }

  function PartText(w: Writer, kind: Kind): string {
    match kind case Summary => w.reason case OutputText => w.text case Refusal => w.refusal
  }

  function MessageContent(w: Writer): seq<(Kind, string)> {
    seq(|w.parts|, i requires 0 <= i < |w.parts| => (w.parts[i], PartText(w, w.parts[i])))
  }

  function MessageOf(w: Writer, status: ItemStatus): Item {
    MessageItem(if status == InProgress then [] else MessageContent(w), status)
  }

  function CallOf(call: Call, status: ItemStatus): Item {
    CallItem(call.id, call.name, if status == InProgress then "" else call.arguments, call.custom, status)
  }

  // ---- Text, refusal and reasoning deltas ----

  function OpenReasoning(w: Writer): Writer {
    if w.rsOpen then w
    else Emit(w.(rsIdx := w.nextIdx, nextIdx := w.nextIdx + 1),
              ItemAdded(w.nextIdx, ReasoningItem(w.reason, InProgress))).(rsOpen := true)
  }

  function ReasoningDelta(w: Writer, s: string): Writer {
    var w1 := OpenReasoning(w);
    var w2 := if w1.rsPart then w1 else Emit(w1, PartAdded(w1.rsIdx, 0, Summary)).(rsPart := true);
    Emit(w2.(reason := w2.reason + s), Delta(w2.rsIdx, 0, Summary, s))
  }

  function OpenMessage(w: Writer): Writer {
    if w.msgOpen then w
    else Emit(w.(msgIdx := w.nextIdx, nextIdx := w.nextIdx + 1),
              ItemAdded(w.nextIdx, MessageItem([], InProgress))).(msgOpen := true)
  }

  function IndexOf(parts: seq<Kind>, kind: Kind): (i: nat)
    ensures i <= |parts|
  {
    if parts == [] then 0 else if parts[0] == kind then 0 else 1 + IndexOf(parts[1..], kind)
  }

  function EnsurePart(w: Writer, kind: Kind): Writer {
    var w1 := OpenMessage(w);
    if IndexOf(w1.parts, kind) < |w1.parts| then w1
    else Emit(w1.(parts := w1.parts + [kind]), PartAdded(w1.msgIdx, |w1.parts|, kind))
  }

  function TextDelta(w: Writer, kind: Kind, s: string): Writer {
    var w1 := EnsurePart(w, kind);
    var w2 := if kind == Refusal then w1.(refusal := w1.refusal + s) else w1.(text := w1.text + s);
    Emit(w2, Delta(w1.msgIdx, IndexOf(w1.parts, kind), kind, s))
  }

  // ---- Tool calls ----

  function FindCall(calls: seq<Call>, key: int): (i: nat)
    ensures i <= |calls|
    ensures i < |calls| ==> calls[i].key == key
    ensures forall j :: 0 <= j < i ==> calls[j].key != key
  {
    if calls == [] then 0 else if calls[0].key == key then 0 else 1 + FindCall(calls[1..], key)
  }

  predicate Ready(call: Call) {
    call.name != "" && call.id != NoId
  }

  function OpenCall(w: Writer, i: nat): Writer
    requires i < |w.calls|
  {
    var call := w.calls[i].(live := true, begun := true);
    Emit(w.(calls := w.calls[i := call]), ItemAdded(call.outIdx, CallOf(call, InProgress)))
  }

  function SendArguments(w: Writer, i: nat): Writer
    requires i < |w.calls|
  {
    var call := w.calls[i];
    if call.custom || call.sent >= |call.arguments| then w
    else Emit(w.(calls := w.calls[i := call.(sent := |call.arguments|)]),
              ArgumentsDelta(call.outIdx, call.arguments[call.sent..]))
  }

  function FlushOne(w: Writer, i: nat): Writer
    requires i < |w.calls|
  {
    var w1 := if w.calls[i].live then w else OpenCall(w, i);
    SendArguments(w1, i)
  }

  lemma FlushOneShape(w: Writer, i: nat)
    requires i < |w.calls|
    ensures |FlushOne(w, i).calls| == |w.calls|
  {
  }

  /** Opens the calls in order, up to the first one whose name or id is still missing. */
  function FlushFrom(w: Writer, i: nat): Writer
    decreases |w.calls| - i
  {
    if i >= |w.calls| || (!w.calls[i].live && !Ready(w.calls[i])) then w
    else FlushOneShape(w, i); FlushFrom(FlushOne(w, i), i + 1)
  }

  function FlushReady(w: Writer): Writer {
    if w.error.Some? then w else FlushFrom(w, 0)
  }

  function NewCall(w: Writer, key: int): Writer {
    if FindCall(w.calls, key) < |w.calls| then w
    else w.(calls := w.calls + [Call(key, w.nextIdx, NoId, "", "", 0, false, false, false, false)],
            nextIdx := w.nextIdx + 1)
  }

  function SetCall(w: Writer, i: nat, call: Call): Writer
    requires i < |w.calls|
  {
    w.(calls := w.calls[i := call])
  }

  /** What one function delta does to its call: None when the upstream contradicts itself. */
  function NameCall(contract: Contract, call: Call, name: string): Option<Call> {
    if name == "" then Some(call)
    else if call.name != "" && call.name != name then None
    else Some(call.(name := name, custom := name in contract.customTools))
  }

  function ApplyFunction(contract: Contract, w: Writer, i: nat, f: FunctionDelta): Writer
    requires i < |w.calls|
  {
    match NameCall(contract, w.calls[i], f.name)
    case None => Fail(w, "upstream changed a streamed tool name")
    case Some(named) =>
      match f.arguments
      case NoArguments => SetCall(w, i, named)
      case NotAString => Fail(SetCall(w, i, named), "upstream tool arguments must be a JSON string")
      case Arguments(text) => SetCall(w, i, named.(argumentsSeen := true, arguments := named.arguments + text))
  }

  function ApplyItem(contract: Contract, w: Writer, item: ToolItem): Writer {
    match item
    case NotAnObject => Fail(w, "upstream contained an invalid tool call")
    case ToolDelta(key, id, fn) =>
      var w1 := NewCall(w, key);
      var i := FindCall(w1.calls, key);
      NewCallFound(w, key);
      var call := w1.calls[i];
      if id != NoId && call.id != NoId && call.id != id then Fail(w1, "upstream changed a streamed tool call identity")
      else
        var w2 := if id != NoId then SetCall(w1, i, call.(id := id)) else w1;
        match fn
        case None => w2
        case Some(f) => ApplyFunction(contract, w2, i, f)
  }

  lemma {:induction false} FindHit(calls: seq<Call>, j: nat)
    requires j < |calls|
    ensures FindCall(calls, calls[j].key) <= j
  {
    if j > 0 && calls[0].key != calls[j].key {
      FindHit(calls[1..], j - 1);
    }
  }

  lemma NewCallFound(w: Writer, key: int)
    ensures FindCall(NewCall(w, key).calls, key) < |NewCall(w, key).calls|
  {
    var calls := NewCall(w, key).calls;
    if FindCall(w.calls, key) == |w.calls| {
      FindHit(calls, |calls| - 1);
    }
  }

  function ApplyItems(contract: Contract, w: Writer, items: seq<ToolItem>): Writer
    decreases |items|
  {
    if items == [] || w.error.Some? then w else ApplyItems(contract, ApplyItem(contract, w, items[0]), items[1..])
  }

  function ToolCallDelta(contract: Contract, w: Writer, items: seq<ToolItem>): Writer {
    FlushReady(ApplyItems(contract, w, items))
  }

  function LegacyDelta(contract: Contract, w: Writer, f: FunctionDelta): Writer {
    if w.legacyId.None? && f.name == "" && (f.arguments == NoArguments || f.arguments == Arguments("")) then w
    else if w.legacyId.None? && w.calls != [] then Fail(w, "upstream mixed legacy and modern tool calls")
    else
      var w1 := if w.legacyId.None? then w.(legacyId := Some(w.minted), minted := w.minted + 1) else w;
      ToolCallDelta(contract, w1, [ToolDelta(-1, Generated(w1.legacyId.value), Some(f))])
  }

  // ---- Choices, lines, frames ----

  function Spoken(w: Writer, d: ChoiceDelta): Writer {
    var w1 := if d.reasoning != "" then ReasoningDelta(w, d.reasoning) else w;
    var w2 := if d.content != "" then TextDelta(w1, OutputText, d.content) else w1;
    if d.refusal != "" then TextDelta(w2, Refusal, d.refusal) else w2
  }

  /** The flag says that the rest of the chunk is to be ignored. */
  function CalledModern(contract: Contract, w: Writer, tools: ToolField): (Writer, bool) {
    match tools
    case NoTools => (w, false)
    case NotAnArray => (Fail(w, "upstream tool_calls must be an array"), true)
    case Tools(items) =>
      if items == [] then (w, false)
      else if w.legacyId.Some? then (Fail(w, "upstream mixed legacy and modern tool calls"), true)
      else (ToolCallDelta(contract, w, items), false)
  }

  function CalledLegacy(contract: Contract, w: Writer, legacy: LegacyField): (Writer, bool) {
    match legacy
    case NoFunction => (w, false)
    case NotAFunction => (Fail(w, "upstream function_call must be an object"), true)
    case Legacy(f) => (LegacyDelta(contract, w, f), false)
  }

  function HandleChoice(contract: Contract, w: Writer, choice: Choice): (Writer, bool) {
    if choice.Malformed? || !choice.first then (w, false)
    else
      var w1 := if choice.finishReason != "" then w.(finishReason := choice.finishReason) else w;
      match choice.delta
      case None => (w1, false)
      case Some(d) =>
        var (w2, stop) := CalledModern(contract, Spoken(w1, d), d.tools);
        if stop then (w2, true) else CalledLegacy(contract, w2, d.legacy)
  }

  function HandleChoices(contract: Contract, w: Writer, choices: seq<Choice>): Writer
    decreases |choices|
  {
    if choices == [] then w
    else
      var (w1, stop) := HandleChoice(contract, w, choices[0]);
      if stop then w1 else HandleChoices(contract, w1, choices[1..])
  }

  function HandlePayload(contract: Contract, w: Writer, payload: Payload): Writer {
    match payload
    case Garbage => w.(error := Some("invalid upstream event"))
    case Problem(error) => w.(error := Some(error))
    case Chunk(choices) => if w.error.Some? then w else HandleChoices(contract, w, choices)
  }

  function HandleLine(contract: Contract, parse: string -> Payload, w: Writer, raw: string): Writer {
    var line := TrimCarriageReturns(raw);
    if w.sawDone || !(DATA <= line) then w
    else if line[|DATA|..] == "[DONE]" then w.(sawDone := true)
    else HandlePayload(contract, w, parse(line[|DATA|..]))
  }

  function HandleLines(contract: Contract, parse: string -> Payload, w: Writer, frame: string): Writer
    decreases |frame|
  {
    var end := LineEnd(frame, 0);
    var w1 := HandleLine(contract, parse, w, frame[..end]);
    if end == |frame| then w1 else HandleLines(contract, parse, w1, frame[end + 1..])
  }

  function Drain(contract: Contract, parse: string -> Payload, w: Writer, b: string): Stream
    decreases |b|
  {
    var i := FrameEnd(b, 0);
    if i == |b| then Stream(b, w) else Drain(contract, parse, HandleLines(contract, parse, w, b[..i]), b[i + 2..])
  }

  function Feed(contract: Contract, parse: string -> Payload, s: Stream, p: string): Stream {
    Drain(contract, parse, s.writer, s.buf + p)
  }

  // ---- The end of the stream ----

  function Invocations(calls: seq<Call>): (r: seq<Invocation>)
    ensures |r| == |calls|
  {
    seq(|calls|, i requires 0 <= i < |calls| => Invocation(calls[i].name, calls[i].arguments))
  }

  predicate AllValid(contract: Contract, calls: seq<Call>) {
    forall i :: 0 <= i < |calls| ==> CallValid(contract, calls[i].name, calls[i].arguments, calls[i].argumentsSeen)
  }

  /** The checks in the order of the program; the first that fails names the error. */
  function Verdict(contract: Contract, w: Writer): Option<string> {
    if w.error.Some? then w.error
    else if !w.sawDone && w.finishReason == "" then Some("upstream stream ended without a completion marker")
    else if ToolFinish(w.finishReason) && w.calls == [] then Some("upstream ended with a tool finish reason but no tool call")
    else if CutShort(w.finishReason) then None
    else if contract.forbidParallel && |w.calls| > 1 then Some("model returned parallel tool calls")
    else if !AllValid(contract, w.calls) then Some("invalid tool call")
    else if !PolicyAccepts(contract.policy, Invocations(w.calls), w.refusal != "") then Some("tool contract violation")
    else if w.calls == [] && w.refusal == "" && !contract.outputAccepts(w.text) then Some("response format violation")
    else None
  }

  function AssignIds(w: Writer, i: nat): Writer
    decreases |w.calls| - i
  {
    if i >= |w.calls| then w
    else if w.calls[i].id != NoId then AssignIds(w, i + 1)
    else AssignIds(SetCall(w, i, w.calls[i].(id := Generated(w.minted))).(minted := w.minted + 1), i + 1)
  }

  /** CompletionError: decides, and on success names and opens every call. */
  function Check(contract: Contract, w: Writer): Writer {
    match Verdict(contract, w)
    case Some(error) => w.(error := Some(error))
    case None => if CutShort(w.finishReason) then w else FlushReady(AssignIds(w, 0))
  }

  function CloseReasoning(w: Writer): Writer {
    if !w.rsOpen then w
    else
      var w1 := if !w.rsPart then w
                else Emit(Emit(w, TextDone(w.rsIdx, 0, Summary, w.reason)), PartDone(w.rsIdx, 0, Summary, w.reason)).(rsPart := false);
      Emit(w1, ItemDone(w1.rsIdx, ReasoningItem(w1.reason, StatusOf(w1)))).(rsOpen := false)
  }

  function CloseParts(w: Writer, i: nat): Writer
    decreases |w.parts| - i
  {
    if i >= |w.parts| then w
    else
      var kind := w.parts[i];
      CloseParts(Emit(Emit(w, TextDone(w.msgIdx, i, kind, PartText(w, kind))), PartDone(w.msgIdx, i, kind, PartText(w, kind))), i + 1)
  }

  function CloseMessage(w: Writer): Writer {
    if !w.msgOpen then w
    else
      var w1 := CloseParts(w, 0);
      Emit(w1, ItemDone(w1.msgIdx, MessageOf(w1, StatusOf(w1)))).(msgOpen := false)
  }

  /** Only a completed response marks a call done; otherwise its item just stays announced. */
  function CloseCall(w: Writer, i: nat): Writer
    requires i < |w.calls|
  {
    var call := w.calls[i];
    if !call.live then w
    else if StatusOf(w) != Complete then SetCall(w, i, call.(live := false))
    else
      var w1 := if call.custom then w else Emit(w, ArgumentsDone(call.outIdx, call.arguments));
      SetCall(Emit(w1, ItemDone(call.outIdx, CallOf(call, Complete))), i, call.(live := false))
  }

  function CloseCalls(w: Writer, i: nat): Writer
    decreases |w.calls| - i
  {
    if i >= |w.calls| then w else CloseCalls(CloseCall(w, i), i + 1)
  }

  /** Insertion by output index, keeping the order of equal indices. */
  function InsertByIndex(items: seq<(nat, Item)>, item: (nat, Item)): seq<(nat, Item)> {
    if items == [] then [item]
    else if items[|items| - 1].0 <= item.0 then items + [item]
    else InsertByIndex(items[..|items| - 1], item) + [items[|items| - 1]]
  }

  function SortByIndex(items: seq<(nat, Item)>): seq<(nat, Item)> {
    if items == [] then [] else InsertByIndex(SortByIndex(items[..|items| - 1]), items[|items| - 1])
  }

  function CallItems(w: Writer, calls: seq<Call>): seq<(nat, Item)> {
    if calls == [] then []
    else
      var n := |calls| - 1;
      CallItems(w, calls[..n]) + if calls[n].begun then [(calls[n].outIdx, CallOf(calls[n], StatusOf(w)))] else []
  }

  function IndexedItems(w: Writer): seq<(nat, Item)> {
    (if w.rsOpen || w.reason != "" then [(w.rsIdx, ReasoningItem(w.reason, StatusOf(w)))] else [])
    + (if w.msgOpen || w.text != "" || w.refusal != "" then [(w.msgIdx, MessageOf(w, StatusOf(w)))] else [])
    + CallItems(w, w.calls)
  }

  function ItemsOnly(items: seq<(nat, Item)>): (r: seq<Item>)
    ensures |r| == |items|
  {
    seq(|items|, i requires 0 <= i < |items| => items[i].1)
  }

  function OutputItems(w: Writer): seq<Item> {
    ItemsOnly(SortByIndex(IndexedItems(w)))
  }

  function OutcomeOf(w: Writer): Outcome {
    if w.error.Some? then Failed else if CutShort(w.finishReason) then Truncated else Completed
  }

  /** Everything Finish does before the terminal event. */
  function Closed(contract: Contract, w: Writer): Writer {
    var checked := Check(contract, w);
    var decided := checked.(outcome := Some(OutcomeOf(checked)));
    CloseCalls(CloseMessage(CloseReasoning(decided)), 0)
  }

  function Finish(contract: Contract, w: Writer): Writer {
    var closed := Closed(contract, w);
    Emit(closed, Terminal(OutcomeOf(closed), OutputItems(closed)))
  }

  // ---- Runs ----

  /** What the surrounding handler does: pass on upstream bytes, or ask early for the verdict. */
  datatype Op = Bytes(p: string) | Ask

  function Apply(contract: Contract, parse: string -> Payload, s: Stream, op: Op): Stream {
    match op
    case Bytes(p) => Feed(contract, parse, s, p)
    case Ask => s.(writer := Check(contract, s.writer))
  }

  function RunOps(contract: Contract, parse: string -> Payload, ops: seq<Op>): Stream {
    if ops == [] then Stream("", Begin())
    else Apply(contract, parse, RunOps(contract, parse, ops[..|ops| - 1]), ops[|ops| - 1])
  }
}
