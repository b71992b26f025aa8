/** The guarantees to a client of a translated stream, read off its event log alone. */
module ResponsesGuarantees {
  import opened ResponseEvents
  import opened ToolPolicy
  import opened Text
  import opened ResponsesStream
  import opened ResponsesInvariant
  import opened ResponsesSteps
  import opened ResponsesFinish
  import opened ResponsesClosing
  import opened ResponsesOutput
  import opened ResponsesRuns
  import ResponseParts
  import ResponsesParts

  /** Everything a client receives in a run: any bytes in any chunks, any early checks, then the end. */
  function FinalLog(contract: Contract, parse: string -> Payload, ops: seq<Op>): seq<Sent> {
    Finish(contract, RunOps(contract, parse, ops).writer).sent
  }

  predicate EndsWith(log: seq<Sent>, outcome: Outcome, output: seq<Item>) {
    log != [] && log[|log| - 1].event == Terminal(outcome, output)
  }

  // ---- Grammar ----

  /**
   Every run is numbered 0, 1, 2, …, follows the grammar of items and that of their content parts, and
   its only terminal event comes last.
   */
  lemma StreamGrammar(contract: Contract, parse: string -> Payload, ops: seq<Op>)
    ensures var log := FinalLog(contract, parse, ops);
            && |log| >= 3
            && Numbered(log)
            && log[|log| - 1].event.Terminal?
            && forall k :: 0 <= k < |log| ==> WellPlaced(log, k) && ResponseParts.PartPlaced(log, k)
  {
    var w := RunOps(contract, parse, ops).writer;
    var log := FinalLog(contract, parse, ops);
    RunInv(contract, parse, ops);
    FinishLog(contract, w);
    ResponsesParts.PartGrammar(contract, parse, ops);
    hide Inv, RunOps, Finish, Closed, WellPlaced, OutputItems, OutcomeOf, ResponseParts.PartPlaced;
    ParseIsFaithful(log);
    forall k | 0 <= k < |log|
      ensures WellPlaced(log, k)
    {
      ParseMeansGrammar(log, k);
    }
  }

  // ---- The output of a completed response ----

  lemma CompletedState(contract: Contract, w: Writer, log: seq<Sent>, output: seq<Item>)
    requires Inv(contract, w) && log == Finish(contract, w).sent && EndsWith(log, Completed, output)
    ensures var c := Closed(contract, w);
            && OutcomeOf(c) == Completed && output == OutputItems(c)
            && Terminated(c.sent, log, Terminal(Completed, output))
            && Closing(c) && !c.rsOpen && !c.msgOpen && AllBegun(c) && |output| == c.nextIdx
  {
    FinishLog(contract, w);
    hide Inv, Finish, Closed, OutputItems, OutcomeOf, Shut;
    var c := Closed(contract, w);
    assert OutcomeOf(c) == Completed && output == OutputItems(c) by {
      hide Numbered, Executed, DeltaText, ArgumentsText, ParseAll, Open;
    }
    CompletedIsShut(contract, w);
    ShutOutput(contract, w, c);
  }

  lemma ShutOutput(contract: Contract, w: Writer, c: Writer)
    requires Shut(contract, w, c) && AllBegun(c)
    ensures Closing(c) && !c.rsOpen && !c.msgOpen && |OutputItems(c)| == c.nextIdx
  {
    hide Inv, Decided, Grows, Parts, Open, Executed;
    ItemsBySlot(c);
    hide IndexedItems, Slot, Apart;
    if |OutputItems(c)| > 0 {
      OutputBySlot(c, 0);
    } else {
      InsertsAll(IndexedItems(c));
    }
  }

  lemma {:induction false} InsertsOne(items: seq<(nat, Item)>, item: (nat, Item))
    ensures |InsertByIndex(items, item)| == |items| + 1
  {
    if items != [] {
      InsertsOne(items[..|items| - 1], item);
    }
  }

  lemma {:induction false} InsertsAll(items: seq<(nat, Item)>)
    ensures |SortByIndex(items)| == |items|
  {
    if items != [] {
      InsertsAll(items[..|items| - 1]);
      InsertsOne(SortByIndex(items[..|items| - 1]), items[|items| - 1]);
    }
  }

  /** The slot behind an output position, and that its item was delivered as done. */
  lemma OutputSlot(contract: Contract, w: Writer, i: nat) returns (s: int)
    requires Inv(contract, w) && OutcomeOf(Closed(contract, w)) == Completed && i < |OutputItems(Closed(contract, w))|
    ensures var c := Closed(contract, w);
            && Used(c, s) && IndexAt(c, s) == i && OutputItems(c)[i] == ItemAt(c, s)
            && Delivered(c.sent, i, OutputItems(c)[i])
  {
    CompletedIsShut(contract, w);
    var c := Closed(contract, w);
    hide Inv, Closed, Decided, Grows, Parts, Open, Executed, OutputItems, Slot, Apart, Accepted;
    OutputBySlot(c, i);
    s :| Used(c, s) && IndexAt(c, s) == i && OutputItems(c)[i] == ItemAt(c, s);
    SlotDelivered(c, s);
  }

  lemma SlotDelivered(c: Writer, s: int)
    requires Closing(c) && Used(c, s) && Begun(c, s) && !Live(c, s) && StatusOf(c) == Complete
    ensures Delivered(c.sent, IndexAt(c, s), ItemAt(c, s))
  {
    hide Open, ItemAt, Delivered;
    assert Slot(c, s) && Settled(c, s);
  }

  /**
   The output of a completed response lists the indices 0..k-1 in order, none missing: position i
   holds exactly the item whose done event carried output_index i, and no event concerns another index.
   */
  lemma CompletedOutput(contract: Contract, parse: string -> Payload, ops: seq<Op>, output: seq<Item>)
    requires EndsWith(FinalLog(contract, parse, ops), Completed, output)
    ensures var log := FinalLog(contract, parse, ops);
            && (forall i :: 0 <= i < |output| ==> Delivered(log, i, output[i]))
            && (forall k, i: nat :: 0 <= k < |log| && Concerns(log[k].event, i) ==> i < |output|)
  {
    var w := RunOps(contract, parse, ops).writer;
    var log := FinalLog(contract, parse, ops);
    RunInv(contract, parse, ops);
    var c := Closed(contract, w);
    hide RunOps, Inv;
    CompletedState(contract, w, log, output);
    hide Finish, Closed, OutputItems, OutcomeOf, Closing, AllBegun;
    forall i | 0 <= i < |output|
      ensures Delivered(log, i, output[i])
    {
      var s := OutputSlot(contract, w, i);
      TerminatedGrows(c.sent, log, Terminal(Completed, output));
      DeliveredStays(c.sent, log, i, output[i]);
    }
    ConcernsBound(c, log, Terminal(Completed, output));
  }

  lemma TerminatedGrows(sent: seq<Sent>, log: seq<Sent>, e: Event)
    requires Terminated(sent, log, e)
    ensures sent <= log
  {
  }

  lemma ConcernsBound(c: Writer, log: seq<Sent>, e: Event)
    requires Closing(c) && Terminated(c.sent, log, e)
    ensures forall k, i: nat :: 0 <= k < |log| && Concerns(log[k].event, i) ==> i < c.nextIdx
  {
    ParseIsFaithful(log);
    assert OpenMeans(log, Open(c.sent)) by {
      hide ParseAll, Numbered, Executed, DeltaText, ArgumentsText, Closing;
    }
    assert forall i :: i in Open(c.sent) ==> i < c.nextIdx;
    hide ParseAll, Numbered, Executed, DeltaText, ArgumentsText, Closing, Open, Terminated;
  }

  // ---- Tool execution boundary ----

  /** What the request allows of the calls a client is told to execute. */
  predicate Permitted(contract: Contract, calls: seq<Invocation>, refused: bool) {
    && (contract.forbidParallel ==> |calls| <= 1)
    && (forall i :: 0 <= i < |calls| ==> !Blank(calls[i].name) && (Blank(calls[i].arguments) || contract.validJson(calls[i].arguments)))
    && (contract.policy.mode == Never ==> calls == [])
    && (contract.policy.mode == Required ==> calls != [] || refused)
    && (contract.policy.exact ==> |calls| == 1 || (calls == [] && refused))
    && (contract.policy.allowed.Some? ==> forall i :: 0 <= i < |calls| ==> calls[i].name in contract.policy.allowed.value)
    && (forall i :: 0 <= i < |calls| && calls[i].name in contract.policy.schemas ==> contract.policy.schemas[calls[i].name](calls[i].arguments))
  }

  /** No call is marked done unless the response completes and its whole call list satisfies the contract. */
  lemma ToolExecutionBoundary(contract: Contract, parse: string -> Payload, ops: seq<Op>, outcome: Outcome, output: seq<Item>)
    requires EndsWith(FinalLog(contract, parse, ops), outcome, output)
    ensures var log := FinalLog(contract, parse, ops);
            if outcome == Completed then Permitted(contract, Executed(log), DeltaText(log, Refusal) != "") else Executed(log) == []
  {
    var w := RunOps(contract, parse, ops).writer;
    RunInv(contract, parse, ops);
    FinishLog(contract, w);
    var c := Closed(contract, w);
    hide RunOps, Inv, Finish, Closed, OutputItems, Permitted;
    if outcome == Completed {
      CompletedIsShut(contract, w);
      hide Decided, Executed, ParseAll, DeltaText, ArgumentsText, OutcomeOf;
      AcceptedPermits(contract, c);
      ShutTexts(contract, w, c);
    } else {
      NotCompleted(contract, w);
    }
  }

  lemma NotCompleted(contract: Contract, w: Writer)
    requires Inv(contract, w) && OutcomeOf(Closed(contract, w)) != Completed
    ensures Executed(Closed(contract, w).sent) == []
  {
    OutcomeKept(contract, w);
    ClosedShut(contract, w);
    hide Inv, Closed, Decided, Executed;
  }

  lemma ShutTexts(contract: Contract, w: Writer, c: Writer)
    requires Shut(contract, w, c)
    ensures Texts(c) && Parts(c)
  {
  }

  lemma AcceptedPermits(contract: Contract, c: Writer)
    requires Accepted(contract, c)
    ensures Permitted(contract, Invocations(c.calls), c.refusal != "")
  {
    assert AllValid(contract, c.calls);
    assert PolicyAccepts(contract.policy, Invocations(c.calls), c.refusal != "");
    hide Blank;
  }

  /** The started call became this item of the output. */
  predicate Became(call: Call, item: Item) {
    && item.CallItem?
    && call.arguments <= item.arguments
    && (call.begun ==> item.name == call.name && item.callId == call.id)
  }

  /** In a completed run, every call that had started by any moment ends announced and done, keeping its identity. */
  lemma StartedCallsAreDone(contract: Contract, parse: string -> Payload, ops: seq<Op>, more: seq<Op>, output: seq<Item>, j: nat)
    requires EndsWith(FinalLog(contract, parse, ops + more), Completed, output)
    requires j < |RunOps(contract, parse, ops).writer.calls|
    ensures var call := RunOps(contract, parse, ops).writer.calls[j];
            && call.outIdx < |output|
            && Became(call, output[call.outIdx])
            && Delivered(FinalLog(contract, parse, ops + more), call.outIdx, output[call.outIdx])
  {
    hide *;
    RunGrows(contract, parse, ops, more);
    RunInv(contract, parse, ops + more);
    CompletedOutput(contract, parse, ops + more, output);
    FinalLogIs(contract, parse, ops + more);
    EarlyCall(contract, RunOps(contract, parse, ops).writer, RunOps(contract, parse, ops + more).writer,
              FinalLog(contract, parse, ops + more), output, j);
  }

  lemma FinalLogIs(contract: Contract, parse: string -> Payload, ops: seq<Op>)
    ensures FinalLog(contract, parse, ops) == Finish(contract, RunOps(contract, parse, ops).writer).sent
  {
  }

  lemma EarlyCall(contract: Contract, early: Writer, w: Writer, log: seq<Sent>, output: seq<Item>, j: nat)
    requires Inv(contract, w) && Grows(early, w) && j < |early.calls|
    requires log == Finish(contract, w).sent && EndsWith(log, Completed, output)
    ensures early.calls[j].outIdx < |output| && Became(early.calls[j], output[early.calls[j].outIdx])
  {
    hide *;
    var c := Closed(contract, w);
    CompletedState(contract, w, log, output);
    CompletedIsShut(contract, w);
    GrowsFurther(contract, early, w, c, j);
    CallSlot(contract, w, j);
    GrownBecame(early.calls[j], c.calls[j]);
  }

  lemma GrownBecame(call: Call, later: Call)
    requires CallGrows(call, later)
    ensures later.outIdx == call.outIdx && Became(call, CallOf(later, Complete))
  {
  }

  lemma GrowsFurther(contract: Contract, early: Writer, w: Writer, c: Writer, j: nat)
    requires Grows(early, w) && Shut(contract, w, c) && j < |early.calls|
    ensures j < |c.calls| && CallGrows(early.calls[j], c.calls[j])
  {
    GrowsTransitive(early, w, c);
  }

  lemma CallSlot(contract: Contract, w: Writer, j: nat)
    requires Inv(contract, w) && OutcomeOf(Closed(contract, w)) == Completed && j < |Closed(contract, w).calls|
    requires Closing(Closed(contract, w)) && |OutputItems(Closed(contract, w))| == Closed(contract, w).nextIdx
    ensures var c := Closed(contract, w);
            c.calls[j].outIdx < |OutputItems(c)| && OutputItems(c)[c.calls[j].outIdx] == CallOf(c.calls[j], Complete)
  {
    hide Inv, Closed, OutputItems, Open, OutcomeOf, Closing, StatusOf, Apart;
    var c := Closed(contract, w);
    CompletedIsComplete(contract, w);
    ClosingLogged(c);
    CallOwns(c, j);
    var s := OutputSlot(contract, w, c.calls[j].outIdx);
    SlotsApart(c, s, j);
  }

  lemma CallOwns(c: Writer, j: nat)
    requires Slots(c) && j < |c.calls|
    ensures Used(c, j) && IndexAt(c, j) == c.calls[j].outIdx < c.nextIdx && ItemAt(c, j) == CallOf(c.calls[j], StatusOf(c))
  {
    hide Open, StatusOf;
    assert Used(c, j) && Slot(c, j);
  }

  lemma SlotsApart(c: Writer, s: int, t: int)
    requires Slots(c) && Used(c, s) && Used(c, t) && IndexAt(c, s) == IndexAt(c, t)
    ensures s == t
  {
    hide Open;
    assert Apart(c, s, t);
  }

  lemma CompletedIsComplete(contract: Contract, w: Writer)
    requires Inv(contract, w) && OutcomeOf(Closed(contract, w)) == Completed
    ensures StatusOf(Closed(contract, w)) == Complete
  {
    CompletedIsShut(contract, w);
  }

  // ---- Exact reconstruction ----

  /** The item is exactly what the deltas of the log add up to. */
  predicate Reconstructed(log: seq<Sent>, index: nat, item: Item) {
    match item
    case ReasoningItem(text, _) => text == DeltaText(log, Summary)
    case MessageItem(content, _) =>
      && (forall p :: 0 <= p < |content| ==> content[p].1 == DeltaText(log, content[p].0))
      && (forall kind :: DeltaText(log, kind) != "" && kind != Summary ==> (kind, DeltaText(log, kind)) in content)
    case CallItem(_, _, arguments, custom, _) => custom || arguments == ArgumentsText(log, index)
  }

  lemma CompletedReconstructs(contract: Contract, parse: string -> Payload, ops: seq<Op>, output: seq<Item>, i: nat)
    requires EndsWith(FinalLog(contract, parse, ops), Completed, output) && i < |output|
    ensures Reconstructed(FinalLog(contract, parse, ops), i, output[i])
  {
    var w := RunOps(contract, parse, ops).writer;
    var log := FinalLog(contract, parse, ops);
    RunInv(contract, parse, ops);
    var c := Closed(contract, w);
    hide RunOps, Inv;
    CompletedState(contract, w, log, output);
    hide Finish, Closed, OutputItems, OutcomeOf;
    var s := OutputSlot(contract, w, i);
    CompletedIsShut(contract, w);
    ShutTexts(contract, w, c);
    hide Closing, AllBegun, Shut, Parts, Texts, Reconstructed, ItemAt;
    SlotReconstructs(c, s);
    SameTexts(c.sent, log, Terminal(Completed, output), i, ItemAt(c, s));
  }

  lemma SameTexts(sent: seq<Sent>, log: seq<Sent>, e: Event, i: nat, item: Item)
    requires Terminated(sent, log, e) && Reconstructed(sent, i, item)
    ensures Reconstructed(log, i, item)
  {
    hide DeltaText, ArgumentsText, Executed, ParseAll, Numbered, Open;
  }

  lemma SlotReconstructs(c: Writer, s: int)
    requires Texts(c) && Parts(c) && Used(c, s) && StatusOf(c) == Complete
    requires forall j :: 0 <= j < |c.calls| ==> c.calls[j].custom || c.calls[j].sent >= |c.calls[j].arguments|
    ensures Reconstructed(c.sent, IndexAt(c, s), ItemAt(c, s))
  {
    hide DeltaText, ArgumentsText, StatusOf;
    if s == MESSAGE {
      forall kind | DeltaText(c.sent, kind) != "" && kind != Summary
        ensures (kind, DeltaText(c.sent, kind)) in MessageContent(c)
      {
        var p :| 0 <= p < |c.parts| && c.parts[p] == kind;
        assert MessageContent(c)[p] == (kind, PartText(c, kind));
      }
    } else if s >= 0 {
      assert Passed(c.sent, c.calls[s]);
    }
  }

  // ---- Whole arguments ----

  /** Event k tells the whole arguments of the item with this index. */
  predicate TellsAt(log: seq<Sent>, k: int, i: nat) {
    0 <= k < |log| && log[k].event.ArgumentsDone? && log[k].event.index == i
  }

  lemma {:induction false} HeardStays(log: seq<Sent>, d: nat, n: nat, i: nat)
    requires d <= n <= |log| && forall k :: d <= k < n ==> !TellsAt(log, k, i)
    ensures ResponseParts.Heard(log[..n], i) == ResponseParts.Heard(log[..d], i)
    decreases n
  {
    if d < n {
      HeardStays(log, d, n - 1, i);
      assert log[..n][..n - 1] == log[..n - 1] && !TellsAt(log, n - 1, i);
    }
  }

  lemma {:induction false} HeardSome(log: seq<Sent>, k: nat, n: nat, i: nat)
    requires k < n <= |log| && TellsAt(log, k, i)
    ensures ResponseParts.Heard(log[..n], i) != []
    decreases n
  {
    assert log[..n][..n - 1] == log[..n - 1];
    if k < n - 1 {
      HeardSome(log, k, n - 1, i);
    }
  }

  lemma DoneIsLast(log: seq<Sent>, d: nat, i: nat, item: Item)
    requires d < |log| && log[d].event == ItemDone(i, item) && forall k :: 0 <= k < |log| ==> WellPlaced(log, k)
    ensures forall k :: d <= k < |log| ==> !TellsAt(log, k, i)
  {
    forall k | d <= k < |log|
      ensures !TellsAt(log, k, i)
    {
      assert WellPlaced(log, k) && DoneAt(log, d, i);
    }
  }

  /** What a client was told about the arguments of a delivered item: just what belongs to it. */
  lemma DeliveredHeard(log: seq<Sent>, i: nat, item: Item)
    requires Delivered(log, i, item) && forall k :: 0 <= k < |log| ==> WellPlaced(log, k) && ResponseParts.PartPlaced(log, k)
    ensures ResponseParts.Heard(log, i) == ResponseParts.AnswersOf(item)
  {
    var d :| 0 <= d < |log| && log[d].event == ItemDone(i, item);
    assert ResponseParts.PartPlaced(log, d);
    DoneIsLast(log, d, i, item);
    HeardStays(log, d, |log|, i);
    assert log[..|log|] == log;
    hide WellPlaced;
  }

  lemma NothingHeard(log: seq<Sent>, outcome: Outcome, output: seq<Item>, i: nat)
    requires EndsWith(log, outcome, output) && outcome != Completed && ResponseParts.PartPlaced(log, |log| - 1)
    ensures ResponseParts.Heard(log, i) == []
  {
    var n := |log| - 1;
    assert !TellsAt(log, n, i);
    HeardStays(log, n, |log|, i);
    assert log[..|log|] == log;
  }

  /**
   Arguments of calls: in a completed response every call that takes no custom input is told its whole
   arguments exactly once, as its deltas add up and after all of them; nothing else is told, and nothing at
   all in a response that does not complete.
   */
  lemma ArgumentsToldOnce(contract: Contract, parse: string -> Payload, ops: seq<Op>, outcome: Outcome, output: seq<Item>, i: nat)
    requires EndsWith(FinalLog(contract, parse, ops), outcome, output)
    ensures var log := FinalLog(contract, parse, ops);
            && ResponseParts.Heard(log, i) == (if outcome == Completed && i < |output| && output[i].CallItem? && !output[i].custom
                                               then [ArgumentsText(log, i)] else [])
            && forall k, m :: TellsAt(log, k, i) && 0 <= m < |log| && log[m].event.ArgumentsDelta? && log[m].event.index == i ==> m < k
  {
    var log := FinalLog(contract, parse, ops);
    StreamGrammar(contract, parse, ops);
    hide FinalLog, WellPlaced, Delivered;
    forall k, m | TellsAt(log, k, i) && 0 <= m < |log| && log[m].event.ArgumentsDelta? && log[m].event.index == i
      ensures m < k
    {
      assert ResponseParts.PartPlaced(log, m);
      if k < m {
        HeardSome(log, k, m, i);
      }
    }
    hide ResponseParts.PartPlaced;
    if outcome != Completed {
      NothingHeard(log, outcome, output, i);
    } else {
      CompletedOutput(contract, parse, ops, output);
      if i < |output| {
        CompletedReconstructs(contract, parse, ops, output, i);
        DeliveredHeard(log, i, output[i]);
      } else {
        assert forall k :: 0 <= k < |log| ==> TellsAt(log, k, i) ==> Concerns(log[k].event, i);
        HeardStays(log, 0, |log|, i);
        assert log[..|log|] == log && log[..0] == [];
      }
    }
  }

  // ---- Asking again, cutting differently ----

  /** In any reachable state, a second check gives the same answer and sends nothing. */
  lemma VerdictIsStable(contract: Contract, parse: string -> Payload, ops: seq<Op>)
    ensures RunOps(contract, parse, ops + [Ask, Ask]) == RunOps(contract, parse, ops + [Ask])
  {
    hide *;
    var s := RunOps(contract, parse, ops);
    RunInv(contract, parse, ops);
    InvLive(contract, s.writer);
    CheckTwice(contract, s.writer);
    RunOne(contract, parse, ops, Ask);
    RunOne(contract, parse, ops + [Ask], Ask);
    ApplyAsk(contract, parse, s);
    ApplyAsk(contract, parse, RunOps(contract, parse, ops + [Ask]));
    assert ops + [Ask, Ask] == ops + [Ask] + [Ask];
  }

  lemma RunOne(contract: Contract, parse: string -> Payload, ops: seq<Op>, op: Op)
    ensures RunOps(contract, parse, ops + [op]) == Apply(contract, parse, RunOps(contract, parse, ops), op)
  {
    hide Apply;
    assert (ops + [op])[..|ops|] == ops;
  }

  lemma ApplyAsk(contract: Contract, parse: string -> Payload, s: Stream)
    ensures Apply(contract, parse, s, Ask) == s.(writer := Check(contract, s.writer))
  {
    hide Check;
  }

  lemma {:induction false} DrainSplit(contract: Contract, parse: string -> Payload, w: Writer, p: string, q: string)
    ensures var s := Drain(contract, parse, w, p); Drain(contract, parse, s.writer, s.buf + q) == Drain(contract, parse, w, p + q)
    decreases |p|
  {
    hide HandleLines;
    var i := FrameEnd(p, 0);
    if i < |p| {
      FirstFrame(p, q, 0);
      assert (p + q)[..i] == p[..i];
      assert (p + q)[i + 2..] == p[i + 2..] + q;
      DrainSplit(contract, parse, HandleLines(contract, parse, w, p[..i]), p[i + 2..], q);
    }
  }

  /** Cutting bytes into two writes changes nothing. */
  lemma FeedSplit(contract: Contract, parse: string -> Payload, s: Stream, p: string, q: string)
    ensures Feed(contract, parse, Feed(contract, parse, s, p), q) == Feed(contract, parse, s, p + q)
  {
    hide Drain;
    DrainSplit(contract, parse, s.writer, s.buf + p, q);
    assert s.buf + p + q == s.buf + (p + q);
  }

  function Writes(chunks: seq<string>): (ops: seq<Op>)
    ensures |ops| == |chunks|
  {
    seq(|chunks|, i requires 0 <= i < |chunks| => Bytes(chunks[i]))
  }

  /** However the upstream bytes are cut into writes, the state and every event are the same as for one write. */
  lemma {:induction false} ChunkIndependence(contract: Contract, parse: string -> Payload, chunks: seq<string>)
    ensures RunOps(contract, parse, Writes(chunks)) == RunOps(contract, parse, [Bytes(Concat(chunks))])
  {
    hide Drain;
    var start := RunOps(contract, parse, []);
    assert RunOps(contract, parse, [Bytes(Concat(chunks))]) == Feed(contract, parse, start, Concat(chunks));
    if chunks == [] {
      assert Writes(chunks) == [] && start.buf + "" == "";
      EmptyFeed(contract, parse, start.writer);
    } else {
      var n := |chunks| - 1;
      ChunkIndependence(contract, parse, chunks[..n]);
      assert Writes(chunks)[..n] == Writes(chunks[..n]);
      assert RunOps(contract, parse, [Bytes(Concat(chunks[..n]))]) == Feed(contract, parse, start, Concat(chunks[..n]));
      FeedSplit(contract, parse, start, Concat(chunks[..n]), chunks[n]);
    }
  }

  lemma EmptyFeed(contract: Contract, parse: string -> Payload, w: Writer)
    ensures Drain(contract, parse, w, "") == Stream("", w)
  {
  }

  /** Hence two ways to cut the same bytes give a client the same log. */
  lemma SameBytesSameLog(contract: Contract, parse: string -> Payload, chunks: seq<string>, others: seq<string>)
    requires Concat(chunks) == Concat(others)
    ensures FinalLog(contract, parse, Writes(chunks)) == FinalLog(contract, parse, Writes(others))
  {
    ChunkIndependence(contract, parse, chunks);
    ChunkIndependence(contract, parse, others);
  }
}
