/**
 What a client of a translated stream can rely on, for every run: any bytes in any chunks, any
 number of early checks, any contract and any decoder, then the end of the stream.
 */
module ResponsesRuns {
  import opened Wrappers
  import opened ResponseEvents
  import opened ToolPolicy
  import opened ResponsesStream
  import opened ResponsesInvariant
  import opened ResponsesSteps
  import opened ResponsesFinish
  import opened ResponsesClosing
  import opened ResponsesOutput

  // ---- From the running writer to the closed one ----

  function Decided(contract: Contract, w: Writer): Writer {
    var checked := Check(contract, w);
    checked.(outcome := Some(OutcomeOf(checked)))
  }

  ghost predicate Decisive(d: Writer) {
    && Closing(d) && LiveFrom(d, 0)
    && d.rsOpen == d.rsPart == (d.reason != "")
    && d.msgOpen == (d.text != "" || d.refusal != "")
    && Executed(d.sent) == []
  }

  lemma DecidedCloses(contract: Contract, w: Writer)
    requires Inv(contract, w)
    ensures var d := Decided(contract, w);
            && Decisive(d)
            && Parts(d)
            && Grows(w, d)
  {
    CheckKeeps(contract, w);
    var checked := Check(contract, w);
    var d := Decided(contract, w);
    hide Check, ParseAll, DeltaText, ArgumentsText, Numbered, Executed, Open;
    RunningSettles(contract, checked, d);
  }

  lemma RunningSettles(contract: Contract, w: Writer, d: Writer)
    requires Inv(contract, w) && d == w.(outcome := d.outcome) && d.outcome.Some?
    ensures Closing(d)
  {
    hide ParseAll, DeltaText, ArgumentsText, Numbered, Executed, Open, StatusOf, Delivered, ItemAt;
    forall s | Used(d, s)
      ensures Slot(d, s) && Settled(d, s)
    {
      assert Used(w, s) && Slot(w, s);
    }
    forall s, t | Used(d, s) && Used(d, t)
      ensures Apart(d, s, t)
    {
      assert Apart(w, s, t);
    }
    assert forall j :: 0 <= j < |w.calls| ==> Passed(w.sent, w.calls[j]) ==> Passed(d.sent, d.calls[j]);
  }

  lemma ReasoningStep(d: Writer)
    requires Closing(d) && d.rsOpen == d.rsPart == (d.reason != "")
    ensures var c := CloseReasoning(d);
            && Closing(c) && SameButLive(d, c) && !c.rsOpen && c.msgOpen == d.msgOpen && c.calls == d.calls
            && Executed(c.sent) == Executed(d.sent) && d.sent <= c.sent
  {
    if d.rsOpen {
      ClosingLogged(d);
      LoggedOk(d);
      hide Closing, Slots, LogOk;
      ReasoningCloses(d);
      hide CloseReasoning;
      ClosesKeeps(d, CloseReasoning(d), REASONING, []);
      ToldKeeps(d, CloseReasoning(d), REASONING);
    } else {
      SameButLiveSelf(d);
    }
  }

  lemma ClosingLogged(d: Writer)
    requires Closing(d)
    ensures Logged(d) && Slots(d)
  {
  }

  lemma ToldKeeps(d: Writer, c: Writer, s: int)
    requires Closes(d, c, s, [])
    ensures Executed(c.sent) == Executed(d.sent) && d.sent <= c.sent && SameButLive(d, c)
    ensures !Used(c, s) || !Live(c, s)
  {
    hide Executed, DeltaText, ArgumentsText, ParseAll, Numbered, Open, Delivered;
    assert Executed(d.sent) + [] == Executed(d.sent);
  }

  lemma MessageStep(d: Writer)
    requires Closing(d) && !d.rsOpen && d.msgOpen == (d.text != "" || d.refusal != "")
    ensures var c := CloseMessage(d);
            && Closing(c) && SameButLive(d, c) && !c.rsOpen && !c.msgOpen && c.calls == d.calls
            && Executed(c.sent) == Executed(d.sent) && d.sent <= c.sent
  {
    if d.msgOpen {
      ClosingLogged(d);
      LoggedOk(d);
      hide Closing, Slots, LogOk;
      MessageCloses(d);
      hide CloseMessage;
      ClosesKeeps(d, CloseMessage(d), MESSAGE, []);
      ToldKeeps(d, CloseMessage(d), MESSAGE);
    } else {
      SameButLiveSelf(d);
    }
  }

  /** The state just before the terminal event. */
  ghost predicate Shut(contract: Contract, w: Writer, c: Writer) {
    var d := Decided(contract, w);
    && Closing(c) && Parts(c) && SameButLive(d, c) && Grows(w, c)
    && !c.rsOpen && !c.msgOpen
    && (forall j :: 0 <= j < |c.calls| ==> !c.calls[j].live)
    && (StatusOf(d) != Complete ==> Executed(c.sent) == [])
    && (StatusOf(d) == Complete && AllBegun(d) ==> Executed(c.sent) == Invocations(d.calls))
  }

  ghost predicate AllClosed(d: Writer, c: Writer) {
    && Closing(c) && SameButLive(d, c) && d.sent <= c.sent
    && !c.rsOpen && !c.msgOpen
    && (forall j :: 0 <= j < |c.calls| ==> !c.calls[j].live)
    && (StatusOf(d) != Complete ==> Executed(c.sent) == [])
    && (StatusOf(d) == Complete && AllBegun(d) ==> Executed(c.sent) == Invocations(d.calls))
  }

  lemma CloseAll(d: Writer)
    requires Decisive(d)
    ensures AllClosed(d, CloseCalls(CloseMessage(CloseReasoning(d)), 0))
  {
    hide Closing, Executed, CloseReasoning, CloseMessage, CloseCalls, SameCallButLive, Open;
    var c1 := CloseReasoning(d);
    ReasoningStep(d);
    var c2 := CloseMessage(c1);
    assert c1.text == d.text && c1.refusal == d.refusal;
    MessageStep(c1);
    SameButLiveChain(d, c1, c2);
    hide SameButLive, StatusOf;
    var c3 := CloseCalls(c2, 0);
    CloseCallsKeeps(c2, 0);
    SameButLiveChain(d, c2, c3);
    InvocationsFromAll(c2.calls, 0);
    assert Invocations(c2.calls)[0..] == Invocations(c2.calls);
    SameSizes(c2, c3);
  }

  lemma SameSizes(w: Writer, w': Writer)
    requires SameButLive(w, w')
    ensures |w'.calls| == |w.calls|
  {
  }

  lemma ClosedShut(contract: Contract, w: Writer)
    requires Inv(contract, w)
    ensures Shut(contract, w, Closed(contract, w))
  {
    var d := Decided(contract, w);
    DecidedCloses(contract, w);
    hide Decided, Inv, Closing, Executed, CloseReasoning, CloseMessage, CloseCalls, Grows, Parts, LiveFrom, SameButLive;
    CloseAll(d);
    ClosedInSteps(contract, w);
    var c := Closed(contract, w);
    GrowsOn(w, d, c);
    PartsOn(d, c);
  }

  lemma ClosedInSteps(contract: Contract, w: Writer)
    ensures Closed(contract, w) == CloseCalls(CloseMessage(CloseReasoning(Decided(contract, w))), 0)
  {
    hide Check, CloseReasoning, CloseMessage, CloseCalls;
  }

  lemma GrowsOn(w: Writer, d: Writer, c: Writer)
    requires Grows(w, d) && SameButLive(d, c) && d.sent <= c.sent
    ensures Grows(w, c)
  {
    forall j | 0 <= j < |w.calls|
      ensures CallGrows(w.calls[j], c.calls[j])
    {
      assert CallGrows(w.calls[j], d.calls[j]) && SameCallButLive(d.calls[j], c.calls[j]);
    }
  }

  lemma PartsOn(d: Writer, c: Writer)
    requires Parts(d) && SameButLive(d, c)
    ensures Parts(c)
  {
  }

  // ---- The terminal event ----

  ghost predicate Terminated(sent: seq<Sent>, log: seq<Sent>, e: Event) {
    && sent <= log && |log| == |sent| + 1
    && log[|sent|].event == e
    && Numbered(log)
    && ParseAll(log) == Ended(Open(sent))
    && Executed(log) == Executed(sent)
    && (forall k :: DeltaText(log, k) == DeltaText(sent, k))
    && (forall i :: ArgumentsText(log, i) == ArgumentsText(sent, i))
  }

  lemma TerminalLog(c: Writer, e: Event)
    requires Logged(c) && e.Terminal?
    ensures Terminated(c.sent, Emit(c, e).sent, e)
  {
    EmitEffect(c, e);
    EmitFields(c, e);
    hide DeltaText, ArgumentsText, Executed, ParseAll, Numbered, Emit;
  }

  lemma FinishLog(contract: Contract, w: Writer)
    requires Inv(contract, w)
    ensures var c := Closed(contract, w);
            Terminated(c.sent, Finish(contract, w).sent, Terminal(OutcomeOf(c), OutputItems(c)))
  {
    ClosedShut(contract, w);
    var c := Closed(contract, w);
    hide Closed, Decided, Inv, OutputItems, Closing, SameButLive, Grows, Parts, Terminated, Emit, OutcomeOf, Executed;
    ClosingLogged(c);
    TerminalLog(c, Terminal(OutcomeOf(c), OutputItems(c)));
  }

  lemma OutcomeKept(contract: Contract, w: Writer)
    requires Inv(contract, w)
    ensures var d, c := Decided(contract, w), Closed(contract, w);
            && OutcomeOf(c) == OutcomeOf(d)
            && d.outcome == Some(OutcomeOf(d))
            && (StatusOf(d) == Complete <==> OutcomeOf(d) == Completed)
            && StatusOf(c) == StatusOf(d)
  {
    ClosedShut(contract, w);
    DecidedOutcome(contract, w);
    hide Closed, Decided, Inv, Closing, Grows, Parts, Executed, StatusOf;
    SameOutcome(Decided(contract, w), Closed(contract, w));
  }

  lemma DecidedOutcome(contract: Contract, w: Writer)
    ensures var d := Decided(contract, w); d.outcome == Some(OutcomeOf(d)) && (StatusOf(d) == Complete <==> OutcomeOf(d) == Completed)
  {
    hide Check;
  }

  lemma SameOutcome(d: Writer, c: Writer)
    requires SameButLive(d, c)
    ensures OutcomeOf(c) == OutcomeOf(d) && StatusOf(c) == StatusOf(d)
  {
  }

  lemma InvLive(contract: Contract, w: Writer)
    requires Inv(contract, w)
    ensures LiveIfBegun(w)
  {
    hide Logged, Slots, Texts, Parts, Keyed, Open, Executed;
  }

  /** A run can only complete when its check accepts. */
  lemma CompletedIsAccepted(contract: Contract, w: Writer)
    requires Inv(contract, w) && OutcomeOf(Decided(contract, w)) == Completed
    ensures var d := Decided(contract, w);
            && Accepted(contract, d)
            && (forall j :: 0 <= j < |d.calls| ==> Flushed(d.calls[j]))
  {
    InvLive(contract, w);
    hide Inv;
    if Accepted(contract, w) {
      CheckAccepts(contract, w);
      VerdictSame(contract, Check(contract, w), Decided(contract, w)) by { hide Check, Verdict; }
      hide Check, Verdict;
    } else {
      RejectedFails(contract, w);
    }
  }

  lemma RejectedFails(contract: Contract, w: Writer)
    requires !Accepted(contract, w)
    ensures OutcomeOf(Decided(contract, w)) != Completed
  {
    hide Verdict;
  }

  lemma CompletedIsShut(contract: Contract, w: Writer)
    requires Inv(contract, w) && OutcomeOf(Closed(contract, w)) == Completed
    ensures var c := Closed(contract, w);
            && Shut(contract, w, c)
            && StatusOf(c) == Complete
            && AllBegun(c)
            && (forall j :: 0 <= j < |c.calls| ==> c.calls[j].custom || c.calls[j].sent >= |c.calls[j].arguments|)
            && Executed(c.sent) == Invocations(c.calls)
            && Accepted(contract, c)
  {
    var d, c := Decided(contract, w), Closed(contract, w);
    OutcomeKept(contract, w);
    CompletedIsAccepted(contract, w);
    ClosedShut(contract, w);
    hide Inv, Closed, Decided, Closing, Executed, Grows, Parts, OutcomeOf, Verdict, Accepted, Flushed, SameButLive, StatusOf, Invocations;
    FlushedBegun(d);
    ButLiveKeeps(contract, d, c);
  }

  lemma FlushedBegun(d: Writer)
    requires forall j :: 0 <= j < |d.calls| ==> Flushed(d.calls[j])
    ensures AllBegun(d)
  {
  }

  lemma ButLiveKeeps(contract: Contract, d: Writer, c: Writer)
    requires SameButLive(d, c) && Accepted(contract, d) && forall j :: 0 <= j < |d.calls| ==> Flushed(d.calls[j])
    ensures AllBegun(c) && Accepted(contract, c) && Invocations(c.calls) == Invocations(d.calls)
    ensures forall j :: 0 <= j < |c.calls| ==> c.calls[j].custom || c.calls[j].sent >= |c.calls[j].arguments|
  {
    hide Verdict, Accepted, Invocations;
    assert forall j :: 0 <= j < |d.calls| ==> SameCallButLive(d.calls[j], c.calls[j]) && Flushed(d.calls[j]);
    InvocationsSame(d, c);
    VerdictSame(contract, d, c);
    AcceptedSame(contract, d, c);
  }

  lemma AcceptedSame(contract: Contract, d: Writer, c: Writer)
    requires Accepted(contract, d) && Verdict(contract, c) == Verdict(contract, d) && c.finishReason == d.finishReason
    ensures Accepted(contract, c)
  {
  }
}
