/** How a stream ends: what the check guarantees, and how items are closed before the terminal event. */
module ResponsesFinish {
  import opened ResponseEvents
  import opened ToolPolicy
  import opened Text
  import opened ResponsesStream

  // ---- After a check that accepts, every call is announced and passed on ----

  predicate Flushed(call: Call) {
    call.begun && call.live && (call.custom || call.sent >= |call.arguments|)
  }

  predicate SameContent(before: Call, after: Call) {
    after.name == before.name && after.arguments == before.arguments && after.argumentsSeen == before.argumentsSeen
  }

  predicate SameCalls(w: Writer, w': Writer) {
    && |w'.calls| == |w.calls|
    && forall j :: 0 <= j < |w.calls| ==> SameContent(w.calls[j], w'.calls[j])
  }

  predicate SameVerdictFields(w: Writer, w': Writer) {
    && SameCalls(w, w')
    && w'.error == w.error && w'.sawDone == w.sawDone && w'.finishReason == w.finishReason
    && w'.refusal == w.refusal && w'.text == w.text
  }

  lemma {:induction false} AssignIdsNames(w: Writer, i: nat)
    ensures SameVerdictFields(w, AssignIds(w, i))
    ensures forall j :: i <= j < |w.calls| ==> AssignIds(w, i).calls[j].id != NoId
    ensures forall j :: 0 <= j < i && j < |w.calls| ==> AssignIds(w, i).calls[j] == w.calls[j]
    ensures (forall j :: i <= j < |w.calls| ==> w.calls[j].id != NoId) ==> AssignIds(w, i) == w
    decreases |w.calls| - i
  {
    if i < |w.calls| {
      if w.calls[i].id != NoId {
        AssignIdsNames(w, i + 1);
      } else {
        AssignIdsNames(SetCall(w, i, w.calls[i].(id := Generated(w.minted))).(minted := w.minted + 1), i + 1);
      }
    }
  }

  function FlushedCall(call: Call): Call {
    call.(live := true, begun := true, sent := if call.custom || call.sent >= |call.arguments| then call.sent else |call.arguments|)
  }

  lemma FlushOneFields(w: Writer, i: nat)
    requires i < |w.calls| && w.calls[i].live == w.calls[i].begun
    ensures var w' := FlushOne(w, i);
            && w' == w.(sent := w'.sent, nextSeq := w'.nextSeq, calls := w.calls[i := FlushedCall(w.calls[i])])
            && (Flushed(w.calls[i]) ==> w' == w)
  {
    hide Emit;
    var call := w.calls[i].(live := true, begun := true);
    var w0 := w.(calls := w.calls[i := call]);
    var w1 := if w.calls[i].live then w else OpenCall(w, i);
    EmitFields(w0, ItemAdded(call.outIdx, CallOf(call, InProgress)));
    assert w1.calls == w0.calls;
    if call.sent < |call.arguments| {
      EmitFields(w1.(calls := w1.calls[i := call.(sent := |call.arguments|)]), ArgumentsDelta(call.outIdx, call.arguments[call.sent..]));
    }
  }

  lemma FlushOneNames(w: Writer, i: nat)
    requires i < |w.calls| && w.calls[i].live == w.calls[i].begun
    ensures var w' := FlushOne(w, i);
            && SameVerdictFields(w, w')
            && Flushed(w'.calls[i]) && w'.calls[i].id == w.calls[i].id
            && (forall j :: 0 <= j < |w.calls| && j != i ==> w'.calls[j] == w.calls[j])
            && (Flushed(w.calls[i]) ==> w' == w)
  {
    FlushOneFields(w, i);
    hide FlushOne;
  }

  predicate LiveIfBegun(w: Writer) {
    forall j :: 0 <= j < |w.calls| ==> w.calls[j].live == w.calls[j].begun
  }

  lemma {:induction false} FlushFromNames(w: Writer, i: nat)
    requires LiveIfBegun(w)
    requires forall j :: i <= j < |w.calls| ==> Ready(w.calls[j])
    requires forall j :: 0 <= j < i && j < |w.calls| ==> Flushed(w.calls[j])
    ensures SameVerdictFields(w, FlushFrom(w, i))
    ensures forall j :: 0 <= j < |w.calls| ==> Flushed(FlushFrom(w, i).calls[j])
    ensures forall j :: 0 <= j < |w.calls| ==> FlushFrom(w, i).calls[j].id == w.calls[j].id
    decreases |w.calls| - i
  {
    if i < |w.calls| {
      FlushOneNames(w, i);
      hide FlushOne;
      FlushFromNames(FlushOne(w, i), i + 1);
    }
  }

  lemma {:induction false} FlushFromIdle(w: Writer, i: nat)
    requires forall j :: i <= j < |w.calls| ==> Flushed(w.calls[j])
    ensures FlushFrom(w, i) == w
    decreases |w.calls| - i
  {
    if i < |w.calls| {
      FlushOneNames(w, i);
      FlushFromIdle(w, i + 1);
    }
  }

  lemma InvocationsSame(w: Writer, w': Writer)
    requires SameCalls(w, w')
    ensures Invocations(w'.calls) == Invocations(w.calls)
  {
    forall j | 0 <= j < |w.calls|
      ensures Invocations(w'.calls)[j] == Invocations(w.calls)[j]
    {
      assert SameContent(w.calls[j], w'.calls[j]);
    }
  }

  lemma VerdictSame(contract: Contract, w: Writer, w': Writer)
    requires SameVerdictFields(w, w')
    ensures Verdict(contract, w') == Verdict(contract, w)
    ensures AllValid(contract, w'.calls) == AllValid(contract, w.calls)
  {
    InvocationsSame(w, w');
    hide PolicyAccepts, CallValid, Invocations;
    assert AllValid(contract, w.calls) == AllValid(contract, w'.calls) by {
      assert forall j :: 0 <= j < |w.calls| ==> SameContent(w.calls[j], w'.calls[j]);
    }
  }

  predicate Accepted(contract: Contract, w: Writer) {
    Verdict(contract, w).None? && !CutShort(w.finishReason)
  }

  lemma ValidIsNamed(contract: Contract, w: Writer)
    requires Accepted(contract, w)
    ensures forall j :: 0 <= j < |w.calls| ==> w.calls[j].name != ""
  {
    hide PolicyAccepts, Invocations;
    assert AllValid(contract, w.calls);
    assert Blank("");
  }

  /** A check that accepts a whole completion leaves every call announced, with all its arguments passed on. */
  lemma CheckAccepts(contract: Contract, w: Writer)
    requires Accepted(contract, w) && LiveIfBegun(w)
    ensures var w' := Check(contract, w);
            && SameVerdictFields(w, w')
            && Accepted(contract, w')
            && (forall j :: 0 <= j < |w'.calls| ==> Flushed(w'.calls[j]) && w'.calls[j].id != NoId)
  {
    ValidIsNamed(contract, w);
    var w1 := AssignIds(w, 0);
    AssignIdsNames(w, 0);
    AssignIdsLive(w, 0);
    hide AssignIds, FlushFrom, Verdict, AllValid;
    FlushFromNames(w1, 0) by {
      assert forall j :: 0 <= j < |w.calls| ==> SameContent(w.calls[j], w1.calls[j]);
    }
    SameVerdictChain(w, w1, FlushFrom(w1, 0));
    VerdictSame(contract, w, FlushFrom(w1, 0));
    assert w.error.None? by { VerdictClean(contract, w); }
  }

  lemma VerdictClean(contract: Contract, w: Writer)
    requires Verdict(contract, w).None?
    ensures w.error.None?
  {
  }

  lemma SameVerdictChain(w: Writer, w': Writer, w'': Writer)
    requires SameVerdictFields(w, w') && SameVerdictFields(w', w'')
    ensures SameVerdictFields(w, w'')
  {
    forall j | 0 <= j < |w.calls|
      ensures SameContent(w.calls[j], w''.calls[j])
    {
      assert SameContent(w.calls[j], w'.calls[j]) && SameContent(w'.calls[j], w''.calls[j]);
    }
  }

  lemma {:induction false} AssignIdsLive(w: Writer, i: nat)
    requires LiveIfBegun(w)
    ensures LiveIfBegun(AssignIds(w, i))
    decreases |w.calls| - i
  {
    if i < |w.calls| {
      if w.calls[i].id != NoId {
        AssignIdsLive(w, i + 1);
      } else {
        AssignIdsLive(SetCall(w, i, w.calls[i].(id := Generated(w.minted))).(minted := w.minted + 1), i + 1);
      }
    }
  }

  /** Asking for the verdict again changes nothing: same answer, no further event. */
  lemma CheckTwice(contract: Contract, w: Writer)
    requires LiveIfBegun(w)
    ensures Check(contract, Check(contract, w)) == Check(contract, w)
    ensures Verdict(contract, Check(contract, w)) == Verdict(contract, w)
  {
    if Accepted(contract, w) {
      CheckAccepts(contract, w);
      var w' := Check(contract, w);
      VerdictSame(contract, w, w');
      AssignIdsNames(w', 0);
      FlushFromIdle(w', 0);
      hide Verdict, AssignIds, FlushFrom;
    } else {
      hide PolicyAccepts, AllValid, Invocations;
    }
  }
}
