/** What a turn of the assistant becomes when its messages are merged, and where its reasoning goes. */
module HistoryTurns {
  import opened Wrappers
  import opened Text
  import opened History

  // ---- One turn of the assistant ----

  lemma MergeStep(msgs: seq<Message>, m: Message)
    ensures Merge(msgs + [m]) == MergeOne(Merge(msgs), m)
  {
    assert (msgs + [m])[..|msgs|] == msgs;
  }

  lemma {:induction false} MergeLast(msgs: seq<Message>)
    requires msgs != []
    ensures Merge(msgs) != [] && Merge(msgs)[|Merge(msgs)| - 1].role == msgs[|msgs| - 1].role
  {
  }

  /** Turns that do not touch are merged apart. */
  lemma {:induction false} MergeSplits(a: seq<Message>, b: seq<Message>)
    requires a == [] || b == [] || a[|a| - 1].role != "assistant" || b[0].role != "assistant"
    ensures Merge(a + b) == Merge(a) + Merge(b)
  {
    hide Merge, MergeOne;
    if b == [] {
      assert a + b == a;
      MergeNothing();
    } else {
      var n := |b| - 1;
      var m := b[n];
      assert a + b == (a + b[..n]) + [m] && b == b[..n] + [m];
      MergeSplits(a, b[..n]);
      MergeStep(a + b[..n], m);
      MergeStep(b[..n], m);
      if n == 0 {
        MergeNothing();
        assert b[..0] == [];
        if a != [] {
          MergeLast(a);
        }
      } else {
        MergeLast(b[..n]);
      }
      MergeOneSplits(Merge(a), Merge(b[..n]), m);
    }
  }

  lemma MergeNothing()
    ensures Merge([]) == []
  {
  }

  lemma MergeOneSplits(a: seq<Message>, b: seq<Message>, m: Message)
    requires b != [] || a == [] || a[|a| - 1].role != "assistant" || m.role != "assistant"
    ensures MergeOne(a + b, m) == a + MergeOne(b, m)
  {
    hide MergeAssistant;
    if b == [] {
      assert a + b == a;
    } else {
      assert (a + b)[..|a + b| - 1] == a + b[..|b| - 1];
    }
  }

  predicate Assistants(run: seq<Message>) {
    forall i :: 0 <= i < |run| ==> run[i].role == "assistant"
  }

  /** A run merged from the front. */
  function Folded(run: seq<Message>): Message
    requires run != []
  {
    if |run| == 1 then run[0] else MergeAssistant(Folded(run[..|run| - 1]), run[|run| - 1])
  }

  lemma FoldStep(run: seq<Message>)
    requires |run| > 1
    ensures Folded(run) == MergeAssistant(Folded(run[..|run| - 1]), run[|run| - 1])
  {
  }

  lemma {:induction false} RunFolds(run: seq<Message>)
    requires run != [] && Assistants(run)
    ensures Merge(run) == [Folded(run)] && Folded(run).role == "assistant"
  {
    hide Merge, Folded, MergeAssistant;
    var n := |run| - 1;
    assert run == run[..n] + [run[n]];
    MergeStep(run[..n], run[n]);
    if n == 0 {
      assert run[..0] == [];
      MergeNothing();
      FoldOne(run);
    } else {
      RunFolds(run[..n]);
      FoldStep(run);
      MergeAssistantShape(Folded(run[..n]), run[n]);
    }
  }

  lemma FoldOne(run: seq<Message>)
    requires |run| == 1
    ensures Folded(run) == run[0]
  {
  }

  function AllCalls(run: seq<Message>): seq<Call> {
    if run == [] then [] else AllCalls(run[..|run| - 1]) + run[|run| - 1].calls
  }

  lemma {:induction false} FoldedCalls(run: seq<Message>)
    requires run != []
    ensures Folded(run).calls == AllCalls(run)
  {
    var n := |run| - 1;
    if n == 0 {
      assert run[..0] == [];
    } else {
      FoldedCalls(run[..n]);
    }
  }

  predicate AllPlain(run: seq<Message>) {
    forall i :: 0 <= i < |run| ==> run[i].content.Plain?
  }

  function NonBlankTexts(run: seq<Message>): seq<string>
    requires AllPlain(run)
  {
    if run == [] then []
    else
      var last := run[|run| - 1].content.text;
      NonBlankTexts(run[..|run| - 1]) + if Blank(last) then [] else [last]
  }

  /** Texts with a blank line between them. */
  function Join(texts: seq<string>): string {
    if texts == [] then ""
    else if |texts| == 1 then texts[0]
    else Join(texts[..|texts| - 1]) + "\n\n" + texts[|texts| - 1]
  }

  lemma JoinStep(texts: seq<string>, text: string)
    ensures Join(texts + [text]) == if texts == [] then text else Join(texts) + "\n\n" + text
  {
    assert (texts + [text])[..|texts|] == texts;
  }

  lemma LongerNotBlank(a: string, b: string)
    requires !Blank(a)
    ensures !Blank(a + b)
  {
    var i :| 0 <= i < |a| && !Space(a[i]);
    assert (a + b)[i] == a[i];
  }

  lemma TextsStep(run: seq<Message>)
    requires run != [] && AllPlain(run)
    ensures AllPlain(run[..|run| - 1])
    ensures var last := run[|run| - 1].content.text;
            NonBlankTexts(run) == NonBlankTexts(run[..|run| - 1]) + if Blank(last) then [] else [last]
  {
  }

  lemma JoinContent(earlier: Content, later: Content)
    requires earlier.Plain? && later.Plain?
    ensures var content := MergeContent(earlier, later);
            && content.Plain?
            && content.text == (if Blank(later.text) then earlier.text else if Blank(earlier.text) then later.text else earlier.text + "\n\n" + later.text)
            && (Blank(content.text) <==> Blank(earlier.text) && Blank(later.text))
  {
    if !Blank(earlier.text) {
      LongerNotBlank(earlier.text, "\n\n");
      LongerNotBlank(earlier.text + "\n\n", later.text);
    }
  }

  lemma {:induction false} FoldedText(run: seq<Message>)
    requires run != [] && AllPlain(run)
    ensures var content := Folded(run).content;
            && content.Plain?
            && (if NonBlankTexts(run) == [] then content == run[0].content && Blank(content.text)
                else content.text == Join(NonBlankTexts(run)) && !Blank(content.text))
  {
    hide Blank, Join, Folded, NonBlankTexts, MergeContent;
    var n := |run| - 1;
    TextsStep(run);
    var last := run[n].content.text;
    if n == 0 {
      assert run[..0] == [];
      NoTexts();
      JoinStep([], last);
      FoldOne(run);
    } else {
      FoldedText(run[..n]);
      FoldStep(run);
      JoinStep(NonBlankTexts(run[..n]), last);
      assert NonBlankTexts(run[..n]) + [] == NonBlankTexts(run[..n]);
      JoinContent(Folded(run[..n]).content, run[n].content);
    }
  }

  lemma NoTexts()
    ensures NonBlankTexts([]) == []
  {
  }

  /** Position k of the run holds its first reasoning that is not blank. */
  predicate FirstReasoning(run: seq<Message>, k: nat) {
    && k < |run| && !Blank(TextOf(run[k].reasoning))
    && forall i :: 0 <= i < k ==> Blank(TextOf(run[i].reasoning))
  }

  lemma {:induction false} FoldedReasoning(run: seq<Message>, k: nat)
    requires k < |run| && (FirstReasoning(run, k) || (k == 0 && forall i :: 0 <= i < |run| ==> Blank(TextOf(run[i].reasoning))))
    ensures Folded(run).reasoning == run[k].reasoning
  {
    var n := |run| - 1;
    hide Blank;
    if n > 0 {
      if k < n {
        FoldedReasoning(run[..n], k);
      } else {
        FoldedReasoning(run[..n], 0);
      }
    }
  }

  /**
   A run of assistant messages becomes one message: all their calls in order; their nonblank texts joined
   by blank lines; and the first reasoning that is not blank.
   */
  lemma RunMerged(run: seq<Message>)
    requires run != [] && Assistants(run)
    ensures |Merge(run)| == 1 && Merge(run)[0].role == "assistant" && Merge(run)[0].calls == AllCalls(run)
    ensures AllPlain(run) ==>
              Merge(run)[0].content == if NonBlankTexts(run) == [] then run[0].content else Plain(Join(NonBlankTexts(run)))
    ensures forall k: nat :: FirstReasoning(run, k) ==> Merge(run)[0].reasoning == run[k].reasoning
    ensures (forall i :: 0 <= i < |run| ==> Blank(TextOf(run[i].reasoning))) ==> Merge(run)[0].reasoning == run[0].reasoning
  {
    RunFolds(run);
    FoldedCalls(run);
    if AllPlain(run) {
      FoldedText(run);
    }
    hide Merge, Folded, Blank, Join, NonBlankTexts, AllPlain, AllCalls;
    forall k: nat | FirstReasoning(run, k)
      ensures Merge(run)[0].reasoning == run[k].reasoning
    {
      FoldedReasoning(run, k);
    }
    if forall i :: 0 <= i < |run| ==> Blank(TextOf(run[i].reasoning)) {
      FoldedReasoning(run, 0);
    }
  }

  // ---- Reasoning ----

  function ReasoningInk(msgs: seq<Message>): seq<Mark> {
    if msgs == [] then [] else ReasoningInk(msgs[..|msgs| - 1]) + TextInk(TextOf(msgs[|msgs| - 1].reasoning))
  }

  function ItemReasoning(items: seq<Item>): seq<Mark> {
    if items == [] then []
    else ItemReasoning(items[..|items| - 1]) + if items[|items| - 1].Reasoning? then TextInk(items[|items| - 1].text) else []
  }

  /** Some assistant message has no reasoning yet. */
  predicate Vacant(msgs: seq<Message>) {
    exists i :: 0 <= i < |msgs| && msgs[i].role == "assistant" && msgs[i].reasoning.None?
  }

  lemma ReasoningAppend(msgs: seq<Message>, m: Message)
    ensures ReasoningInk(msgs + [m]) == ReasoningInk(msgs) + TextInk(TextOf(m.reasoning))
  {
    assert (msgs + [m])[..|msgs|] == msgs;
  }

  /** What a draft has kept of the reasoning so far. */
  function Held(d: Draft): seq<Mark> {
    ReasoningInk(d.msgs) + TextInk(d.reasoning)
  }

  /** The draft gains a message that carries its waiting reasoning, or one that carries none. */
  lemma PlaceReasoning(d: Draft, t: Draft, m: Message)
    requires t.msgs == d.msgs + [m]
    requires if m.reasoning.None? then t.reasoning == d.reasoning else m.reasoning == Some(d.reasoning) && t.reasoning == ""
    ensures Held(t) == Held(d)
  {
    ReasoningAppend(d.msgs, m);
    assert TextInk("") == [];
  }

  lemma FlushHeld(d: Draft)
    ensures Held(Flush(d)) == Held(d)
  {
    if d.pending != [] {
      PlaceReasoning(d, Flush(d), Flush(d).msgs[|d.msgs|]);
    }
  }

  lemma TakeHeld(naming: Naming, d: Draft, item: Item)
    ensures Held(Take(naming, d, item)) == Held(d) + if item.Reasoning? then TextInk(item.text) else []
  {
    var t := Take(naming, d, item);
    if item.FunctionOutput? || item.CustomOutput? || (item.Turn? && item.content.Some?) {
      FlushHeld(d);
      PlaceReasoning(Flush(d), t, t.msgs[|t.msgs| - 1]);
      hide Flush, Held;
    } else if item.Reasoning? {
      AddHeld(d, t, item.text);
      hide Held;
    } else {
      hide ReasoningInk, TextInk;
    }
  }

  lemma AddHeld(d: Draft, t: Draft, text: string)
    requires t.msgs == d.msgs
    requires t.reasoning == if text == "" then d.reasoning else if d.reasoning != "" then d.reasoning + "\n\n" + text else text
    ensures Held(t) == Held(d) + TextInk(text)
  {
    hide ReasoningInk, TextInk;
    NoInk();
    if text != "" && d.reasoning != "" {
      TextInkConcat(d.reasoning + "\n\n", text);
      TextInkConcat(d.reasoning, "\n\n");
      BlankInk("\n\n");
    }
  }

  lemma NoInk()
    ensures TextInk("") == []
  {
  }

  lemma {:induction false} TakeAllHeld(naming: Naming, start: seq<Message>, items: seq<Item>)
    ensures Held(TakeAll(naming, start, items)) == ReasoningInk(start) + ItemReasoning(items)
  {
    if items == [] {
      assert TextInk("") == [];
    } else {
      var n := |items| - 1;
      hide Held, Take;
      TakeAllHeld(naming, start, items[..n]);
      TakeHeld(naming, TakeAll(naming, start, items[..n]), items[n]);
    }
  }

  /** One message more or with more reasoning, as multisets of ink. */
  lemma InkOfLast(front: seq<Message>, m: Message)
    ensures multiset(ReasoningInk(front + [m])) == multiset(ReasoningInk(front)) + multiset(TextInk(TextOf(m.reasoning)))
  {
    ReasoningAppend(front, m);
    hide ReasoningInk, TextInk;
  }

  lemma AttachLastHere(msgs: seq<Message>, text: string)
    requires msgs != [] && msgs[|msgs| - 1].role == "assistant" && msgs[|msgs| - 1].reasoning.None?
    ensures multiset(ReasoningInk(AttachLast(msgs, text))) == multiset(ReasoningInk(msgs)) + multiset(TextInk(text)) && Vacant(msgs)
  {
    hide ReasoningInk, TextInk, Vacant;
    var n := |msgs| - 1;
    LastVacant(msgs);
    var m := msgs[n].(reasoning := Some(text));
    assert msgs == msgs[..n] + [msgs[n]];
    assert AttachLast(msgs, text) == msgs[..n] + [m];
    hide AttachLast;
    InkOfLast(msgs[..n], msgs[n]);
    InkOfLast(msgs[..n], m);
    NoInk();
    assert multiset(TextInk(TextOf(msgs[n].reasoning))) == multiset{};
  }

  lemma LastVacant(msgs: seq<Message>)
    requires msgs != [] && msgs[|msgs| - 1].role == "assistant" && msgs[|msgs| - 1].reasoning.None?
    ensures Vacant(msgs)
  {
  }

  lemma {:induction false} AttachAdds(msgs: seq<Message>, text: string)
    ensures multiset(ReasoningInk(AttachLast(msgs, text)))
         == multiset(ReasoningInk(msgs)) + (if Vacant(msgs) then multiset(TextInk(text)) else multiset{})
  {
    hide ReasoningInk, TextInk, Vacant;
    if msgs != [] {
      var n := |msgs| - 1;
      if msgs[n].role == "assistant" && msgs[n].reasoning.None? {
        AttachLastHere(msgs, text);
      } else {
        AttachAdds(msgs[..n], text);
        assert msgs == msgs[..n] + [msgs[n]] && AttachLast(msgs, text) == AttachLast(msgs[..n], text) + [msgs[n]];
        hide AttachLast;
        InkOfLast(msgs[..n], msgs[n]);
        InkOfLast(AttachLast(msgs[..n], text), msgs[n]);
        VacantBefore(msgs);
      }
    } else {
      NoneVacant();
    }
  }

  lemma NoneVacant()
    ensures !Vacant([])
  {
  }

  lemma VacantBefore(msgs: seq<Message>)
    requires msgs != [] && !(msgs[|msgs| - 1].role == "assistant" && msgs[|msgs| - 1].reasoning.None?)
    ensures Vacant(msgs) <==> Vacant(msgs[..|msgs| - 1])
  {
  }

  lemma {:induction false} FillAddsNothing(msgs: seq<Message>)
    ensures ReasoningInk(FillReasoning(msgs)) == ReasoningInk(msgs)
  {
    if msgs != [] {
      var n := |msgs| - 1;
      FillAddsNothing(msgs[..n]);
      assert FillReasoning(msgs)[..n] == FillReasoning(msgs[..n]);
      assert TextInk("") == [];
    }
  }

  lemma StartUnreasoned(instructions: string)
    ensures ReasoningInk(Start(instructions)) == []
  {
    assert TextInk("") == [];
  }

  lemma AttachedInk(d: Draft, deepSeek: bool)
    ensures var attached := if d.reasoning != "" then AttachLast(d.msgs, d.reasoning) else d.msgs;
            multiset(ReasoningInk(if d.reasoningItems > 0 && deepSeek then FillReasoning(attached) else attached))
            == multiset(ReasoningInk(d.msgs)) + (if Vacant(d.msgs) then multiset(TextInk(d.reasoning)) else multiset{})
  {
    assert TextInk("") == [];
    AttachAdds(d.msgs, d.reasoning);
    var attached := if d.reasoning != "" then AttachLast(d.msgs, d.reasoning) else d.msgs;
    FillAddsNothing(attached);
    hide ReasoningInk, TextInk, Vacant, AttachLast, FillReasoning;
  }

  /**
   Before turns are merged, the reasoning of the messages is that of the items, character by character;
   only text behind the last assistant message can be lost, exactly when every assistant message already
   has reasoning. Merging then keeps the first reasoning of each turn (RunMerged).
   */
  lemma ReasoningConserved(naming: Naming, items: seq<Item>, instructions: string, deepSeek: bool)
    ensures var start := Start(instructions);
            var d := Flush(TakeAll(naming, start, items));
            var kept := multiset(ReasoningInk(Unmerged(naming, start, items, deepSeek)));
            && ReasoningInk(d.msgs) + TextInk(d.reasoning) == ItemReasoning(items)
            && kept == multiset(ReasoningInk(d.msgs)) + (if Vacant(d.msgs) then multiset(TextInk(d.reasoning)) else multiset{})
            && (kept == multiset(ItemReasoning(items)) <==> TextInk(d.reasoning) == [] || Vacant(d.msgs))
  {
    var start := Start(instructions);
    var all := TakeAll(naming, start, items);
    TakeAllHeld(naming, start, items);
    FlushHeld(all);
    var d := Flush(all);
    StartUnreasoned(instructions);
    AttachedInk(d, deepSeek);
    hide TakeAll, Flush, ReasoningInk, TextInk, Vacant, AttachLast, FillReasoning, ItemReasoning, Start;
    assert Held(d) == ItemReasoning(items);
    if TextInk(d.reasoning) != [] {
      assert TextInk(d.reasoning)[0] in multiset(TextInk(d.reasoning));
    }
  }

  // ---- What merging does to the reasoning ----

  predicate Reasoned(m: Message) {
    !Blank(TextOf(m.reasoning))
  }

  /** Two messages of one turn both have reasoning. */
  ghost predicate Crowded(msgs: seq<Message>, i: int, j: int) {
    0 <= i < j < |msgs| && Reasoned(msgs[i]) && Reasoned(msgs[j]) && forall k :: i <= k <= j ==> msgs[k].role == "assistant"
  }

  ghost predicate OneReasoning(msgs: seq<Message>) {
    forall i, j :: !Crowded(msgs, i, j)
  }

  /** The turn at the end has reasoning at some position. */
  ghost predicate LastReasoned(msgs: seq<Message>, i: int) {
    0 <= i < |msgs| && Reasoned(msgs[i]) && forall k :: i <= k < |msgs| ==> msgs[k].role == "assistant"
  }

  ghost predicate EndReasoned(msgs: seq<Message>) {
    exists i :: LastReasoned(msgs, i)
  }

  lemma {:induction false} BlankText(s: string)
    ensures TextInk(s) == [] <==> Blank(s)
  {
    if s != "" {
      BlankText(s[..|s| - 1]);
      assert Blank(s) <==> Blank(s[..|s| - 1]) && Space(s[|s| - 1]);
    }
  }

  /** The last message has reasoning after merging exactly if some message of its turn had. */
  lemma {:induction false} MergedReasoning(msgs: seq<Message>)
    requires msgs != [] && msgs[|msgs| - 1].role == "assistant"
    ensures Merge(msgs) != [] && Merge(msgs)[|Merge(msgs)| - 1].role == "assistant"
    ensures Reasoned(Merge(msgs)[|Merge(msgs)| - 1]) <==> EndReasoned(msgs)
  {
    var n := |msgs| - 1;
    var before, m := msgs[..n], msgs[n];
    assert msgs == before + [m];
    MergeStep(before, m);
    MergeLast(msgs);
    hide Merge, Blank;
    if n > 0 && before[n - 1].role == "assistant" {
      MergedReasoning(before);
      LastReasonedNext(msgs);
    } else {
      if n > 0 {
        MergeLast(before);
      } else {
        MergeNothing();
        assert before == [];
      }
      assert Merge(msgs)[|Merge(msgs)| - 1] == m;
      assert LastReasoned(msgs, n) <==> Reasoned(m);
      assert forall i :: LastReasoned(msgs, i) ==> i == n;
    }
  }

  lemma LastReasonedNext(msgs: seq<Message>)
    requires |msgs| > 1 && msgs[|msgs| - 1].role == "assistant"
    ensures EndReasoned(msgs) <==> Reasoned(msgs[|msgs| - 1]) || EndReasoned(msgs[..|msgs| - 1])
  {
    hide Blank;
    var n := |msgs| - 1;
    var before := msgs[..n];
    if i :| LastReasoned(msgs, i) {
      if i < n {
        assert LastReasoned(before, i);
      }
    }
    if Reasoned(msgs[n]) {
      assert LastReasoned(msgs, n);
    }
    if i :| LastReasoned(before, i) {
      assert forall k :: i <= k < n ==> before[k] == msgs[k];
      assert LastReasoned(msgs, i);
    }
  }

  /** One message more crowds its turn if it has reasoning and so has the turn. */
  lemma OneReasoningNext(msgs: seq<Message>)
    requires msgs != []
    ensures var n := |msgs| - 1;
            OneReasoning(msgs) <==> OneReasoning(msgs[..n]) && !(msgs[n].role == "assistant" && Reasoned(msgs[n]) && EndReasoned(msgs[..n]))
  {
    hide Reasoned;
    var n := |msgs| - 1;
    var before := msgs[..n];
    if i, j :| Crowded(before, i, j) {
      assert Crowded(msgs, i, j);
    }
    if msgs[n].role == "assistant" && Reasoned(msgs[n]) {
      if i :| LastReasoned(before, i) {
        assert forall k :: i <= k < n ==> before[k] == msgs[k];
        assert Crowded(msgs, i, n);
      }
    }
    if i, j :| Crowded(msgs, i, j) {
      if j < n {
        assert Crowded(before, i, j);
      } else {
        assert LastReasoned(before, i);
      }
    }
  }

  function InkSet(msgs: seq<Message>): multiset<Mark> {
    multiset(ReasoningInk(msgs))
  }

  /** What one more message leaves of its reasoning. */
  lemma MergeOneInk(out: seq<Message>, m: Message)
    ensures var joins := m.role == "assistant" && out != [] && out[|out| - 1].role == "assistant";
            InkSet(MergeOne(out, m)) == InkSet(out) + if joins && Reasoned(out[|out| - 1]) then multiset{} else multiset(TextInk(TextOf(m.reasoning)))
  {
    hide *;
    if m.role == "assistant" && out != [] && out[|out| - 1].role == "assistant" {
      var n := |out| - 1;
      MergeOneCases(out, m);
      JoinedInk(out[..n], out[n], m);
      assert out == out[..n] + [out[n]];
    } else {
      MergeOneCases(out, m);
      InkOfLast(out, m);
      InkSetIs(out);
      InkSetIs(out + [m]);
    }
  }

  lemma MergeOneCases(out: seq<Message>, m: Message)
    ensures var joins := m.role == "assistant" && out != [] && out[|out| - 1].role == "assistant";
            MergeOne(out, m) == if joins then out[..|out| - 1] + [MergeAssistant(out[|out| - 1], m)] else out + [m]
  {
    hide MergeAssistant;
  }

  lemma JoinedInk(front: seq<Message>, last: Message, m: Message)
    ensures InkSet(front + [MergeAssistant(last, m)])
         == InkSet(front + [last]) + if Reasoned(last) then multiset{} else multiset(TextInk(TextOf(m.reasoning)))
  {
    hide ReasoningInk, TextInk, Blank, MergeContent;
    InkOfLast(front, last);
    InkOfLast(front, MergeAssistant(last, m));
    ReasonedInk(last);
    ReasonedInk(m);
    hide MergeAssistant;
    JoinedText(last, m);
  }

  lemma JoinedText(last: Message, m: Message)
    ensures var joined := TextInk(TextOf(MergeAssistant(last, m).reasoning));
            multiset(joined) == multiset(TextInk(TextOf(last.reasoning))) + if Reasoned(last) then multiset{} else multiset(TextInk(TextOf(m.reasoning)))
  {
    ReasonedInk(last);
    ReasonedInk(m);
    hide Blank, TextInk, MergeContent;
    if !Reasoned(last) {
      assert TextInk(TextOf(last.reasoning)) == [];
    }
  }

  /** Merging never adds reasoning, and loses none exactly if no turn has two messages with reasoning. */
  lemma {:induction false} MergeKeepsReasoning(msgs: seq<Message>)
    ensures InkSet(Merge(msgs)) <= InkSet(msgs)
    ensures InkSet(Merge(msgs)) == InkSet(msgs) <==> OneReasoning(msgs)
  {
    if msgs == [] {
      MergeNothing();
    } else {
      var n := |msgs| - 1;
      var before, m := msgs[..n], msgs[n];
      assert msgs == before + [m];
      MergeKeepsReasoning(before);
      MergeStep(before, m);
      MergeOneInk(Merge(before), m);
      InkOfLast(before, m);
      BlankText(TextOf(m.reasoning));
      OneReasoningNext(msgs);
      LastOfMerged(before);
      var ink := TextInk(TextOf(m.reasoning));
      SomeInk(ink);
      hide *;
      ReasonedInk(m);
      Dropped(InkSet(Merge(before)), InkSet(before), multiset(ink), InkSet(Merge(msgs)), InkSet(msgs));
    }
  }

  lemma SomeInk(ink: seq<Mark>)
    ensures ink == [] <==> multiset(ink) == multiset{}
  {
    if ink != [] {
      assert ink[0] in multiset(ink);
    }
  }

  lemma ReasonedInk(m: Message)
    ensures Reasoned(m) <==> TextInk(TextOf(m.reasoning)) != []
  {
    BlankText(TextOf(m.reasoning));
    hide Blank, TextInk;
  }

  /** More is dropped from a or not: what that says about the whole. */
  lemma Dropped<T>(a: multiset<T>, b: multiset<T>, more: multiset<T>, a': multiset<T>, b': multiset<T>)
    requires a <= b && b' == b + more && (a' == a || a' == a + more)
    ensures a' <= b'
    ensures a' == b' <==> a == b && (a' == a + more)
  {
    if a' == b' && a' == a {
      assert forall x :: x in b + more ==> a[x] == b[x] + more[x];
      assert more == multiset{};
      assert a + more == a;
    }
    if a' == b' && a' == a + more {
      assert forall x :: x in a || x in b ==> (a + more)[x] == (b + more)[x];
    }
  }

  lemma LastOfMerged(msgs: seq<Message>)
    ensures EndReasoned(msgs) <==>
              Merge(msgs) != [] && Merge(msgs)[|Merge(msgs)| - 1].role == "assistant" && Reasoned(Merge(msgs)[|Merge(msgs)| - 1])
  {
    hide Reasoned;
    if msgs == [] {
      MergeNothing();
    } else {
      MergeLast(msgs);
      if msgs[|msgs| - 1].role == "assistant" {
        MergedReasoning(msgs);
      }
    }
    hide Merge;
  }

  /**
   The whole translation: reasoning is never made up, and all of it survives exactly if nothing is left
   behind the last assistant message and no turn has two messages with reasoning.
   */
  lemma AllReasoningSurvives(naming: Naming, items: seq<Item>, instructions: string, deepSeek: bool)
    ensures var start := Start(instructions);
            var d := Flush(TakeAll(naming, start, items));
            var out := Translate(naming, Items(items), instructions, deepSeek);
            && InkSet(out) <= multiset(ItemReasoning(items))
            && (InkSet(out) == multiset(ItemReasoning(items)) <==>
                  (Blank(d.reasoning) || Vacant(d.msgs)) && OneReasoning(Unmerged(naming, start, items, deepSeek)))
  {
    hide *;
    var start := Start(instructions);
    var d := Flush(TakeAll(naming, start, items));
    var unmerged := Unmerged(naming, start, items, deepSeek);
    TranslateIs(naming, items, instructions, deepSeek);
    InkSetIs(unmerged);
    ReasoningConserved(naming, items, instructions, deepSeek);
    MergeKeepsReasoning(unmerged);
    BlankText(d.reasoning);
    Kept(d, InkSet(unmerged), items);
    Between(InkSet(Merge(unmerged)), InkSet(unmerged), multiset(ItemReasoning(items)));
  }

  lemma TranslateIs(naming: Naming, items: seq<Item>, instructions: string, deepSeek: bool)
    ensures Translate(naming, Items(items), instructions, deepSeek) == Merge(Unmerged(naming, Start(instructions), items, deepSeek))
  {
    hide Merge, Unmerged, Start;
  }

  lemma InkSetIs(msgs: seq<Message>)
    ensures InkSet(msgs) == multiset(ReasoningInk(msgs))
  {
  }

  lemma Between<T>(a: multiset<T>, b: multiset<T>, c: multiset<T>)
    requires a <= b <= c
    ensures a <= c
    ensures a == c <==> a == b && b == c
  {
  }

  lemma Kept(d: Draft, kept: multiset<Mark>, items: seq<Item>)
    requires ReasoningInk(d.msgs) + TextInk(d.reasoning) == ItemReasoning(items)
    requires kept == multiset(ReasoningInk(d.msgs)) + (if Vacant(d.msgs) then multiset(TextInk(d.reasoning)) else multiset{})
    ensures kept <= multiset(ItemReasoning(items))
  {
    hide ReasoningInk, TextInk, Vacant, ItemReasoning;
    assert multiset(ItemReasoning(items)) == multiset(ReasoningInk(d.msgs)) + multiset(TextInk(d.reasoning));
  }

  const TWICE: seq<Item> := [Reasoning("a"), Turn("assistant", Some(Plain("x"))), Reasoning("b"), FunctionCall("", "f", "1", "", "{}")]

  /** An input that loses reasoning: a turn that thinks, speaks, thinks again and calls a tool. */
  lemma SecondReasoningLost(naming: Naming, deepSeek: bool)
    ensures InkSet(Translate(naming, Items(TWICE), "", deepSeek)) == multiset{Ink('a')}
    ensures multiset(ItemReasoning(TWICE)) == multiset{Ink('a'), Ink('b')}
  {
    var call := CallOf(naming, TWICE[3]);
    var first := Message("assistant", Plain("x"), [], None, Some("a"));
    var second := Message("assistant", Plain(""), [call], None, Some("b"));
    TwiceTaken(naming);
    assert Start("") == [];
    var unmerged := Unmerged(naming, [], TWICE, deepSeek);
    assert unmerged == [first, second];
    hide Unmerged, TakeAll;
    var merged := MergeAssistant(first, second);
    assert !Blank("a") by { assert !Space("a"[0]); }
    assert merged.reasoning == Some("a");
    assert [first, second] == [first] + [second] && [] + [first] == [first];
    MergeNothing();
    MergeStep([], first);
    MergeStep([first], second);
    assert Merge(unmerged) == [] + [merged];
    hide Merge, MergeAssistant, Blank;
    ReasoningAppend([], merged);
    OneInk('a');
  }

  lemma OneInk(c: char)
    requires !Space(c)
    ensures TextInk([c]) == [Ink(c)]
  {
    assert [c][..0] == "";
  }

  lemma TwiceTaken(naming: Naming)
    ensures Flush(TakeAll(naming, [], TWICE)).msgs
         == [Message("assistant", Plain("x"), [], None, Some("a")), Message("assistant", Plain(""), [CallOf(naming, TWICE[3])], None, Some("b"))]
    ensures Flush(TakeAll(naming, [], TWICE)).reasoning == ""
    ensures ItemReasoning(TWICE) == [Ink('a'), Ink('b')]
  {
    var first := Message("assistant", Plain("x"), [], None, Some("a"));
    var i0, i1, i2, i3 := TWICE[..0], TWICE[..1], TWICE[..2], TWICE[..3];
    assert i0 == [] && i1[..0] == i0 && i2[..1] == i1 && i3[..2] == i2 && TWICE[..|TWICE| - 1] == i3;
    OneInk('a');
    OneInk('b');
    hide TextInk;
    assert TakeAll(naming, [], i1) == Draft([], [], "a", 1);
    assert TakeAll(naming, [], i2) == Draft([first], [], "", 1);
    assert TakeAll(naming, [], i3) == Draft([first], [], "b", 2);
    assert TakeAll(naming, [], TWICE) == Draft([first], [CallOf(naming, TWICE[3])], "b", 2);
    assert ItemReasoning(i1) == [Ink('a')];
    assert ItemReasoning(i2) == [Ink('a')];
    assert ItemReasoning(i3) == [Ink('a'), Ink('b')];
  }
}
