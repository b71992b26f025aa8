/**
 The outcome of a translated stream in terms of its input: exactly when it fails, is cut short or
 completes, and what the client is then told, read off the chunks the upstream sent.
 */
module ResponsesOutcome {
  import opened Wrappers
  import opened Text
  import opened ResponseEvents
  import opened ToolPolicy
  import opened ResponsesStream
  import opened ResponsesInvariant
  import opened ResponsesSteps
  import opened ResponsesFinish
  import opened ResponsesClosing
  import opened ResponsesOutput
  import opened ResponsesRuns
  import opened ResponsesGuarantees
  import opened ResponsesInput
  import V = Verdicts

  // ---- The first choice of every chunk ----

  function First(choices: seq<Choice>): seq<Choice>
    decreases |choices|
  {
    if choices == [] then []
    else (if choices[0].Choice? && choices[0].first then [choices[0]] else []) + First(choices[1..])
  }

  /** The deltas of the first choice, in all chunks. */
  function ChoicesIn(parse: string -> Payload, texts: seq<string>): seq<Choice> {
    if texts == [] then []
    else
      var n := |texts| - 1;
      ChoicesIn(parse, texts[..n]) + if parse(texts[n]).Chunk? then First(parse(texts[n]).choices) else []
  }

  /** Calls are well-formed and consistent, and in one form. */
  predicate Consistent(choices: seq<Choice>) {
    V.AllBenign(choices) && V.Stable(V.Fragments(choices)) && V.Stable(V.LegacyItems(V.LegacyOf(choices))) && V.Unmixed(choices)
  }

  predicate Firsts(choices: seq<Choice>) {
    forall i :: 0 <= i < |choices| ==> choices[i].Choice? && choices[i].first
  }

  lemma {:induction false} FirstFirsts(choices: seq<Choice>)
    ensures Firsts(First(choices))
    decreases |choices|
  {
    if choices != [] {
      FirstFirsts(choices[1..]);
    }
  }

  lemma {:induction false} InFirsts(parse: string -> Payload, texts: seq<string>)
    ensures Firsts(ChoicesIn(parse, texts))
  {
    if texts != [] {
      var n := |texts| - 1;
      InFirsts(parse, texts[..n]);
      if parse(texts[n]).Chunk? {
        FirstFirsts(parse(texts[n]).choices);
      }
    }
  }

  // ---- Inconsistent calls are an error ----

  lemma FunctionFails(contract: Contract, w: Writer, i: nat, f: FunctionDelta)
    requires i < |w.calls| && w.error.None?
    requires f.arguments.NotAString? || (f.name != "" && w.calls[i].name != "" && f.name != w.calls[i].name)
    ensures ApplyFunction(contract, w, i, f).error.Some?
  {
    hide SetCall;
    assert NameCall(contract, w.calls[i], f.name).Some? ==> SetCall(w, i, NameCall(contract, w.calls[i], f.name).value).error == w.error by {
      SetCalm(w, i, w.calls[i]);
      SetKeepsError(w, i);
    }
  }

  lemma SetKeepsError(w: Writer, i: nat)
    requires i < |w.calls|
    ensures forall call :: SetCall(w, i, call).error == w.error
  {
  }

  lemma ConflictFails(contract: Contract, w: Writer, item: ToolItem)
    requires item.ToolDelta? && NewCall(w, item.key).error.None?
    requires var w1 := NewCall(w, item.key);
             var i := FindCall(w1.calls, item.key);
             i < |w1.calls| && item.id != NoId && w1.calls[i].id != NoId && w1.calls[i].id != item.id
    ensures ApplyItem(contract, w, item).error.Some?
  {
    hide NewCall, FindCall, ApplyFunction;
  }

  /** A fragment that is malformed or contradicts the past of its call. */
  lemma Contradicts(items: seq<ToolItem>, item: ToolItem, call: Call)
    requires item.ToolDelta? && V.MirrorsCall(items, item.key, call) && !(V.BenignItem(item) && V.Agrees(items, item))
    ensures (item.id != NoId && call.id != NoId && call.id != item.id)
         || (item.fn.Some? && (item.fn.value.arguments.NotAString? || (item.fn.value.name != "" && call.name != "" && item.fn.value.name != call.name)))
  {
    hide V.NameOf, V.IdOf, V.ArgumentsOfKey;
  }

  lemma ItemFails(contract: Contract, w: Writer, items: seq<ToolItem>, item: ToolItem)
    requires V.Mirrors(w, items) && !(V.BenignItem(item) && V.Agrees(items, item))
    ensures ApplyItem(contract, w, item).error.Some?
  {
    if item.NotAnObject? {
      assert ApplyItem(contract, w, item) == Fail(w, "upstream contained an invalid tool call");
    } else {
      hide ApplyItem, NewCall, FindCall, V.Mirrors, V.MirrorsCall, V.BenignItem, V.Agrees, ApplyFunction;
      var w1 := NewCall(w, item.key);
      V.NewCallMirrors(w, items, item.key);
      var i := FindCall(w1.calls, item.key);
      var call := w1.calls[i];
      assert V.MirrorsCall(items, call.key, call);
      Contradicts(items, item, call);
      if item.id != NoId && call.id != NoId && call.id != item.id {
        ConflictFails(contract, w, item);
      } else {
        V.ApplyItemCases(contract, w, item);
        FunctionFails(contract, SetCall(w1, i, V.Identify(call, item.id)), i, item.fn.value);
      }
    }
  }

  lemma ItemsNext(contract: Contract, w: Writer, more: seq<ToolItem>)
    requires more != [] && w.error.None?
    ensures ApplyItems(contract, w, more) == ApplyItems(contract, ApplyItem(contract, w, more[0]), more[1..])
  {
    hide ApplyItem;
  }

  lemma ErrorKept(w: Writer, w': Writer)
    requires Calm(w, w') && w'.error.None?
    ensures w.error.None?
  {
  }

  lemma BenignMore(item: ToolItem, more: seq<ToolItem>)
    requires V.BenignItem(item) && V.BenignItems(more)
    ensures V.BenignItems([item] + more) && item.ToolDelta?
  {
  }

  predicate Fits(items: seq<ToolItem>, item: ToolItem) {
    V.BenignItem(item) && V.Agrees(items, item)
  }

  /** A fragment that raises no error is well-formed and agrees with the past. */
  lemma ItemFits(contract: Contract, w: Writer, items: seq<ToolItem>, item: ToolItem)
    requires V.Mirrors(w, items) && ApplyItem(contract, w, item).error.None?
    ensures V.BenignItem(item) && item.ToolDelta? && V.Agrees(items, item)
    ensures V.Mirrors(ApplyItem(contract, w, item), items + [item])
    ensures V.Stable(items) ==> V.Stable(items + [item])
  {
    hide ApplyItem, V.Mirrors, V.Agrees, V.Stable;
    if !Fits(items, item) {
      ItemFails(contract, w, items, item);
    }
    V.ApplyItemMirrors(contract, w, items, item);
    if V.Stable(items) {
      StableMore(items, item);
    }
  }

  lemma Regroup<T>(a: seq<T>, b: seq<T>)
    requires b != []
    ensures a + [b[0]] + b[1..] == a + b && [b[0]] + b[1..] == b
  {
  }

  lemma {:induction false} ItemsFail(contract: Contract, w: Writer, items: seq<ToolItem>, more: seq<ToolItem>)
    requires V.Mirrors(w, items) && V.Stable(items) && ApplyItems(contract, w, more).error.None?
    ensures V.BenignItems(more) && V.Stable(items + more)
    decreases |more|
  {
    if more == [] {
      V.EmptyBenign();
      assert items + more == items;
    } else {
      hide *;
      var item, rest := more[0], more[1..];
      var w1 := ApplyItem(contract, w, item);
      V.MirrorsClean(w, items);
      ItemsNext(contract, w, more);
      ItemsCalm(contract, w1, rest);
      ErrorKept(w1, ApplyItems(contract, w1, rest));
      ItemFits(contract, w, items, item);
      ItemsFail(contract, w1, items + [item], rest);
      BenignMore(item, rest);
      Regroup(items, more);
    }
  }

  lemma StableMore(items: seq<ToolItem>, item: ToolItem)
    requires V.Stable(items) && item.ToolDelta? && V.Agrees(items, item)
    ensures V.Stable(items + [item])
  {
    assert (items + [item])[..|items|] == items;
  }

  lemma DeltaFails(contract: Contract, w: Writer, items: seq<ToolItem>, more: seq<ToolItem>)
    requires V.Mirrors(w, items) && V.Stable(items) && ToolCallDelta(contract, w, more).error.None?
    ensures V.BenignItems(more) && V.Stable(items + more)
  {
    hide ApplyItems, FlushFrom, V.Mirrors, V.Stable, V.BenignItems;
    FlushCalm(ApplyItems(contract, w, more), 0);
    ItemsFail(contract, w, items, more);
  }

  // ---- One choice ----

  /** The choice without its legacy call. */
  function Modern(choice: Choice): Choice {
    if choice.Choice? && choice.delta.Some? then choice.(delta := Some(choice.delta.value.(legacy := NoFunction))) else choice
  }

  /** What the modern half of the last choice shares with the whole. */
  lemma ModernSame(choices: seq<Choice>, others: seq<Choice>)
    requires choices != [] && others == choices[..|choices| - 1] + [Modern(choices[|choices| - 1])]
    ensures others[..|others| - 1] == choices[..|choices| - 1]
    ensures V.Fragments(others) == V.Fragments(choices) && V.ContentOf(others) == V.ContentOf(choices)
    ensures V.RefusalOf(others) == V.RefusalOf(choices) && V.FinishOf(others) == V.FinishOf(choices)
  {
    assert others[..|others| - 1] == choices[..|choices| - 1];
  }

  lemma ModernBenign(choice: Choice)
    requires choice.Choice? && choice.first && choice.delta.Some? && !choice.delta.value.tools.NotAnArray? && V.BenignItems(V.ToolsOf(choice.delta.value.tools))
    ensures V.Benign(Modern(choice))
  {
  }

  /** Tool calls that raise no error are well-formed and consistent. */
  lemma ModernFails(contract: Contract, w: Writer, items: seq<ToolItem>, d: ChoiceDelta)
    requires V.Mirrors(w, items) && V.Stable(items) && CalledModern(contract, Spoken(w, d), d.tools).0.error.None?
    ensures !d.tools.NotAnArray? && V.BenignItems(V.ToolsOf(d.tools)) && V.Stable(items + V.ToolsOf(d.tools))
    ensures V.ToolsOf(d.tools) != [] ==> w.legacyId.None?
    ensures !CalledModern(contract, Spoken(w, d), d.tools).1
  {
    V.SpokenFields(w, d);
    V.MirrorsFields(w, Spoken(w, d), items);
    V.EmptyBenign();
    hide Spoken, ToolCallDelta, V.Mirrors, V.Stable, V.BenignItems;
    if V.ToolsOf(d.tools) == [] {
      assert items + V.ToolsOf(d.tools) == items;
    } else if w.legacyId.None? {
      DeltaFails(contract, Spoken(w, d), items, d.tools.items);
    }
  }

  lemma LegacyFails(contract: Contract, w: Writer, fs: seq<FunctionDelta>, legacy: LegacyField)
    requires V.Mirrors(w, V.LegacyItems(fs)) && V.Stable(V.LegacyItems(fs)) && legacy.Legacy?
    requires w.calls == [] || w.legacyId.Some?
    requires w.legacyId == (if fs == [] then None else Some(0)) && w.minted == Count(fs != [])
    requires fs == [] ==> !V.EmptyFunction(legacy.fn) || legacy.fn.arguments.NotAString?
    requires CalledLegacy(contract, w, legacy).0.error.None?
    ensures !legacy.fn.arguments.NotAString? && V.Stable(V.LegacyItems(fs + [legacy.fn]))
  {
    var f := legacy.fn;
    var w1 := if w.legacyId.None? then w.(legacyId := Some(w.minted), minted := w.minted + 1) else w;
    V.LegacyItemsAppend(fs, f);
    V.MirrorsFields(w, w1, V.LegacyItems(fs));
    hide V.Mirrors, ToolCallDelta, V.Stable, V.LegacyItems;
    assert CalledLegacy(contract, w, legacy).0 == ToolCallDelta(contract, w1, [V.LegacyItem(f)]);
    DeltaFails(contract, w1, V.LegacyItems(fs), [V.LegacyItem(f)]);
    assert V.BenignItem([V.LegacyItem(f)][0]);
  }

  lemma AfterMeans(w: Writer, choices: seq<Choice>)
    requires choices != [] && V.AfterModern(w, choices)
    ensures var fs := V.LegacyOf(choices[..|choices| - 1]);
            && (fs == [] || V.Fragments(choices) == [])
            && V.Mirrors(w, if fs == [] then V.Fragments(choices) else V.LegacyItems(fs))
            && w.legacyId == (if fs == [] then None else Some(0)) && w.minted == Count(fs != [])
  {
    hide V.Fragments, V.Mirrors, V.ContentOf, V.RefusalOf, V.FinishOf, V.LegacyOf, V.LegacyItems, V.Unmixed;
  }

  lemma LegacyNext(choices: seq<Choice>)
    requires choices != [] && choices[|choices| - 1].Choice? && choices[|choices| - 1].delta.Some?
    ensures var before, legacy := V.LegacyOf(choices[..|choices| - 1]), choices[|choices| - 1].delta.value.legacy;
            V.LegacyOf(choices) == if legacy.Legacy? && !(before == [] && V.EmptyFunction(legacy.fn)) then before + [legacy.fn] else before
  {
  }

  /** A second form beside modern calls, or something that is no function, is an error. */
  lemma LegacyRefused(contract: Contract, w: Writer, legacy: LegacyField)
    requires legacy.NotAFunction? || (legacy.Legacy? && w.legacyId.None? && w.calls != [] && (!V.EmptyFunction(legacy.fn) || legacy.fn.arguments.NotAString?))
    ensures CalledLegacy(contract, w, legacy).0.error.Some?
  {
    hide ToolCallDelta;
  }

  lemma BenignParts(choice: Choice)
    requires choice.Choice? && choice.first && choice.delta.Some? && V.Benign(Modern(choice))
    requires choice.delta.value.legacy.NoFunction? || (choice.delta.value.legacy.Legacy? && !choice.delta.value.legacy.fn.arguments.NotAString?)
    ensures V.Benign(choice)
  {
    hide V.BenignItems;
  }

  /** The legacy half: w is the writer after the modern half. */
  lemma LegacyExact(contract: Contract, w: Writer, choices: seq<Choice>, others: seq<Choice>)
    requires choices != [] && others == choices[..|choices| - 1] + [Modern(choices[|choices| - 1])]
    requires choices[|choices| - 1].Choice? && choices[|choices| - 1].first && choices[|choices| - 1].delta.Some?
    requires V.AllBenign(others) && V.AfterModern(w, others) && V.Stable(V.LegacyItems(V.LegacyOf(choices[..|choices| - 1])))
    requires CalledLegacy(contract, w, choices[|choices| - 1].delta.value.legacy).0.error.None?
    ensures V.Benign(choices[|choices| - 1]) && V.Stable(V.LegacyItems(V.LegacyOf(choices))) && V.Unmixed(choices)
  {
    var before, choice := choices[..|choices| - 1], choices[|choices| - 1];
    var legacy, fs := choice.delta.value.legacy, V.LegacyOf(before);
    ModernSame(choices, others);
    V.FragmentsBenign(others);
    assert V.Benign(others[|others| - 1]);
    AfterMeans(w, others);
    LegacyNext(choices);
    hide V.Fragments, V.Mirrors, V.AfterModern, V.Stable, V.BenignItems, V.Benign, V.LegacyOf, V.EmptyFunction, CalledLegacy, V.LegacyItems;
    if legacy.NotAFunction? {
      LegacyRefused(contract, w, legacy);
    } else if legacy.Legacy? && !(fs == [] && V.EmptyFunction(legacy.fn) && !legacy.fn.arguments.NotAString?) {
      if fs == [] {
        if w.calls != [] {
          LegacyRefused(contract, w, legacy);
        }
        V.MirrorsSome(w, V.Fragments(others));
        V.LegacyItemsAppend([], legacy.fn);
      }
      LegacyFails(contract, w, fs, legacy);
    }
    BenignParts(choice);
  }

  lemma ConsistentMeans(choices: seq<Choice>)
    ensures Consistent(choices) <==> V.AllBenign(choices) && V.Stable(V.Fragments(choices)) && V.Stable(V.LegacyItems(V.LegacyOf(choices))) && V.Unmixed(choices)
  {
  }

  lemma BenignNext(before: seq<Choice>, choice: Choice)
    requires V.AllBenign(before) && V.Benign(choice)
    ensures V.AllBenign(before + [choice])
  {
    hide V.Benign;
  }

  lemma HandleSteps(contract: Contract, w: Writer, choice: Choice)
    requires choice.Choice? && choice.first && choice.delta.Some?
    ensures var d := choice.delta.value;
            var r := CalledModern(contract, Spoken(V.Finished(w, choice), d), d.tools);
            && HandleChoice(contract, w, choice) == (if r.1 then (r.0, true) else CalledLegacy(contract, r.0, d.legacy))
            && (HandleChoice(contract, w, choice).0.error.None? ==> r.0.error.None?)
  {
    hide *;
    var d := choice.delta.value;
    var r := CalledModern(contract, Spoken(V.Finished(w, choice), d), d.tools);
    V.HandleWithDelta(contract, w, choice);
    LegacyCalm(contract, r.0, d.legacy);
    if !r.1 && HandleChoice(contract, w, choice).0.error.None? {
      ErrorKept(r.0, CalledLegacy(contract, r.0, d.legacy).0);
    }
  }

  /** A choice that raises no error keeps the stream consistent. */
  lemma ChoiceExact(contract: Contract, w: Writer, choices: seq<Choice>)
    requires choices != [] && choices[|choices| - 1].Choice? && choices[|choices| - 1].first
    requires V.Tracks(w, choices[..|choices| - 1]) && Consistent(choices[..|choices| - 1])
    requires HandleChoice(contract, w, choices[|choices| - 1]).0.error.None?
    ensures Consistent(choices)
  {
    hide *;
    var before, choice := choices[..|choices| - 1], choices[|choices| - 1];
    assert choices == before + [choice];
    if choice.delta.None? {
      SilentConsistent(choices);
    } else {
      DeltaExact(contract, w, before, choice);
    }
  }

  lemma SilentConsistent(choices: seq<Choice>)
    requires choices != [] && choices[|choices| - 1].Choice? && choices[|choices| - 1].first && choices[|choices| - 1].delta.None?
    requires Consistent(choices[..|choices| - 1])
    ensures Consistent(choices)
  {
    hide *;
    var before, choice := choices[..|choices| - 1], choices[|choices| - 1];
    assert choices == before + [choice];
    SilentBenign(choice);
    ConsistentMeans(before);
    BenignNext(before, choice);
    SilentFold(choices);
    ConsistentMeans(choices);
    SameForms(before, choices);
  }

  lemma SilentBenign(choice: Choice)
    requires choice.Choice? && choice.first && choice.delta.None?
    ensures V.Benign(choice)
  {
  }

  lemma SilentFold(choices: seq<Choice>)
    requires choices != [] && choices[|choices| - 1].Choice? && choices[|choices| - 1].delta.None?
    ensures V.Fragments(choices) == V.Fragments(choices[..|choices| - 1]) && V.LegacyOf(choices) == V.LegacyOf(choices[..|choices| - 1])
  {
  }

  lemma SameForms(a: seq<Choice>, b: seq<Choice>)
    requires V.Fragments(a) == V.Fragments(b) && V.LegacyOf(a) == V.LegacyOf(b)
    ensures V.Unmixed(a) <==> V.Unmixed(b)
  {
  }

  lemma FinishedTracks(w: Writer, choice: Choice, items: seq<ToolItem>)
    requires V.Mirrors(w, items) && choice.Choice?
    ensures V.Mirrors(V.Finished(w, choice), items) && V.Finished(w, choice).legacyId == w.legacyId
  {
    V.MirrorsFields(w, V.Finished(w, choice), items);
    hide V.Mirrors;
  }

  lemma TracksMeans(w: Writer, choices: seq<Choice>)
    requires V.Tracks(w, choices)
    ensures w.legacyId == (if V.LegacyOf(choices) == [] then None else Some(0)) && (V.LegacyOf(choices) == [] || V.Fragments(choices) == [])
    ensures V.Mirrors(w, if V.LegacyOf(choices) == [] then V.Fragments(choices) else V.LegacyItems(V.LegacyOf(choices)))
  {
    V.TracksItems(w, choices);
    hide V.Fragments, V.Mirrors, V.ContentOf, V.RefusalOf, V.FinishOf, V.LegacyOf, V.LegacyItems;
  }

  lemma Ends<T>(before: seq<T>, last: T)
    ensures var all := before + [last]; all != [] && all[..|all| - 1] == before && all[|all| - 1] == last
  {
  }

  lemma DeltaExact(contract: Contract, w: Writer, before: seq<Choice>, choice: Choice)
    requires choice.Choice? && choice.first && choice.delta.Some?
    requires V.Tracks(w, before) && Consistent(before)
    requires HandleChoice(contract, w, choice).0.error.None?
    ensures Consistent(before + [choice])
  {
    var d, m := choice.delta.value, Modern(choice);
    var w1 := V.Finished(w, choice);
    var items := if V.LegacyOf(before) == [] then V.Fragments(before) else V.LegacyItems(V.LegacyOf(before));
    hide *;
    var choices, others := before + [choice], before + [m];
    Ends(before, choice);
    Ends(before, m);
    HandleSteps(contract, w, choice);
    var r := CalledModern(contract, Spoken(w1, d), d.tools).0;
    ConsistentMeans(before);
    TracksMeans(w, before);
    FinishedTracks(w, choice, items);
    ItemsStable(before, items);
    ModernFails(contract, w1, items, d);
    ModernBenign(choice);
    BenignNext(before, m);
    ModernSame(choices, others);
    ModernReady(choices, others, items);
    SameSteps(contract, w, choice);
    V.ModernStep(contract, w, others);
    LegacyExact(contract, r, choices, others);
    BenignNext(before, choice);
    ConsistentMeans(choices);
  }

  lemma ItemsStable(before: seq<Choice>, items: seq<ToolItem>)
    requires Consistent(before) && items == if V.LegacyOf(before) == [] then V.Fragments(before) else V.LegacyItems(V.LegacyOf(before))
    ensures V.Stable(items)
  {
    hide V.Stable, V.Fragments, V.LegacyOf, V.LegacyItems;
  }

  lemma SameSteps(contract: Contract, w: Writer, choice: Choice)
    requires choice.Choice? && choice.delta.Some?
    ensures var m := Modern(choice);
            && m.Choice? && m.delta.Some? && V.Finished(w, m) == V.Finished(w, choice) && m.delta.value.tools == choice.delta.value.tools
            && V.ItemsOf(m) == V.ToolsOf(choice.delta.value.tools)
            && Spoken(V.Finished(w, m), m.delta.value) == Spoken(V.Finished(w, choice), choice.delta.value)
  {
    hide ReasoningDelta, TextDelta;
  }

  /** What the modern half of a choice without error satisfies. */
  lemma ModernReady(choices: seq<Choice>, others: seq<Choice>, items: seq<ToolItem>)
    requires choices != [] && others == choices[..|choices| - 1] + [Modern(choices[|choices| - 1])]
    requires choices[|choices| - 1].Choice? && choices[|choices| - 1].delta.Some?
    requires var before, tools := choices[..|choices| - 1], V.ToolsOf(choices[|choices| - 1].delta.value.tools);
             && items == (if V.LegacyOf(before) == [] then V.Fragments(before) else V.LegacyItems(V.LegacyOf(before)))
             && V.Stable(items + tools) && (V.LegacyOf(before) != [] ==> V.Fragments(before) == [] && tools == [])
    ensures V.Stable(V.Fragments(others)) && (V.LegacyOf(choices[..|choices| - 1]) == [] || V.ItemsOf(others[|others| - 1]) == [])
  {
    var before, tools := choices[..|choices| - 1], V.ToolsOf(choices[|choices| - 1].delta.value.tools);
    assert others[..|others| - 1] == before;
    assert V.Fragments(others) == V.Fragments(before) + tools;
    hide V.LegacyOf, V.LegacyItems, V.Fragments;
    if V.LegacyOf(before) != [] {
      assert V.Fragments(others) == [];
    }
  }

  // ---- All choices ----

  lemma ErrorGoesOn(contract: Contract, w: Writer, choice: Choice)
    ensures w.error.Some? ==> HandlePayload(contract, w, Chunk([choice])) == w
    ensures w.error.None? ==> HandlePayload(contract, w, Chunk([choice])) == HandleChoice(contract, w, choice).0
  {
    if w.error.None? {
      V.HandleOne(contract, w, choice);
    }
    hide HandleChoices, HandleChoice;
  }

  lemma ConsistentPrefix(choices: seq<Choice>)
    requires choices != [] && Consistent(choices)
    ensures Consistent(choices[..|choices| - 1])
  {
    V.PrefixStable(choices);
    hide V.Stable, V.Fragments, V.LegacyOf, V.LegacyItems, V.Benign;
  }

  /** The error of the stream is exact: there is one exactly if the calls are not consistent. */
  lemma {:induction false} AbsorbExact(contract: Contract, choices: seq<Choice>)
    requires Firsts(choices)
    ensures V.Absorb(contract, choices).error.None? <==> Consistent(choices)
    ensures Consistent(choices) ==> V.Tracks(V.Absorb(contract, choices), choices)
  {
    if choices == [] {
      V.BeginTracks();
      NoneConsistent(contract);
    } else {
      var n := |choices| - 1;
      var before, w := choices[..n], V.Absorb(contract, choices[..n]);
      FirstsPrefix(choices);
      AbsorbExact(contract, before);
      ErrorGoesOn(contract, w, choices[n]);
      AbsorbStep(contract, choices);
      hide *;
      if Consistent(choices) {
        ConsistentPrefix(choices);
        ConsistentTracks(contract, choices);
      } else if Consistent(before) && HandleChoice(contract, w, choices[n]).0.error.None? {
        ChoiceExact(contract, w, choices);
      }
    }
  }

  lemma FirstsPrefix(choices: seq<Choice>)
    requires choices != [] && Firsts(choices)
    ensures Firsts(choices[..|choices| - 1]) && choices[|choices| - 1].Choice? && choices[|choices| - 1].first
  {
  }

  lemma AbsorbStep(contract: Contract, choices: seq<Choice>)
    requires choices != []
    ensures V.Absorb(contract, choices) == HandlePayload(contract, V.Absorb(contract, choices[..|choices| - 1]), Chunk([choices[|choices| - 1]]))
  {
    hide HandlePayload;
  }

  lemma NoneConsistent(contract: Contract)
    ensures Consistent([]) && V.Absorb(contract, []).error.None?
  {
    V.BeginTracks();
    V.LegacyItemsAppend([], FunctionDelta("", NoArguments));
  }

  lemma ConsistentTracks(contract: Contract, choices: seq<Choice>)
    requires Consistent(choices)
    ensures V.Tracks(V.Absorb(contract, choices), choices) && V.Absorb(contract, choices).error.None?
  {
    V.AbsorbTracks(contract, choices);
    V.MirrorsClean(V.Absorb(contract, choices), V.ItemsIn(choices)) by { TracksMirror(V.Absorb(contract, choices), choices); }
    hide V.AllBenign, V.Stable, V.Tracks, V.Absorb, V.ItemsIn, V.Mirrors;
  }

  lemma TracksMirror(w: Writer, choices: seq<Choice>)
    requires V.Tracks(w, choices)
    ensures V.Mirrors(w, V.ItemsIn(choices))
  {
    hide V.Mirrors, V.ItemsIn;
  }

  // ---- Chunks ----

  lemma StopFails(contract: Contract, w: Writer, choice: Choice)
    requires HandleChoice(contract, w, choice).1
    ensures HandleChoice(contract, w, choice).0.error.Some?
  {
    hide Spoken, ToolCallDelta, LegacyDelta;
  }

  lemma {:induction false} ErrorStaysOn(contract: Contract, before: seq<Choice>, more: seq<Choice>)
    requires V.Absorb(contract, before).error.Some?
    ensures V.Absorb(contract, before + more).error.Some?
  {
    hide HandlePayload;
    if more == [] {
      assert before + more == before;
    } else {
      var n := |more| - 1;
      assert (before + more)[..|before + more| - 1] == before + more[..n];
      ErrorStaysOn(contract, before, more[..n]);
      ErrorGoesOn(contract, V.Absorb(contract, before + more[..n]), more[n]);
    }
  }

  /** A chunk is heard choice by choice; the writer is the same until an error. */
  lemma {:induction false} ChoicesHeard(contract: Contract, before: seq<Choice>, choices: seq<Choice>)
    requires V.Absorb(contract, before).error.None?
    ensures var w, a := HandleChoices(contract, V.Absorb(contract, before), choices), V.Absorb(contract, before + First(choices));
            (w.error.None? <==> a.error.None?) && (a.error.None? ==> w == a)
    decreases |choices|
  {
    var w := V.Absorb(contract, before);
    if choices == [] {
      assert before + First(choices) == before;
    } else {
      var choice := choices[0];
      if choice.Choice? && choice.first {
        assert First(choices) == [choice] + First(choices[1..]);
        var w1 := HandleChoice(contract, w, choice).0;
        hide *;
        Ends(before, choice);
        AbsorbStep(contract, before + [choice]);
        ErrorGoesOn(contract, w, choice);
        assert before + [choice] + First(choices[1..]) == before + First(choices);
        ChoicesNext(contract, w, choices);
        if w1.error.Some? {
          ErrorStaysOn(contract, before + [choice], First(choices[1..]));
          ChoicesKeep(contract, w1, choices[1..]);
        } else {
          if HandleChoice(contract, w, choice).1 {
            StopFails(contract, w, choice);
          }
          ChoicesHeard(contract, before + [choice], choices[1..]);
        }
      } else {
        assert First(choices) == [] + First(choices[1..]) == First(choices[1..]);
        assert HandleChoice(contract, w, choice) == (w, false);
        ChoicesHeard(contract, before, choices[1..]);
      }
    }
  }

  lemma ChoicesNext(contract: Contract, w: Writer, choices: seq<Choice>)
    requires choices != []
    ensures var r := HandleChoice(contract, w, choices[0]);
            HandleChoices(contract, w, choices) == if r.1 then r.0 else HandleChoices(contract, r.0, choices[1..])
  {
    hide HandleChoice;
  }

  /** All texts before [DONE], heard from the start. */
  lemma {:induction false} TextsHeard(contract: Contract, parse: string -> Payload, texts: seq<string>)
    requires "[DONE]" !in texts
    ensures var w, a := HandleTexts(contract, parse, Begin(), texts), V.Absorb(contract, ChoicesIn(parse, texts));
            && (w.error.None? <==> !Wrong(parse, texts) && a.error.None?)
            && (w.error.None? ==> w == a)
            && !w.sawDone
  {
    if texts == [] {
      NoneWrong(parse);
    } else {
      var n := |texts| - 1;
      var before, text := texts[..n], texts[n];
      assert texts == before + [text];
      TextsHeard(contract, parse, before);
      TextsAppend(contract, parse, Begin(), before, [text]);
      OneText(contract, parse, HandleTexts(contract, parse, Begin(), before), text);
      WrongConcat(parse, before, [text]);
      WrongFails(contract, parse, HandleTexts(contract, parse, Begin(), before), text);
      PayloadKeeps(contract, HandleTexts(contract, parse, Begin(), before), parse(text));
      ChoicesInNext(parse, texts);
      hide *;
      var w, cs := HandleTexts(contract, parse, Begin(), before), ChoicesIn(parse, before);
      if parse(text).Chunk? {
        ChunkIs(contract, w, parse(text).choices);
        if w.error.None? {
          ChoicesHeard(contract, cs, parse(text).choices);
        } else if V.Absorb(contract, cs).error.Some? {
          ErrorStaysOn(contract, cs, First(parse(text).choices));
        }
      }
    }
  }

  lemma ChunkIs(contract: Contract, w: Writer, choices: seq<Choice>)
    ensures HandlePayload(contract, w, Chunk(choices)) == if w.error.Some? then w else HandleChoices(contract, w, choices)
  {
    hide HandleChoices;
  }

  lemma ChoicesInNext(parse: string -> Payload, texts: seq<string>)
    requires texts != []
    ensures var n := |texts| - 1;
            ChoicesIn(parse, texts) == if parse(texts[n]).Chunk? then ChoicesIn(parse, texts[..n]) + First(parse(texts[n]).choices) else ChoicesIn(parse, texts[..n])
  {
  }

  lemma OneText(contract: Contract, parse: string -> Payload, w: Writer, text: string)
    requires !w.sawDone && text != "[DONE]"
    ensures HandleTexts(contract, parse, w, [text]) == HandlePayload(contract, w, parse(text))
  {
    hide HandlePayload;
    assert [text][1..] == [];
    assert HandleTexts(contract, parse, HandleText(contract, parse, w, text), []) == HandleText(contract, parse, w, text);
  }

  lemma {:induction false} DoneDeaf(contract: Contract, parse: string -> Payload, w: Writer, texts: seq<string>)
    requires w.sawDone
    ensures HandleTexts(contract, parse, w, texts) == w
    decreases |texts|
  {
    if texts != [] {
      DoneDeaf(contract, parse, w, texts[1..]);
    }
  }

  /** Nothing behind the first [DONE] is heard. */
  lemma {:induction false} HeardUntil(contract: Contract, parse: string -> Payload, w: Writer, texts: seq<string>)
    requires !w.sawDone
    ensures "[DONE]" !in Until(texts)
    ensures HandleTexts(contract, parse, w, texts) == HandleTexts(contract, parse, w, Until(texts)).(sawDone := "[DONE]" in texts)
    decreases |texts|
  {
    hide HandlePayload;
    if texts == [] {
      assert w == w.(sawDone := false);
    } else if texts[0] == "[DONE]" {
      DoneDeaf(contract, parse, w.(sawDone := true), texts[1..]);
    } else {
      PayloadKeeps(contract, w, parse(texts[0]));
      HeardUntil(contract, parse, HandlePayload(contract, w, parse(texts[0])), texts[1..]);
      assert Until(texts)[1..] == Until(texts[1..]);
      assert texts == [texts[0]] + texts[1..];
    }
  }

  // ---- The outcome ----

  /** The chunks before [DONE] are no errors, and their calls are well-formed, consistent and of one form. */
  ghost predicate Clear(parse: string -> Payload, bytes: string) {
    var texts := Until(DataTexts(bytes));
    !Wrong(parse, texts) && Consistent(ChoicesIn(parse, texts))
  }

  /** The writer before the end, of a stream that is not asked early. */
  lemma StreamHeard(contract: Contract, parse: string -> Payload, bytes: string)
    ensures var w, choices := RunOps(contract, parse, [Bytes(bytes)]).writer, ChoicesIn(parse, Until(DataTexts(bytes)));
            && (w.error.None? <==> Clear(parse, bytes))
            && (Clear(parse, bytes) ==> w == V.Absorb(contract, choices).(sawDone := "[DONE]" in DataTexts(bytes)) && V.Tracks(V.Absorb(contract, choices), choices))
  {
    var texts := Until(DataTexts(bytes));
    assert RunOps(contract, parse, [Bytes(bytes)]) == Drain(contract, parse, Begin(), "" + bytes) by {
      hide Drain, Begin;
      assert [Bytes(bytes)][..0] == [];
    }
    assert "" + bytes == bytes;
    DrainHeard(contract, parse, Begin(), bytes);
    HeardUntil(contract, parse, Begin(), DataTexts(bytes));
    TextsHeard(contract, parse, texts);
    InFirsts(parse, texts);
    AbsorbExact(contract, ChoicesIn(parse, texts));
    hide RunOps, Drain, HandleTexts, V.Absorb, V.Tracks, DataTexts, Until, Consistent, ChoicesIn, Wrong;
  }

  /** What a request allows of one call. */
  predicate Callable(contract: Contract, call: V.JsonCall) {
    var arguments := if call.arguments.Some? then call.arguments.value else "";
    && call.arguments.Some? && !Blank(call.name) && (Blank(arguments) || contract.validJson(arguments))
    && (contract.policy.allowed.Some? ==> call.name in contract.policy.allowed.value)
    && (call.name in contract.policy.schemas ==> contract.policy.schemas[call.name](arguments))
  }

  /** What a request allows of a whole completion that was not cut short. */
  predicate Acceptable(contract: Contract, finish: string, content: string, refusal: string, calls: seq<V.JsonCall>) {
    && (finish == "tool_calls" || finish == "function_call" ==> calls != [])
    && (contract.forbidParallel ==> |calls| <= 1)
    && (contract.policy.mode == Never ==> calls == [])
    && (contract.policy.mode == Required ==> calls != [] || refusal != "")
    && (contract.policy.exact ==> |calls| == 1 || (calls == [] && refusal != ""))
    && (forall i :: 0 <= i < |calls| ==> Callable(contract, calls[i]))
    && (calls == [] && refusal == "" ==> contract.outputAccepts(content))
  }

  lemma ValidMeans(contract: Contract, calls: seq<V.JsonCall>, refusal: string)
    ensures (forall i :: 0 <= i < |calls| ==> Callable(contract, calls[i])) && (contract.policy.mode == Never ==> calls == [])
            && (contract.policy.mode == Required ==> calls != [] || refusal != "") && (contract.policy.exact ==> |calls| == 1 || (calls == [] && refusal != ""))
        <==> V.AllJsonValid(contract, calls) && PolicyAccepts(contract.policy, V.JsonInvocations(calls), refusal != "")
  {
    hide Blank;
    var invocations := V.JsonInvocations(calls);
    assert forall i :: 0 <= i < |calls| ==> invocations[i] == Invocation(calls[i].name, V.TextOf(calls[i].arguments));
  }

  /** The calls of a message: its modern ones, or its legacy one if that says anything. */
  predicate HasModern(m: V.Message) {
    m.tools.Calls? && m.tools.calls != []
  }

  predicate HasLegacy(m: V.Message) {
    m.legacy.FunctionCall? && (m.legacy.call.name != "" || (m.legacy.call.arguments.Some? && m.legacy.call.arguments.value != ""))
  }

  /**
   What the JSON path lets through, for any finished message: one that was cut short; or one whose call
   fields are well-formed, that does not mix the two forms of calls and that the request allows.
   */
  lemma JsonExactly(contract: Contract, finish: string, m: V.Message)
    ensures V.ValidateJson(contract, finish, m).None?
       <==> finish == "length" || finish == "content_filter"
            || (!m.tools.CallsMalformed? && !m.legacy.FunctionMalformed? && !(HasModern(m) && HasLegacy(m))
                && Acceptable(contract, finish, m.content, m.refusal, if HasModern(m) then m.tools.calls else if HasLegacy(m) then [m.legacy.call] else []))
  {
    ValidMeans(contract, V.ToolCalls(m), m.refusal);
    hide PolicyAccepts, V.AllJsonValid, V.JsonInvocations, Callable;
  }

  lemma FoldedMeans(contract: Contract, choices: seq<Choice>)
    requires V.Unmixed(choices)
    ensures V.ValidateJson(contract, V.FoldedFinish(choices), V.Fold(choices)).None?
       <==> V.FinishOf(choices) == "length" || V.FinishOf(choices) == "content_filter"
            || Acceptable(contract, V.FinishOf(choices), V.ContentOf(choices), V.RefusalOf(choices), V.ToolCalls(V.Fold(choices)))
  {
    V.ValidateFields(contract, choices);
    ValidMeans(contract, V.ToolCalls(V.Fold(choices)), V.RefusalOf(choices));
    hide V.Fold, V.ToolCalls, V.FinishOf, V.ContentOf, V.RefusalOf, V.ValidateJson, PolicyAccepts, V.AllJsonValid, V.JsonInvocations, Callable;
  }

  /** The terminal event follows the verdict on the writer. */
  lemma OutcomeIs(contract: Contract, w: Writer, log: seq<Sent>, outcome: Outcome, output: seq<Item>)
    requires Inv(contract, w) && log == Finish(contract, w).sent && EndsWith(log, outcome, output)
    ensures outcome == if Verdict(contract, w).Some? then Failed else if w.finishReason == "length" || w.finishReason == "content_filter" then Truncated else Completed
  {
    FinishLog(contract, w);
    OutcomeKept(contract, w);
    CheckCalm(contract, w);
    CheckErrs(contract, w);
    hide Inv, Closed, Finish, OutputItems, Check, Verdict, Executed, ParseAll, Numbered, Open;
  }

  lemma CheckErrs(contract: Contract, w: Writer)
    ensures Check(contract, w).error.Some? <==> Verdict(contract, w).Some?
  {
    if Verdict(contract, w).None? && !CutShort(w.finishReason) {
      AssignErrs(w, 0);
      FlushErrs(AssignIds(w, 0), 0);
    }
    hide PolicyAccepts, AllValid, AssignIds, FlushFrom;
  }

  lemma {:induction false} AssignErrs(w: Writer, i: nat)
    ensures AssignIds(w, i).error == w.error
    decreases |w.calls| - i
  {
    if i < |w.calls| {
      if w.calls[i].id != NoId {
        AssignErrs(w, i + 1);
      } else {
        AssignErrs(SetCall(w, i, w.calls[i].(id := Generated(w.minted))).(minted := w.minted + 1), i + 1);
      }
    }
  }

  lemma {:induction false} FlushErrs(w: Writer, i: nat)
    ensures FlushFrom(w, i).error == w.error
    decreases |w.calls| - i
  {
    V.FlushFromMirror(w, i);
    hide FlushFrom;
  }

  /**
   The outcome in terms of the input, however its bytes are cut: a stream that is not asked early completes,
   or is cut short, exactly if no data line before [DONE] is an error, the calls are well-formed,
   consistent and of one form, there is a completion marker, and the request allows what the chunks add up
   to, which is only asked of one that was not cut short.
   */
  lemma OutcomeExactly(contract: Contract, parse: string -> Payload, chunks: seq<string>, outcome: Outcome, output: seq<Item>)
    requires EndsWith(FinalLog(contract, parse, Writes(chunks)), outcome, output)
    ensures var bytes := Concat(chunks);
            var choices := ChoicesIn(parse, Until(DataTexts(bytes)));
            var finish := V.FinishOf(choices);
            var short := finish == "length" || finish == "content_filter";
            var ok := Clear(parse, bytes) && ("[DONE]" in DataTexts(bytes) || finish != "")
                      && (short || Acceptable(contract, finish, V.ContentOf(choices), V.RefusalOf(choices), V.ToolCalls(V.Fold(choices))));
            outcome == if !ok then Failed else if short then Truncated else Completed
  {
    hide *;
    var bytes := Concat(chunks);
    var choices, done := ChoicesIn(parse, Until(DataTexts(bytes))), "[DONE]" in DataTexts(bytes);
    ChunkIndependence(contract, parse, chunks);
    FinalLogIs(contract, parse, Writes(chunks));
    FinalLogIs(contract, parse, [Bytes(bytes)]);
    var w := RunOps(contract, parse, [Bytes(bytes)]).writer;
    RunInv(contract, parse, [Bytes(bytes)]);
    OutcomeIs(contract, w, FinalLog(contract, parse, Writes(chunks)), outcome, output);
    StreamHeard(contract, parse, bytes);
    if Clear(parse, bytes) {
      ClearMeans(parse, bytes);
      V.VerdictsAgree(contract, choices, done);
      FoldedMeans(contract, choices);
      V.TracksFields(V.Absorb(contract, choices), choices);
      ShortIs(V.FinishOf(choices));
    } else {
      V.ErrorRejects(contract, w);
    }
  }

  lemma ShortIs(finish: string)
    ensures finish == "length" || finish == "content_filter" ==> finish != ""
  {
  }

  lemma ClearMeans(parse: string -> Payload, bytes: string)
    requires Clear(parse, bytes)
    ensures var choices := ChoicesIn(parse, Until(DataTexts(bytes)));
            V.AllBenign(choices) && V.Stable(V.Fragments(choices)) && V.Stable(V.LegacyItems(V.LegacyOf(choices))) && V.Unmixed(choices)
  {
    hide V.AllBenign, V.Stable, V.Fragments, V.LegacyItems, V.LegacyOf, V.Unmixed, DataTexts, Until, ChoicesIn;
  }

  /** A check right before the end changes nothing the client sees. */
  lemma AskedAtEnd(contract: Contract, parse: string -> Payload, ops: seq<Op>)
    ensures FinalLog(contract, parse, ops + [Ask]) == FinalLog(contract, parse, ops)
  {
    var w := RunOps(contract, parse, ops).writer;
    RunInv(contract, parse, ops);
    InvLive(contract, w);
    CheckTwice(contract, w);
    RunOne(contract, parse, ops, Ask);
    ApplyAsk(contract, parse, RunOps(contract, parse, ops));
    hide RunOps, Check, Inv, CloseReasoning, CloseMessage, CloseCalls, OutputItems, Emit;
  }

  // ---- What the client is told ----

  function ReasoningOf(choices: seq<Choice>): string {
    if choices == [] then ""
    else
      var last := choices[|choices| - 1];
      ReasoningOf(choices[..|choices| - 1]) + if last.Choice? && last.delta.Some? then last.delta.value.reasoning else ""
  }

  lemma {:induction false} ReasoningHeard(contract: Contract, choices: seq<Choice>)
    requires Firsts(choices) && V.Absorb(contract, choices).error.None?
    ensures V.Absorb(contract, choices).reason == ReasoningOf(choices)
  {
    hide HandlePayload, HandleChoice;
    if choices != [] {
      var n := |choices| - 1;
      var w := V.Absorb(contract, choices[..n]);
      FirstsPrefix(choices);
      AbsorbStep(contract, choices);
      ErrorGoesOn(contract, w, choices[n]);
      ChoiceSays(contract, w, choices[n]);
      ReasoningHeard(contract, choices[..n]);
    }
  }

  /** The calls of a stream in order of first appearance, as a client is told to execute them. */
  function Streamed(items: seq<ToolItem>): (r: seq<Invocation>)
    ensures |r| == |V.KeysOf(items)|
  {
    seq(|V.KeysOf(items)|, j requires 0 <= j < |V.KeysOf(items)| =>
      Invocation(V.NameOf(items, V.KeysOf(items)[j]), V.TextOf(V.ArgumentsOfKey(items, V.KeysOf(items)[j]))))
  }

  lemma MirrorStreams(w: Writer, items: seq<ToolItem>)
    requires V.Mirrors(w, items)
    ensures Invocations(w.calls) == Streamed(items)
  {
    hide V.NameOf, V.IdOf, V.ArgumentsOfKey, V.KeysOf;
    forall j | 0 <= j < |w.calls|
      ensures Invocations(w.calls)[j] == Streamed(items)[j]
    {
      assert V.MirrorsCall(items, V.KeysOf(items)[j], w.calls[j]);
    }
  }

  predicate SameCall(before: Call, after: Call) {
    && after.name == before.name && after.arguments == before.arguments && after.custom == before.custom
    && (before.id != NoId ==> after.id == before.id)
  }

  ghost predicate SameCallsIn(w: Writer, w': Writer) {
    |w'.calls| == |w.calls| && forall j :: 0 <= j < |w.calls| ==> SameCall(w.calls[j], w'.calls[j])
  }

  lemma {:induction false} AssignIdsOnly(w: Writer, i: nat)
    ensures SameCallsIn(w, AssignIds(w, i))
    decreases |w.calls| - i
  {
    if i < |w.calls| {
      if w.calls[i].id != NoId {
        AssignIdsOnly(w, i + 1);
      } else {
        var w1 := SetCall(w, i, w.calls[i].(id := Generated(w.minted))).(minted := w.minted + 1);
        assert SameCallsIn(w, w1);
        AssignIdsOnly(w1, i + 1);
        hide AssignIds;
      }
    }
  }

  lemma FlushOneSame(w: Writer, i: nat)
    requires i < |w.calls|
    ensures SameCallsIn(w, FlushOne(w, i))
  {
    hide CallOf;
  }

  lemma {:induction false} FlushCallsSame(w: Writer, i: nat)
    ensures SameCallsIn(w, FlushFrom(w, i))
    decreases |w.calls| - i
  {
    hide FlushOne, Ready, SameCall;
    if i < |w.calls| && (w.calls[i].live || Ready(w.calls[i])) {
      var w1 := FlushOne(w, i);
      FlushOneShape(w, i);
      FlushOneSame(w, i);
      FlushCallsSame(w1, i + 1);
      SameChain(w, w1, FlushFrom(w1, i + 1));
    } else {
      SameSelf(w);
    }
  }

  lemma SameSelf(w: Writer)
    ensures SameCallsIn(w, w)
  {
  }

  lemma SameChain(w: Writer, w': Writer, w'': Writer)
    requires SameCallsIn(w, w') && SameCallsIn(w', w'')
    ensures SameCallsIn(w, w'')
  {
    forall j | 0 <= j < |w.calls|
      ensures SameCall(w.calls[j], w''.calls[j])
    {
      assert SameCall(w.calls[j], w'.calls[j]) && SameCall(w'.calls[j], w''.calls[j]);
    }
  }

  lemma CheckCallsSame(contract: Contract, w: Writer)
    ensures SameCallsIn(w, Check(contract, w))
  {
    SameSelf(w);
    assert forall error :: SameCallsIn(w, w.(error := Some(error)));
    AssignIdsOnly(w, 0);
    FlushCallsSame(AssignIds(w, 0), 0);
    hide AssignIds, FlushFrom, Verdict, SameCall;
    SameChain(w, AssignIds(w, 0), FlushFrom(AssignIds(w, 0), 0));
  }

  /** The end of the stream adds no word and changes no call. */
  lemma ClosedSays(contract: Contract, w: Writer)
    requires Inv(contract, w)
    ensures var c := Closed(contract, w);
            && DeltaText(c.sent, Summary) == w.reason && DeltaText(c.sent, OutputText) == w.text && DeltaText(c.sent, Refusal) == w.refusal
            && SameCallsIn(w, c)
  {
    ClosedShut(contract, w);
    CheckCalm(contract, w);
    CheckCallsSame(contract, w);
    var d, c := Decided(contract, w), Closed(contract, w);
    DecidedFields(contract, w);
    hide Inv, Closed, Decided, Check, Grows, Parts, Executed, DeltaText, Slots, Logged, SameCall;
    assert SameButLive(d, c);
    LiveOnly(d, c);
    SameChain(w, d, c);
    ShutVoices(contract, w, c);
  }

  lemma DecidedFields(contract: Contract, w: Writer)
    ensures var d, checked := Decided(contract, w), Check(contract, w);
            d.calls == checked.calls && d.reason == checked.reason && d.text == checked.text && d.refusal == checked.refusal
  {
    hide Check;
  }

  lemma LiveOnly(d: Writer, c: Writer)
    requires SameButLive(d, c)
    ensures SameCallsIn(d, c) && c.reason == d.reason && c.text == d.text && c.refusal == d.refusal
  {
    assert forall j :: 0 <= j < |d.calls| ==> SameCallButLive(d.calls[j], c.calls[j]);
  }

  lemma ShutVoices(contract: Contract, w: Writer, c: Writer)
    requires Shut(contract, w, c)
    ensures DeltaText(c.sent, Summary) == c.reason && DeltaText(c.sent, OutputText) == c.text && DeltaText(c.sent, Refusal) == c.refusal
  {
    hide DeltaText, Slots, Logged, Parts, Executed, Passed, Decided;
  }

  lemma SameInvocations(w: Writer, c: Writer)
    requires SameCallsIn(w, c)
    ensures Invocations(c.calls) == Invocations(w.calls)
  {
    forall j | 0 <= j < |w.calls|
      ensures Invocations(c.calls)[j] == Invocations(w.calls)[j]
    {
      assert SameCall(w.calls[j], c.calls[j]);
    }
  }

  /** What a run tells of its writer. */
  lemma LogSays(contract: Contract, w: Writer, log: seq<Sent>, outcome: Outcome, output: seq<Item>)
    requires Inv(contract, w) && log == Finish(contract, w).sent && EndsWith(log, outcome, output)
    ensures DeltaText(log, Summary) == w.reason && DeltaText(log, OutputText) == w.text && DeltaText(log, Refusal) == w.refusal
    ensures Executed(log) == if outcome == Completed then Invocations(w.calls) else []
  {
    hide Inv, Finish, Closed, OutputItems, DeltaText, Executed, OutcomeOf, Numbered, ParseAll, Open, ArgumentsText;
    FinishLog(contract, w);
    ClosedSays(contract, w);
    var c := Closed(contract, w);
    assert log[|log| - 1].event == Terminal(OutcomeOf(c), OutputItems(c));
    if outcome == Completed {
      SameInvocations(w, c);
      ShutExecutes(contract, w);
    } else {
      NotCompleted(contract, w);
    }
  }

  lemma ShutExecutes(contract: Contract, w: Writer)
    requires Inv(contract, w) && OutcomeOf(Closed(contract, w)) == Completed
    ensures Executed(Closed(contract, w).sent) == Invocations(Closed(contract, w).calls)
  {
    CompletedIsShut(contract, w);
    hide Inv, Closed, Decided, Executed, OutcomeOf;
  }

  /**
   What the client hears of a clear stream, however its bytes are cut: exactly the reasoning, text and
   refusal of the chunks, and, if the response completes, the calls of the chunks in order of first
   appearance, each with its last name and all its arguments; otherwise no call at all.
   */
  lemma StreamSays(contract: Contract, parse: string -> Payload, chunks: seq<string>, outcome: Outcome, output: seq<Item>)
    requires EndsWith(FinalLog(contract, parse, Writes(chunks)), outcome, output) && Clear(parse, Concat(chunks))
    ensures var log, choices := FinalLog(contract, parse, Writes(chunks)), ChoicesIn(parse, Until(DataTexts(Concat(chunks))));
            && DeltaText(log, Summary) == ReasoningOf(choices)
            && DeltaText(log, OutputText) == V.ContentOf(choices)
            && DeltaText(log, Refusal) == V.RefusalOf(choices)
            && Executed(log) == if outcome == Completed then Streamed(V.ItemsIn(choices)) else []
  {
    hide *;
    var bytes := Concat(chunks);
    var choices := ChoicesIn(parse, Until(DataTexts(bytes)));
    ChunkIndependence(contract, parse, chunks);
    FinalLogIs(contract, parse, Writes(chunks));
    FinalLogIs(contract, parse, [Bytes(bytes)]);
    var w, a := RunOps(contract, parse, [Bytes(bytes)]).writer, V.Absorb(contract, choices);
    RunInv(contract, parse, [Bytes(bytes)]);
    StreamHeard(contract, parse, bytes);
    LogSays(contract, w, FinalLog(contract, parse, Writes(chunks)), outcome, output);
    V.TracksFields(a, choices);
    TracksMirror(a, choices);
    V.MirrorsClean(a, V.ItemsIn(choices));
    MirrorStreams(a, V.ItemsIn(choices));
    InFirsts(parse, Until(DataTexts(bytes)));
    ReasoningHeard(contract, choices);
  }

  /** The output holds this call of the chunks. */
  ghost predicate Holds(contract: Contract, items: seq<ToolItem>, key: int, output: seq<Item>) {
    exists i :: 0 <= i < |output| && Shows(contract, items, key, output[i])
  }

  predicate Shows(contract: Contract, items: seq<ToolItem>, key: int, item: Item) {
    && item.CallItem? && item.status == Complete
    && item.name == V.NameOf(items, key) && item.arguments == V.TextOf(V.ArgumentsOfKey(items, key))
    && item.custom == (item.name in contract.customTools)
    && item.callId != NoId && (V.IdOf(items, key) != NoId ==> item.callId == V.IdOf(items, key))
  }

  lemma CallHeld(contract: Contract, w: Writer, log: seq<Sent>, output: seq<Item>, items: seq<ToolItem>, j: nat)
    requires Inv(contract, w) && log == Finish(contract, w).sent && EndsWith(log, Completed, output)
    requires V.Mirrors(w, items) && j < |V.KeysOf(items)|
    ensures Holds(contract, items, V.KeysOf(items)[j], output)
  {
    hide *;
    var c := Closed(contract, w);
    CompletedState(contract, w, log, output);
    ClosedSays(contract, w);
    MirroredCall(contract, w, c, items, j);
    CompletedIsShut(contract, w);
    CallSlot(contract, w, j);
    BegunReady(contract, w, c, j);
    CallShown(contract, items, V.KeysOf(items)[j], c.calls[j]);
    HoldsAt(contract, items, V.KeysOf(items)[j], output, c.calls[j].outIdx);
  }

  lemma HoldsAt(contract: Contract, items: seq<ToolItem>, key: int, output: seq<Item>, i: nat)
    requires i < |output| && Shows(contract, items, key, output[i])
    ensures Holds(contract, items, key, output)
  {
  }

  lemma MirroredCall(contract: Contract, w: Writer, c: Writer, items: seq<ToolItem>, j: nat)
    requires V.Mirrors(w, items) && Inv(contract, w) && SameCallsIn(w, c) && j < |V.KeysOf(items)|
    ensures j < |c.calls|
    ensures var key, call := V.KeysOf(items)[j], c.calls[j];
            && call.name == V.NameOf(items, key) && call.arguments == V.TextOf(V.ArgumentsOfKey(items, key))
            && (V.IdOf(items, key) != NoId ==> call.id == V.IdOf(items, key))
            && call.custom == (call.name != "" && call.name in contract.customTools)
  {
    hide V.NameOf, V.IdOf, V.ArgumentsOfKey, V.KeysOf, Logged, Slots, Texts, Parts, Running;
    assert V.MirrorsCall(items, V.KeysOf(items)[j], w.calls[j]);
    assert SameCall(w.calls[j], c.calls[j]) && Identified(contract, w.calls[j]);
  }

  /** A call of a completed response has a name and an id. */
  lemma BegunReady(contract: Contract, w: Writer, c: Writer, j: nat)
    requires Inv(contract, w) && Shut(contract, w, c) && AllBegun(c) && j < |c.calls|
    ensures c.calls[j].name != "" && c.calls[j].id != NoId
  {
    CheckKeeps(contract, w);
    var d := Decided(contract, w);
    DecidedFields(contract, w);
    KeyedOnly(contract, Check(contract, w));
    hide Inv, Check, Decided, Closing, Grows, Parts, Executed;
    assert SameCallButLive(d.calls[j], c.calls[j]) && c.calls[j].begun;
    assert Identified(contract, d.calls[j]);
  }

  lemma KeyedOnly(contract: Contract, w: Writer)
    requires Inv(contract, w)
    ensures forall j :: 0 <= j < |w.calls| ==> Identified(contract, w.calls[j])
  {
    hide Logged, Slots, Texts, Parts, Running, Identified;
  }

  lemma CallShown(contract: Contract, items: seq<ToolItem>, key: int, call: Call)
    requires call.name == V.NameOf(items, key) && call.arguments == V.TextOf(V.ArgumentsOfKey(items, key))
    requires V.IdOf(items, key) != NoId ==> call.id == V.IdOf(items, key)
    requires call.custom == (call.name != "" && call.name in contract.customTools) && call.name != "" && call.id != NoId
    ensures Shows(contract, items, key, CallOf(call, Complete))
  {
    hide V.NameOf, V.IdOf, V.ArgumentsOfKey;
  }

  /** In a completed response every call of the chunks is an output item, complete, under the upstream's id if it gave one. */
  lemma CallsDelivered(contract: Contract, parse: string -> Payload, chunks: seq<string>, output: seq<Item>, j: nat)
    requires EndsWith(FinalLog(contract, parse, Writes(chunks)), Completed, output) && Clear(parse, Concat(chunks))
    requires j < |V.KeysOf(V.ItemsIn(ChoicesIn(parse, Until(DataTexts(Concat(chunks))))))|
    ensures var items := V.ItemsIn(ChoicesIn(parse, Until(DataTexts(Concat(chunks))))); Holds(contract, items, V.KeysOf(items)[j], output)
  {
    hide *;
    var bytes := Concat(chunks);
    var choices := ChoicesIn(parse, Until(DataTexts(bytes)));
    ChunkIndependence(contract, parse, chunks);
    FinalLogIs(contract, parse, Writes(chunks));
    FinalLogIs(contract, parse, [Bytes(bytes)]);
    var w, a := RunOps(contract, parse, [Bytes(bytes)]).writer, V.Absorb(contract, choices);
    RunInv(contract, parse, [Bytes(bytes)]);
    StreamHeard(contract, parse, bytes);
    TracksMirror(a, choices);
    V.MirrorsFields(a, w, V.ItemsIn(choices));
    CallHeld(contract, w, FinalLog(contract, parse, Writes(chunks)), output, V.ItemsIn(choices), j);
  }
}
