/** The output of a completed response: one item for each output index, in order. */
module ResponsesOutput {
  import opened ResponseEvents
  import opened ResponsesStream
  import opened ResponsesInvariant

  // ---- Sorting by distinct indices ----

  predicate Increasing(items: seq<(nat, Item)>) {
    forall i, j :: 0 <= i < j < |items| ==> items[i].0 < items[j].0
  }

  predicate DistinctIndices(items: seq<(nat, Item)>) {
    forall i, j :: 0 <= i < j < |items| ==> items[i].0 != items[j].0
  }

  lemma {:induction false} InsertSorted(items: seq<(nat, Item)>, item: (nat, Item))
    requires Increasing(items) && forall i :: 0 <= i < |items| ==> items[i].0 != item.0
    ensures var r := InsertByIndex(items, item);
            && Increasing(r)
            && |r| == |items| + 1
            && (forall k :: 0 <= k < |r| ==> r[k] == item || r[k] in items)
  {
    if items != [] && items[|items| - 1].0 > item.0 {
      var n := |items| - 1;
      InsertSorted(items[..n], item);
      var r := InsertByIndex(items[..n], item);
      forall k | 0 <= k < |r|
        ensures r[k].0 < items[n].0
      {
        if r[k] != item {
          var i :| 0 <= i < n && items[..n][i] == r[k];
        }
      }
    }
  }

  lemma {:induction false} SortSorted(items: seq<(nat, Item)>)
    requires DistinctIndices(items)
    ensures var r := SortByIndex(items); Increasing(r) && |r| == |items| && forall k :: 0 <= k < |r| ==> r[k] in items
  {
    if items != [] {
      var n := |items| - 1;
      SortSorted(items[..n]);
      var r := SortByIndex(items[..n]);
      forall k | 0 <= k < |r|
        ensures r[k].0 != items[n].0
      {
        var i :| 0 <= i < n && items[..n][i] == r[k];
      }
      InsertSorted(r, items[n]);
    }
  }

  /** Strictly increasing indices below their number are 0, 1, 2, and so on. */
  lemma {:induction false} Dense(items: seq<(nat, Item)>, k: nat)
    requires Increasing(items) && k < |items|
    requires forall i :: 0 <= i < |items| ==> items[i].0 < |items|
    ensures items[k].0 == k
  {
    AtLeast(items, k);
    AtMost(items, k);
  }

  lemma {:induction false} AtLeast(items: seq<(nat, Item)>, k: nat)
    requires Increasing(items) && k < |items|
    ensures items[k].0 >= k
  {
    if k > 0 {
      AtLeast(items, k - 1);
    }
  }

  lemma {:induction false} AtMost(items: seq<(nat, Item)>, k: nat)
    requires Increasing(items) && k < |items|
    requires forall i :: 0 <= i < |items| ==> items[i].0 < |items|
    ensures items[k].0 <= k
    decreases |items| - k
  {
    if k < |items| - 1 {
      AtMost(items, k + 1);
    }
  }

  // ---- The items of a writer whose calls have all begun ----

  predicate AllBegun(w: Writer) {
    forall j :: 0 <= j < |w.calls| ==> w.calls[j].begun
  }

  function SlotAt(w: Writer, k: nat): int {
    var r, m := Count(Used(w, REASONING)), Count(Used(w, MESSAGE));
    if k < r then REASONING else if k < r + m then MESSAGE else k - r - m
  }

  lemma {:induction false} CallItemsAll(w: Writer, n: nat)
    requires AllBegun(w) && n <= |w.calls|
    ensures |CallItems(w, w.calls[..n])| == n
    ensures forall j :: 0 <= j < n ==> CallItems(w, w.calls[..n])[j] == (w.calls[j].outIdx, CallOf(w.calls[j], StatusOf(w)))
  {
    if n > 0 {
      CallItemsAll(w, n - 1);
      assert w.calls[..n][..n - 1] == w.calls[..n - 1];
    }
  }

  predicate ForSlot(w: Writer, item: (nat, Item), s: int) {
    Used(w, s) && item == (IndexAt(w, s), ItemAt(w, s))
  }

  lemma ItemsBySlot(w: Writer)
    requires AllBegun(w) && !w.rsOpen && !w.msgOpen
    ensures |IndexedItems(w)| == |w.calls| + Count(Used(w, REASONING)) + Count(Used(w, MESSAGE))
    ensures forall k :: 0 <= k < |IndexedItems(w)| ==> ForSlot(w, IndexedItems(w)[k], SlotAt(w, k))
  {
    CallItemsAll(w, |w.calls|);
    assert w.calls[..|w.calls|] == w.calls;
    hide StatusOf, MessageOf, CallOf;
  }

  /** Output position i holds the item that owns output index i. */
  lemma OutputBySlot(w: Writer, i: nat)
    requires Slots(w) && AllBegun(w) && !w.rsOpen && !w.msgOpen && i < |OutputItems(w)|
    ensures |OutputItems(w)| == w.nextIdx
    ensures exists s :: Used(w, s) && IndexAt(w, s) == i && OutputItems(w)[i] == ItemAt(w, s)
  {
    ItemsBySlot(w);
    var items := IndexedItems(w);
    hide IndexedItems, Open;
    assert DistinctIndices(items) by {
      forall k, l | 0 <= k < l < |items|
        ensures items[k].0 != items[l].0
      {
        assert ForSlot(w, items[k], SlotAt(w, k)) && ForSlot(w, items[l], SlotAt(w, l));
        assert Apart(w, SlotAt(w, k), SlotAt(w, l));
      }
    }
    SortSorted(items);
    var sorted := SortByIndex(items);
    forall k | 0 <= k < |sorted|
      ensures exists l :: 0 <= l < |items| && sorted[k] == items[l] && Used(w, SlotAt(w, l)) && sorted[k].0 < w.nextIdx
    {
      var l :| 0 <= l < |items| && items[l] == sorted[k];
      assert ForSlot(w, items[l], SlotAt(w, l)) && Slot(w, SlotAt(w, l));
    }
    Dense(sorted, i);
    var l :| 0 <= l < |items| && sorted[i] == items[l] && Used(w, SlotAt(w, l));
    var s := SlotAt(w, l);
    assert Used(w, s) && IndexAt(w, s) == i && OutputItems(w)[i] == ItemAt(w, s);
  }
}
