/**
 The bounded round-robin over accounts of unknown cost (internal/pool/exploration.go).

 A scope is a (realm, model) pair; the program keys its table by a digest of the pair.
 */
module Exploration {
  import opened Wrappers
  import opened Ordering

  const MAX_SCOPES := 256

  datatype Scope = Scope(realm: string, model: string)

  /** The program counts in one unsigned byte, which wraps round. */
  type uint8 = n: int | 0 <= n < 256

  function Bump(n: uint8): uint8 {
    if n == 255 then 0 else n + 1
  }

  /** How many preferred picks have passed since the last exploration, and who was explored last. */
  datatype Position = Position(preferred: uint8, cursor: string)

  datatype Slot = Slot(position: Position, touched: nat)

  /** u is the first candidate after the cursor, wrapping round to the smallest one. */
  ghost predicate IsNext(ids: set<string>, cursor: string, u: string) {
    && u in ids
    && (Less(cursor, u) || forall v :: v in ids ==> !Less(cursor, v))
    && forall v :: v in ids && (Less(cursor, u) ==> Less(cursor, v)) ==> !Less(v, u)
  }

  lemma IsNextUnique(ids: set<string>, cursor: string, u: string, v: string)
    requires IsNext(ids, cursor, u) && IsNext(ids, cursor, v)
    ensures u == v
  {
    LessTotal(u, v);
  }

  lemma {:induction false} Smallest(ids: set<string>) returns (u: string)
    requires ids != {}
    ensures u in ids && forall v :: v in ids ==> !Less(v, u)
    decreases |ids|
  {
    u :| u in ids;
    LessTotal(u, u);
    if ids != {u} {
      var w := Smallest(ids - {u});
      LessTotal(u, w);
      forall v | v in ids
        ensures !Less(v, if Less(u, w) then u else w)
      {
        if v != u && Less(u, w) && Less(v, u) {
          LessTrans(v, u, w);
        }
      }
      u := if Less(u, w) then u else w;
    }
  }

  lemma NextExists(ids: set<string>, cursor: string) returns (u: string)
    requires ids != {}
    ensures IsNext(ids, cursor, u)
  {
    var later := set v | v in ids && Less(cursor, v);
    if later == {} {
      u := Smallest(ids);
      assert forall v :: v in ids ==> v !in later;
    } else {
      u := Smallest(later);
      assert u in later;
      assert forall v :: v in ids && Less(cursor, v) ==> v in later;
    }
  }

  ghost function NextAfter(ids: set<string>, cursor: string): (u: string)
    requires ids != {}
    ensures IsNext(ids, cursor, u)
  {
    assert exists u :: IsNext(ids, cursor, u) by {
      var u := NextExists(ids, cursor);
    }
    var u :| IsNext(ids, cursor, u);
    u
  }

  /** One call in a scope: three calls in four decline, the fourth yields the next candidate. */
  ghost function Advance(p: Position, ids: set<string>): (Position, Option<string>)
    requires ids != {}
  {
    var preferred := Bump(p.preferred);
    if preferred < 4 then (Position(preferred, p.cursor), None)
    else (Position(0, NextAfter(ids, p.cursor)), Some(NextAfter(ids, p.cursor)))
  }

  ghost function PositionOf(scopes: map<Scope, Slot>, scope: Scope): Position {
    if scope in scopes then scopes[scope].position else Position(0, "")
  }

  ghost predicate IsOldest(scopes: map<Scope, Slot>, oldest: Scope) {
    oldest in scopes && forall k :: k in scopes ==> scopes[oldest].touched <= scopes[k].touched
  }

  /** What one call may do to the table of scopes: advance its own scope, evict the oldest for a new one. */
  ghost predicate Explores(before: map<Scope, Slot>, scope: Scope, ids: set<string>, pickSeq: nat,
                           after: map<Scope, Slot>, out: Option<string>) {
    && ids != {}
    && scope in after
    && after[scope].touched == pickSeq + 1
    && (after[scope].position, out) == Advance(PositionOf(before, scope), ids)
    && (if scope !in before && |before| >= MAX_SCOPES
        then exists oldest :: IsOldest(before, oldest) && after - {scope} == before - {oldest}
        else after - {scope} == before - {scope})
  }

  class CostExploration {
    var scopes: map<Scope, Slot>

    constructor ()
      ensures scopes == map[]
    {
      scopes := map[];
    }

    method EvictOldest() returns (ghost oldest: Scope)
      requires scopes != map[]
      modifies this
      ensures IsOldest(old(scopes), oldest) && scopes == old(scopes) - {oldest}
    {
      var rest := scopes.Keys;
      var best :| best in rest;
      rest := rest - {best};
      while rest != {}
        invariant rest <= scopes.Keys && best in scopes
        invariant forall k :: k in scopes && k !in rest ==> scopes[best].touched <= scopes[k].touched
        decreases rest
      {
        var k :| k in rest;
        rest := rest - {k};
        if scopes[k].touched < scopes[best].touched {
          best := k;
        }
      }
      oldest := best;
      scopes := scopes - {best};
    }

    method ExploreUnknown(unknown: seq<string>, scope: Scope, pickSeq: nat) returns (out: Option<string>)
      requires unknown != []
      modifies this
      ensures Explores(old(scopes), scope, (set u | u in unknown), pickSeq, scopes, out)
    {
      hide NextAfter, IsNext, Less;
      ghost var before := scopes;
      ghost var ids := set u | u in unknown;
      assert unknown[0] in ids;
      if scope !in scopes {
        if |scopes| >= MAX_SCOPES {
          ghost var oldest := EvictOldest();
          assert IsOldest(before, oldest);
        }
        scopes := scopes[scope := Slot(Position(0, ""), 0)];
      }
      ghost var started := scopes;
      var position := scopes[scope].position;
      var preferred := Bump(position.preferred);
      if preferred < 4 {
        scopes := scopes[scope := Slot(Position(preferred, position.cursor), pickSeq + 1)];
        assert scopes - {scope} == started - {scope};
        return None;
      }
      var next := NextCandidate(unknown, position.cursor);
      IsNextUnique(ids, position.cursor, next, NextAfter(ids, position.cursor));
      scopes := scopes[scope := Slot(Position(0, next), pickSeq + 1)];
      assert scopes - {scope} == started - {scope};
      return Some(next);
    }
  }

  /** The scan over the unknown accounts, which come in no particular order. */
  method NextCandidate(unknown: seq<string>, cursor: string) returns (u: string)
    requires unknown != []
    ensures IsNext((set v | v in unknown), cursor, u)
  {
    var next, first: Option<string> := None, None;
    for i := 0 to |unknown|
      invariant i > 0 ==> first.Some?
      invariant first.Some? ==> first.value in unknown[..i]
      invariant first.Some? ==> forall j :: 0 <= j < i ==> !Less(unknown[j], first.value)
      invariant next.Some? ==> next.value in unknown[..i] && Less(cursor, next.value)
      invariant next.Some? ==> forall j :: 0 <= j < i && Less(cursor, unknown[j]) ==> !Less(unknown[j], next.value)
      invariant next.None? ==> forall j :: 0 <= j < i ==> !Less(cursor, unknown[j])
    {
      var uid := unknown[i];
      LessTotal(uid, uid);
      if first.Some? {
        KeepsSmallest(unknown[..i], first.value, uid);
        LessTotal(uid, first.value);
      }
      if next.Some? {
        KeepsSmallest(unknown[..i], next.value, uid);
        LessTotal(uid, next.value);
      }
      if first.None? || Less(uid, first.value) {
        first := Some(uid);
      }
      if Less(cursor, uid) && (next.None? || Less(uid, next.value)) {
        next := Some(uid);
      }
    }
    u := if next.Some? then next.value else first.value;
  }

  lemma KeepsSmallest(seen: seq<string>, best: string, uid: string)
    ensures Less(uid, best) ==> forall j :: 0 <= j < |seen| && !Less(seen[j], best) ==> !Less(seen[j], uid)
  {
    forall j | 0 <= j < |seen| && Less(uid, best) && Less(seen[j], uid)
      ensures Less(seen[j], best)
    {
      LessTrans(seen[j], uid, best);
    }
  }

  // ---- Fairness inside one scope ----

  /** m consecutive calls in one scope with a fixed set of candidates: the position reached and the results. */
  ghost function Calls(p: Position, ids: set<string>, m: nat): (r: (Position, seq<Option<string>>))
    requires ids != {}
    ensures |r.1| == m
  {
    if m == 0 then (p, [])
    else
      var (q, outs) := Calls(p, ids, m - 1);
      var (q', out) := Advance(q, ids);
      (q', outs + [out])
  }

  /** The candidates in the order they are explored. */
  ghost function Turns(ids: set<string>, cursor: string, n: nat): (r: seq<string>)
    requires ids != {}
    ensures |r| == n && forall i :: 0 <= i < n ==> r[i] in ids
  {
    if n == 0 then []
    else
      var earlier := Turns(ids, cursor, n - 1);
      earlier + [NextAfter(ids, Last(earlier, cursor))]
  }

  function Last(turns: seq<string>, cursor: string): string {
    if turns == [] then cursor else turns[|turns| - 1]
  }

  lemma OneCall(p: Position, ids: set<string>, m: nat)
    requires ids != {}
    ensures var q := Calls(p, ids, m).0;
            && Calls(p, ids, m + 1).0 == Advance(q, ids).0
            && multiset(Calls(p, ids, m + 1).1) == multiset(Calls(p, ids, m).1) + multiset{Advance(q, ids).1}
  {
  }

  /** Advancing four times from a counter below four explores once and restores the counter. */
  lemma FourAdvances(q: Position, ids: set<string>)
    requires ids != {} && q.preferred < 4
    ensures var (q1, o1) := Advance(q, ids);
            var (q2, o2) := Advance(q1, ids);
            var (q3, o3) := Advance(q2, ids);
            var (q4, o4) := Advance(q3, ids);
            && q4 == Position(q.preferred, NextAfter(ids, q.cursor))
            && multiset{o1, o2, o3, o4} == multiset{None, None, None, Some(NextAfter(ids, q.cursor))}
  {
  }

  lemma FourCalls(p: Position, ids: set<string>, m: nat)
    requires ids != {} && Calls(p, ids, m).0.preferred < 4
    ensures var q := Calls(p, ids, m).0;
            var next := NextAfter(ids, q.cursor);
            && Calls(p, ids, m + 4).0 == Position(q.preferred, next)
            && multiset(Calls(p, ids, m + 4).1)
            == multiset(Calls(p, ids, m).1) + multiset{None, None, None, Some(next)}
  {
    hide *;
    OneCall(p, ids, m);
    OneCall(p, ids, m + 1);
    OneCall(p, ids, m + 2);
    OneCall(p, ids, m + 3);
    FourAdvances(Calls(p, ids, m).0, ids);
  }

  /** What 4n calls have done so far. */
  ghost predicate Block(p: Position, ids: set<string>, n: nat)
    requires ids != {}
  {
    var (q, outs) := Calls(p, ids, 4 * n);
    var turns := Turns(ids, p.cursor, n);
    && q == Position(p.preferred, Last(turns, p.cursor))
    && multiset(outs)[None] == 3 * n
    && forall u :: multiset(outs)[Some(u)] == multiset(turns)[u]
  }

  /** Four results, three of them empty, extend the counts of a block. */
  lemma BlockCounts(outs: seq<Option<string>>, more: seq<Option<string>>, turns: seq<string>, further: seq<string>, next: string, n: nat)
    requires multiset(outs)[None] == 3 * n && forall u :: multiset(outs)[Some(u)] == multiset(turns)[u]
    requires multiset(more) == multiset(outs) + multiset{None, None, None, Some(next)}
    requires multiset(further) == multiset(turns) + multiset{next}
    ensures multiset(more)[None] == 3 * (n + 1)
    ensures forall u :: multiset(more)[Some(u)] == multiset(further)[u]
  {
  }

  lemma BlockStep(p: Position, ids: set<string>, n: nat)
    requires ids != {} && p.preferred < 4 && Block(p, ids, n)
    ensures Block(p, ids, n + 1)
  {
    hide Calls, Turns, NextAfter, IsNext, Last;
    assert 4 * (n + 1) == 4 * n + 4;
    FourCalls(p, ids, 4 * n);
    OneMoreTurn(ids, p.cursor, n + 1);
    var turns, further := Turns(ids, p.cursor, n), Turns(ids, p.cursor, n + 1);
    BlockCounts(Calls(p, ids, 4 * n).1, Calls(p, ids, 4 * n + 4).1, turns, further, NextAfter(ids, Last(turns, p.cursor)), n);
  }

  lemma {:induction false} Blocks(p: Position, ids: set<string>, n: nat)
    requires ids != {} && p.preferred < 4
    ensures Block(p, ids, n)
  {
    if n > 0 {
      Blocks(p, ids, n - 1);
      BlockStep(p, ids, n - 1);
    }
  }

  lemma OneMoreTurn(ids: set<string>, cursor: string, n: nat)
    requires ids != {} && n > 0
    ensures var u := NextAfter(ids, Last(Turns(ids, cursor, n - 1), cursor));
            && multiset(Turns(ids, cursor, n)) == multiset(Turns(ids, cursor, n - 1)) + multiset{u}
            && Last(Turns(ids, cursor, n), cursor) == u
  {
  }

  ghost function Below(ids: set<string>, u: string): set<string> {
    set v | v in ids && Less(v, u)
  }

  ghost function UpTo(ids: set<string>, u: string): set<string> {
    set v | v in ids && !Less(u, v)
  }

  /** The explored candidate is the one whose rank is the number of candidates up to the cursor, cyclically. */
  lemma RankOfNext(ids: set<string>, cursor: string)
    requires ids != {}
    ensures |UpTo(ids, cursor)| <= |ids|
    ensures |Below(ids, NextAfter(ids, cursor))|
         == if |UpTo(ids, cursor)| == |ids| then 0 else |UpTo(ids, cursor)|
  {
    var u := NextAfter(ids, cursor);
    Subset(UpTo(ids, cursor), ids);
    if Less(cursor, u) {
      assert u !in UpTo(ids, cursor);
      Subset(UpTo(ids, cursor) + {u}, ids);
      forall v | v in ids
        ensures Less(v, u) <==> !Less(cursor, v)
      {
        LessTotal(cursor, v);
        if !Less(cursor, v) && v != cursor {
          LessTrans(v, cursor, u);
        }
      }
      assert Below(ids, u) == UpTo(ids, cursor);
    } else {
      assert UpTo(ids, cursor) == ids;
      assert Below(ids, u) == {};
    }
  }

  lemma RankStep(ids: set<string>, u: string)
    requires u in ids
    ensures |UpTo(ids, u)| == |Below(ids, u)| + 1
  {
    LessTotal(u, u);
    forall v | v in ids
      ensures !Less(u, v) <==> Less(v, u) || v == u
    {
      LessTotal(u, v);
    }
    assert UpTo(ids, u) == Below(ids, u) + {u};
  }

  lemma {:induction false} Subset<T>(a: set<T>, b: set<T>)
    requires a <= b
    ensures |a| <= |b|
    ensures |a| == |b| ==> a == b
    decreases a
  {
    if x :| x in a {
      Subset(a - {x}, b - {x});
    } else if y :| y in b {
      assert |b| >= |{y}| + |b - {y}|;
    }
  }

  /** Cyclic successor of a rank. */
  function Shift(start: nat, j: nat, n: nat): nat
    requires 0 < n && start < n && j < n
  {
    if start + j < n then start + j else start + j - n
  }

  lemma {:induction false} TurnRanks(ids: set<string>, cursor: string, n: nat)
    requires ids != {} && n <= |ids|
    ensures var start := if |UpTo(ids, cursor)| == |ids| then 0 else |UpTo(ids, cursor)|;
            && start < |ids|
            && forall j :: 0 <= j < n ==> |Below(ids, Turns(ids, cursor, n)[j])| == Shift(start, j, |ids|)
  {
    RankOfNext(ids, cursor);
    if n > 0 {
      TurnRanks(ids, cursor, n - 1);
      var earlier := Turns(ids, cursor, n - 1);
      RankOfNext(ids, Last(earlier, cursor));
      if n > 1 {
        RankStep(ids, Last(earlier, cursor));
      }
    }
  }

  /** A full round of turns visits every candidate exactly once. */
  lemma RoundVisitsAll(ids: set<string>, cursor: string, u: string)
    requires ids != {}
    ensures multiset(Turns(ids, cursor, |ids|))[u] == if u in ids then 1 else 0
  {
    var turns := Turns(ids, cursor, |ids|);
    TurnRanks(ids, cursor, |ids|);
    forall i, j | 0 <= i < j < |turns|
      ensures turns[i] != turns[j]
    {
    }
    DistinctSeq(turns);
    Subset((set v | v in turns), ids);
  }

  lemma {:induction false} DistinctSeq(s: seq<string>)
    requires forall i, j :: 0 <= i < j < |s| ==> s[i] != s[j]
    ensures |set v | v in s| == |s|
    ensures forall v :: multiset(s)[v] == if v in s then 1 else 0
  {
    if s != [] {
      var front := s[..|s| - 1];
      var last := s[|s| - 1];
      assert s == front + [last];
      DistinctSeq(front);
      assert (set v | v in s) == (set v | v in front) + {last};
      assert last !in front;
    }
  }

  /**
   Among any 4n consecutive calls with the same n candidates, every candidate comes up exactly once
   and 3n calls decline, wherever the cursor and the counter start.
   */
  lemma Fairness(p: Position, ids: set<string>)
    requires ids != {} && p.preferred < 4
    ensures var outs := multiset(Calls(p, ids, 4 * |ids|).1);
            && outs[None] == 3 * |ids|
            && forall u :: outs[Some(u)] == if u in ids then 1 else 0
  {
    Blocks(p, ids, |ids|);
    forall u: string
      ensures multiset(Turns(ids, p.cursor, |ids|))[u] == if u in ids then 1 else 0
    {
      RoundVisitsAll(ids, p.cursor, u);
    }
  }

  // ---- Whole histories, with other scopes interleaved ----

  datatype Call = Call(scope: Scope, ids: set<string>, pickSeq: nat, out: Option<string>)

  ghost predicate History(tables: seq<map<Scope, Slot>>, calls: seq<Call>) {
    && |tables| == |calls| + 1
    && forall i :: 0 <= i < |calls| ==>
         Explores(tables[i], calls[i].scope, calls[i].ids, calls[i].pickSeq, tables[i + 1], calls[i].out)
  }

  function Outputs(calls: seq<Call>, scope: Scope): seq<Option<string>> {
    if calls == [] then []
    else
      var rest := Outputs(calls[..|calls| - 1], scope);
      if calls[|calls| - 1].scope == scope then rest + [calls[|calls| - 1].out] else rest
  }

  lemma {:induction false} ScopeIsolated(tables: seq<map<Scope, Slot>>, calls: seq<Call>, scope: Scope, ids: set<string>)
    requires History(tables, calls) && ids != {}
    requires forall i :: 0 <= i < |tables| ==> scope in tables[i]
    requires forall i :: 0 <= i < |calls| && calls[i].scope == scope ==> calls[i].ids == ids
    ensures var outs := Outputs(calls, scope);
            (tables[|calls|][scope].position, outs) == Calls(tables[0][scope].position, ids, |outs|)
    decreases |calls|
  {
    if calls != [] {
      var n := |calls| - 1;
      assert forall i :: 0 <= i < n ==> calls[..n][i] == calls[i] && tables[..n + 1][i + 1] == tables[i + 1];
      ScopeIsolated(tables[..n + 1], calls[..n], scope, ids);
      var call := calls[n];
      assert Explores(tables[n], call.scope, call.ids, call.pickSeq, tables[n + 1], call.out);
      if call.scope != scope {
        assert tables[n + 1][scope] == (tables[n + 1] - {call.scope})[scope];
      }
    }
  }

  /** Fairness of a scope that stays in the table, however calls for other scopes are interleaved. */
  lemma InterleavedFairness(tables: seq<map<Scope, Slot>>, calls: seq<Call>, scope: Scope, ids: set<string>)
    requires History(tables, calls) && ids != {}
    requires forall i :: 0 <= i < |tables| ==> scope in tables[i]
    requires forall i :: 0 <= i < |calls| && calls[i].scope == scope ==> calls[i].ids == ids
    requires tables[0][scope].position.preferred < 4
    requires |Outputs(calls, scope)| == 4 * |ids|
    ensures var outs := multiset(Outputs(calls, scope));
            && outs[None] == 3 * |ids|
            && forall u :: outs[Some(u)] == if u in ids then 1 else 0
  {
    ScopeIsolated(tables, calls, scope, ids);
    Fairness(tables[0][scope].position, ids);
  }

  ghost predicate CountersSmall(table: map<Scope, Slot>) {
    |table| <= MAX_SCOPES && forall k :: k in table ==> table[k].position.preferred < 4
  }

  lemma WithoutKey<V>(m: map<Scope, V>, k: Scope)
    ensures |m - {k}| == if k in m then |m| - 1 else |m|
    ensures forall j :: j in m && j != k ==> j in m - {k} && (m - {k})[j] == m[j]
  {
    assert (m - {k}).Keys == m.Keys - {k};
    assert |m| == |m.Keys| && |m - {k}| == |(m - {k}).Keys|;
  }

  lemma TableStep(before: map<Scope, Slot>, call: Call, after: map<Scope, Slot>)
    requires CountersSmall(before)
    requires Explores(before, call.scope, call.ids, call.pickSeq, after, call.out)
    ensures CountersSmall(after)
  {
    var gone := call.scope;
    if call.scope !in before && |before| >= MAX_SCOPES {
      gone :| IsOldest(before, gone) && after - {call.scope} == before - {gone};
    }
    WithoutKey(after, call.scope);
    WithoutKey(before, gone);
    forall k | k in after && k != call.scope
      ensures after[k].position.preferred < 4
    {
      assert k in before - {gone};
    }
    assert PositionOf(before, call.scope).preferred < 4;
  }

  /** In every history the table never exceeds 256 scopes, and every counter stays below four. */
  lemma {:induction false} TableBounded(tables: seq<map<Scope, Slot>>, calls: seq<Call>, i: nat)
    requires History(tables, calls) && CountersSmall(tables[0]) && i < |tables|
    ensures CountersSmall(tables[i])
  {
    if i > 0 {
      TableBounded(tables, calls, i - 1);
      TableStep(tables[i - 1], calls[i - 1], tables[i]);
    }
  }
}
