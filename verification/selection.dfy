/**
 Account selection (internal/pool/pick.go) over the eligibility rules of internal/pool/entry.go.

 Times count from an arbitrary start; 0 is the zero time. Weights come from weightOf as positive or
 negative reals; the random source and the shuffle are parameters.
 */
module Selection {
  import opened Wrappers
  import opened Ordering
  import opened Exploration

  const MIN_PICK_GAP := 100_000_000
  const MODEL_COST_TTL := 21_600_000_000_000
  const SHORT_LIST := 5
  const SCALE := 1_000_000.0

  datatype CoolKind = CoolHard | CoolSoft

  datatype Cost = Cost(per1k: real, lastSeen: nat)

  datatype Account = Account(
    realm: string, disabled: bool, coolKind: CoolKind, until: nat, breakerUntil: nat,
    modelCooldowns: map<string, nat>, modelCost: map<string, Cost>,
    credits: int, inFlight: int, lastUsed: nat, usedSeq: nat)

  datatype Request = Request(tried: set<string>, model: string, realm: string, now: nat)

  // ---- Eligibility ----

  predicate Pending(until: nat, now: nat) {
    until != 0 && now < until
  }

  predicate Healthy(e: Account, now: nat) {
    !e.disabled && !Pending(e.until, now) && !Pending(e.breakerUntil, now)
  }

  predicate ModelCooled(e: Account, now: nat, model: string) {
    model != "" && model in e.modelCooldowns && Pending(e.modelCooldowns[model], now)
  }

  predicate HealthyFor(e: Account, now: nat, model: string) {
    Healthy(e, now) && !ModelCooled(e, now, model)
  }

  predicate Full(maxInFlight: int, e: Account) {
    maxInFlight > 0 && e.inFlight >= maxInFlight
  }

  /** Exclusions that no selection path may cross. */
  predicate Admissible(accounts: map<string, Account>, maxInFlight: int, req: Request, uid: string) {
    && uid in accounts
    && uid !in req.tried
    && (req.realm != "" ==> accounts[uid].realm == req.realm)
    && !Full(maxInFlight, accounts[uid])
  }

  predicate Eligible(accounts: map<string, Account>, maxInFlight: int, req: Request, uid: string) {
    Admissible(accounts, maxInFlight, req, uid) && HealthyFor(accounts[uid], req.now, req.model)
  }

  /** The earliest cooldown or breaker deadline still running; 0 when there is none. */
  function Expiry(e: Account, now: nat): nat {
    if Pending(e.until, now) && (!Pending(e.breakerUntil, now) || e.until <= e.breakerUntil) then e.until
    else if Pending(e.breakerUntil, now) then e.breakerUntil
    else 0
  }

  /** Who may serve as a last resort: cooling, but not out of credit, disabled or cooled for this model. */
  predicate Fallback(accounts: map<string, Account>, maxInFlight: int, req: Request, uid: string) {
    && Admissible(accounts, maxInFlight, req, uid)
    && !accounts[uid].disabled
    && !ModelCooled(accounts[uid], req.now, req.model)
    && !(accounts[uid].coolKind == CoolHard && Pending(accounts[uid].until, req.now))
    && Expiry(accounts[uid], req.now) != 0
  }

  function Prune(e: Account, now: nat): Account {
    e.(modelCooldowns := map m | m in e.modelCooldowns && Pending(e.modelCooldowns[m], now) :: e.modelCooldowns[m])
  }

  function PruneAll(accounts: map<string, Account>, now: nat): map<string, Account> {
    map uid | uid in accounts :: Prune(accounts[uid], now)
  }

  /** Dropping expired model cooldowns changes nobody's standing. */
  lemma PruneKeepsStanding(accounts: map<string, Account>, maxInFlight: int, req: Request, uid: string)
    ensures Eligible(PruneAll(accounts, req.now), maxInFlight, req, uid) <==> Eligible(accounts, maxInFlight, req, uid)
    ensures Fallback(PruneAll(accounts, req.now), maxInFlight, req, uid) <==> Fallback(accounts, maxInFlight, req, uid)
    ensures uid in accounts ==> Expiry(PruneAll(accounts, req.now)[uid], req.now) == Expiry(accounts[uid], req.now)
  {
    if uid in accounts {
      assert ModelCooled(Prune(accounts[uid], req.now), req.now, req.model) <==> ModelCooled(accounts[uid], req.now, req.model);
    }
  }

  // ---- Cost tiers and weights ----

  predicate Observed(e: Account, model: string, now: nat) {
    model != "" && model in e.modelCost && e.modelCost[model].lastSeen != 0 && now - e.modelCost[model].lastSeen <= MODEL_COST_TTL
  }

  /** 0: known to be free; 1: unknown; 2: known to cost. */
  function Tier(e: Account, req: Request): int {
    if !Observed(e, req.model, req.now) then 1 else if e.modelCost[req.model].per1k <= 0.0 then 0 else 2
  }

  function Price(e: Account, req: Request): real {
    if Tier(e, req) == 2 then e.modelCost[req.model].per1k else 0.0
  }

  datatype Weighted = Weighted(uid: string, weight: real, tier: int, price: real)

  /** The order of the short list: cheapest, then heaviest, then by account id. */
  predicate Before(a: Weighted, b: Weighted) {
    if a.price != b.price then a.price < b.price
    else if a.weight != b.weight then a.weight > b.weight
    else Less(a.uid, b.uid)
  }

  lemma BeforeTrans(a: Weighted, b: Weighted, c: Weighted)
    requires Before(a, b) && Before(b, c)
    ensures Before(a, c)
  {
    if a.price == b.price == c.price && a.weight == b.weight == c.weight {
      LessTrans(a.uid, b.uid, c.uid);
    }
  }

  lemma BeforeTotal(a: Weighted, b: Weighted)
    ensures !(Before(a, b) && Before(b, a))
    ensures a.uid != b.uid ==> Before(a, b) || Before(b, a)
  {
    LessTotal(a.uid, b.uid);
  }

  predicate Ordered(ws: seq<Weighted>) {
    forall i, j :: 0 <= i < j < |ws| ==> Before(ws[i], ws[j])
  }

  predicate DistinctIds(ws: seq<Weighted>) {
    forall i, j :: 0 <= i < j < |ws| ==> ws[i].uid != ws[j].uid
  }

  /** The library's stable sort, as insertion. */
  function Insert(ws: seq<Weighted>, w: Weighted): seq<Weighted> {
    if ws == [] then [w]
    else if Before(w, ws[|ws| - 1]) then Insert(ws[..|ws| - 1], w) + [ws[|ws| - 1]]
    else ws + [w]
  }

  function Arrange(ws: seq<Weighted>): seq<Weighted> {
    if ws == [] then [] else Insert(Arrange(ws[..|ws| - 1]), ws[|ws| - 1])
  }

  lemma {:induction false} InsertKeeps(ws: seq<Weighted>, w: Weighted)
    ensures multiset(Insert(ws, w)) == multiset(ws) + multiset{w}
  {
    if ws != [] && Before(w, ws[|ws| - 1]) {
      var n := |ws| - 1;
      InsertKeeps(ws[..n], w);
      assert ws == ws[..n] + [ws[n]];
    }
  }

  lemma {:induction false} InsertOrders(ws: seq<Weighted>, w: Weighted)
    requires Ordered(ws) && forall i :: 0 <= i < |ws| ==> ws[i].uid != w.uid
    ensures Ordered(Insert(ws, w))
  {
    if ws != [] {
      var n := |ws| - 1;
      BeforeTotal(w, ws[n]);
      if Before(w, ws[n]) {
        InsertOrders(ws[..n], w);
        InsertKeeps(ws[..n], w);
        var r := Insert(ws[..n], w);
        forall i | 0 <= i < |r|
          ensures Before(r[i], ws[n])
        {
          assert r[i] in multiset(r);
          assert r[i] in ws[..n] || r[i] == w;
        }
      } else {
        forall i | 0 <= i < n
          ensures Before(ws[i], w)
        {
          BeforeTrans(ws[i], ws[n], w);
        }
      }
    }
  }

  lemma {:induction false} ArrangeKeeps(ws: seq<Weighted>)
    ensures multiset(Arrange(ws)) == multiset(ws)
  {
    if ws != [] {
      var n := |ws| - 1;
      ArrangeKeeps(ws[..n]);
      InsertKeeps(Arrange(ws[..n]), ws[n]);
      assert ws == ws[..n] + [ws[n]];
    }
  }

  lemma {:induction false} ArrangeOrders(ws: seq<Weighted>)
    requires DistinctIds(ws)
    ensures Ordered(Arrange(ws)) && |Arrange(ws)| == |ws|
    ensures forall w :: w in Arrange(ws) <==> w in ws
  {
    ArrangeKeeps(ws);
    assert |multiset(Arrange(ws))| == |multiset(ws)|;
    assert forall w :: w in Arrange(ws) <==> w in multiset(Arrange(ws));
    if ws != [] {
      var n := |ws| - 1;
      ArrangeOrders(ws[..n]);
      var r := Arrange(ws[..n]);
      forall i | 0 <= i < |r|
        ensures r[i].uid != ws[n].uid
      {
        assert r[i] in ws[..n];
      }
      InsertOrders(r, ws[n]);
    }
  }

  lemma FirstSame(a: seq<Weighted>, b: seq<Weighted>)
    requires Ordered(a) && Ordered(b) && multiset(a) == multiset(b) && a != []
    ensures |b| == |a| && a[0] == b[0]
  {
    assert |multiset(a)| == |multiset(b)|;
    assert a[0] in multiset(b) && b[0] in multiset(a);
    BeforeTotal(a[0], b[0]);
    hide Before;
    assert a[0] in b && b[0] in a;
  }

  lemma {:induction false} OrderedUnique(a: seq<Weighted>, b: seq<Weighted>)
    requires Ordered(a) && Ordered(b) && multiset(a) == multiset(b)
    ensures a == b
    decreases |a|
  {
    assert |multiset(a)| == |multiset(b)|;
    if a != [] {
      FirstSame(a, b);
      hide Before;
      assert a == [a[0]] + a[1..] && b == [b[0]] + b[1..];
      assert multiset(a[1..]) == multiset(a) - multiset{a[0]};
      assert multiset(b[1..]) == multiset(b) - multiset{b[0]};
      OrderedUnique(a[1..], b[1..]);
    }
  }

  /**
   Shuffling before the sort, which is meant to vary the short list among equal weights, never
   changes it: the sort's last key is the account id, so the sorted list does not depend on the input order.
   */
  lemma ShuffleIrrelevant(ws: seq<Weighted>, shuffled: seq<Weighted>)
    requires DistinctIds(ws) && DistinctIds(shuffled) && multiset(shuffled) == multiset(ws)
    ensures Arrange(shuffled) == Arrange(ws)
  {
    ArrangeKeeps(ws);
    ArrangeKeeps(shuffled);
    ArrangeOrders(ws);
    ArrangeOrders(shuffled);
    OrderedUnique(Arrange(shuffled), Arrange(ws));
  }

  lemma ShuffledDistinct(ws: seq<Weighted>, shuffled: seq<Weighted>)
    requires DistinctIds(ws) && multiset(shuffled) == multiset(ws)
    ensures DistinctIds(shuffled)
  {
    forall i, j | 0 <= i < j < |shuffled|
      ensures shuffled[i].uid != shuffled[j].uid
    {
      if shuffled[i].uid == shuffled[j].uid {
        SameIdSameEntry(ws, shuffled, i, j);
        Twice(shuffled, i, j);
        OnceEach(ws, shuffled[i]);
      }
    }
  }

  lemma SameIdSameEntry(ws: seq<Weighted>, shuffled: seq<Weighted>, i: nat, j: nat)
    requires DistinctIds(ws) && multiset(shuffled) == multiset(ws)
    requires i < |shuffled| && j < |shuffled| && shuffled[i].uid == shuffled[j].uid
    ensures shuffled[i] == shuffled[j]
  {
    assert shuffled[i] in multiset(shuffled) && shuffled[j] in multiset(shuffled);
    assert shuffled[i] in ws && shuffled[j] in ws;
  }

  lemma Twice(ws: seq<Weighted>, i: nat, j: nat)
    requires i < j < |ws| && ws[i] == ws[j]
    ensures multiset(ws)[ws[i]] >= 2
  {
    assert ws == ws[..j] + ws[j..];
    assert ws[i] in ws[..j] && ws[j] == ws[j..][0] && ws[j] in ws[j..];
    assert multiset(ws) == multiset(ws[..j]) + multiset(ws[j..]);
  }

  lemma {:induction false} OnceEach(ws: seq<Weighted>, w: Weighted)
    requires DistinctIds(ws)
    ensures multiset(ws)[w] <= 1
  {
    if ws != [] {
      var n := |ws| - 1;
      OnceEach(ws[..n], w);
      assert ws == ws[..n] + [ws[n]];
      if ws[n] == w {
        assert w !in ws[..n];
      }
    }
  }

  // ---- The weighted draw ----

  /** Fixed-point weight, at least one. */
  function Fixed(weight: real): (n: nat)
    ensures n >= 1
  {
    var scaled := weight * SCALE + 0.5;
    if scaled < 1.0 then 1 else scaled.Floor
  }

  function Total(weights: seq<nat>): nat {
    if weights == [] then 0 else Total(weights[..|weights| - 1]) + weights[|weights| - 1]
  }

  function FixedWeights(ws: seq<Weighted>): (r: seq<nat>)
    ensures |r| == |ws|
  {
    seq(|ws|, i requires 0 <= i < |ws| => Fixed(ws[i].weight))
  }

  /** The random values that draw candidate i: an interval of exactly weights[i] values. */
  predicate Draws(weights: seq<nat>, r: int, i: int) {
    0 <= i < |weights| && Total(weights[..i]) <= r < Total(weights[..i]) + weights[i]
  }

  lemma {:induction false} TotalGrows(weights: seq<nat>, i: nat, j: nat)
    requires i <= j <= |weights|
    ensures Total(weights[..i]) <= Total(weights[..j])
    decreases j
  {
    if i < j {
      TotalGrows(weights, i, j - 1);
      assert weights[..j][..j - 1] == weights[..j - 1];
    }
  }

  /** The intervals cover every random value exactly once. */
  lemma DrawExact(weights: seq<nat>, r: int) returns (i: nat)
    requires 0 <= r < Total(weights)
    ensures Draws(weights, r, i)
    ensures forall j :: Draws(weights, r, j) ==> j == i
  {
    assert weights[..|weights|] == weights;
    i := FindInterval(weights, r, |weights|);
    forall j | 0 <= j < |weights|
      ensures Draws(weights, r, j) ==> j == i
    {
      if j < i {
        IntervalsFollow(weights, j, i);
      } else if i < j {
        IntervalsFollow(weights, i, j);
      }
    }
  }

  lemma IntervalsFollow(weights: seq<nat>, i: nat, j: nat)
    requires i < j < |weights|
    ensures Total(weights[..i]) + weights[i] <= Total(weights[..j])
  {
    TotalGrows(weights, i + 1, j);
    assert weights[..i + 1][..i] == weights[..i];
  }

  lemma {:induction false} FindInterval(weights: seq<nat>, r: int, n: nat) returns (i: nat)
    requires n <= |weights| && 0 <= r < Total(weights[..n])
    ensures Draws(weights, r, i)
  {
    assert weights[..n][..n - 1] == weights[..n - 1];
    if Total(weights[..n - 1]) <= r {
      i := n - 1;
    } else {
      i := FindInterval(weights, r, n - 1);
    }
  }

  /** pickWeighted: the draw by accumulated weights. */
  method PickWeighted(cands: seq<Weighted>, random: nat -> nat) returns (i: nat)
    requires cands != []
    requires forall total: nat :: total > 0 ==> random(total) < total
    ensures i < |cands|
    ensures Draws(FixedWeights(cands), random(Total(FixedWeights(cands))), i)
  {
    var weights: seq<nat>, total := [], 0;
    for k := 0 to |cands|
      invariant weights == FixedWeights(cands)[..k]
      invariant total == Total(weights) >= k
    {
      var w := Fixed(cands[k].weight);
      assert (weights + [w])[..k] == weights;
      weights := weights + [w];
      total := total + w;
    }
    assert weights == FixedWeights(cands);
    var r := random(total);
    var acc := 0;
    assert weights[..|cands|] == weights;
    i := 0;
    while i < |cands|
      invariant i <= |cands| && acc == Total(weights[..i]) <= r
    {
      assert weights[..i + 1][..i] == weights[..i];
      acc := acc + weights[i];
      if r < acc {
        return;
      }
      i := i + 1;
    }
  }

  // ---- The pool ----

  /** How a choice came about; the sequences are the ordered candidates of the cheapest tier. */
  datatype Route = Explored | Drawn(sorted: seq<Weighted>) | LeastRecent(sorted: seq<Weighted>) | LastResort | Nobody

  /** The cheapest tier among the eligible accounts. */
  predicate BestTier(accounts: map<string, Account>, maxInFlight: int, req: Request, tier: int) {
    && (exists uid :: uid in accounts && Eligible(accounts, maxInFlight, req, uid) && Tier(accounts[uid], req) == tier)
    && (forall uid :: uid in accounts && Eligible(accounts, maxInFlight, req, uid) ==> tier <= Tier(accounts[uid], req))
  }

  predicate Rested(e: Account, now: nat) {
    e.lastUsed == 0 || now - e.lastUsed >= MIN_PICK_GAP
  }

  function ShortList(sorted: seq<Weighted>): seq<Weighted> {
    if |sorted| > SHORT_LIST then sorted[..SHORT_LIST] else sorted
  }

  type Weigher = (Account, int, nat) -> real

  /** The common base of all weights: the largest balance among every eligible account, whatever its tier. */
  ghost predicate CreditCap(accounts: map<string, Account>, maxInFlight: int, req: Request, cap: int) {
    && cap >= 0
    && (forall uid :: uid in accounts && Eligible(accounts, maxInFlight, req, uid) ==> accounts[uid].credits <= cap)
    && (cap == 0 || exists uid :: uid in accounts && Eligible(accounts, maxInFlight, req, uid) && accounts[uid].credits == cap)
  }

  /** sorted lists exactly the eligible accounts of a tier, each once, weighed, in preference order. */
  ghost predicate Ranked(accounts: map<string, Account>, maxInFlight: int, req: Request, weightOf: Weigher, cap: int, tier: int, sorted: seq<Weighted>) {
    && Ordered(sorted)
    && (forall i :: 0 <= i < |sorted| ==> InTier(accounts, maxInFlight, req, tier, sorted[i].uid))
    && (forall i :: 0 <= i < |sorted| ==> IsWeighed(accounts, req, weightOf, cap, tier, sorted[i]))
    && (forall uid :: InTier(accounts, maxInFlight, req, tier, uid) ==> exists i :: 0 <= i < |sorted| && sorted[i].uid == uid)
  }

  predicate InTier(accounts: map<string, Account>, maxInFlight: int, req: Request, tier: int, uid: string) {
    Eligible(accounts, maxInFlight, req, uid) && Tier(accounts[uid], req) == tier
  }

  /** The accounts of the short list that were not used a moment ago, in order. */
  function RestedOf(accounts: map<string, Account>, now: nat, ws: seq<Weighted>): (r: seq<Weighted>)
    ensures forall i :: 0 <= i < |r| ==> r[i] in ws && r[i].uid in accounts && Rested(accounts[r[i].uid], now)
    ensures forall w :: w in ws && w.uid in accounts && Rested(accounts[w.uid], now) ==> w in r
  {
    if ws == [] then []
    else
      var n := |ws| - 1;
      RestedOf(accounts, now, ws[..n]) + if ws[n].uid in accounts && Rested(accounts[ws[n].uid], now) then [ws[n]] else []
  }

  /** Candidate i of the rested short list owns the random value. */
  predicate DrawnFrom(rested: seq<Weighted>, random: nat -> nat, i: int, r: Option<string>) {
    && 0 <= i < |rested|
    && r == Some(rested[i].uid)
    && Draws(FixedWeights(rested), random(Total(FixedWeights(rested))), i)
  }

  ghost predicate LeastRecentIn(accounts: map<string, Account>, maxInFlight: int, req: Request, tier: int, uid: string) {
    && InTier(accounts, maxInFlight, req, tier, uid)
    && (forall u :: u in accounts && InTier(accounts, maxInFlight, req, tier, u) ==> accounts[uid].usedSeq <= accounts[u].usedSeq)
  }

  /** The selection rules, one case for each route. */
  ghost predicate Chosen(accounts: map<string, Account>, maxInFlight: int, req: Request, weightOf: Weigher, random: nat -> nat, route: Route, r: Option<string>) {
    match route
    case Explored =>
      && r.Some? && BestTier(accounts, maxInFlight, req, 0) && InTier(accounts, maxInFlight, req, 1, r.value)
    case Drawn(sorted) =>
      exists cap, tier, i ::
        && CreditCap(accounts, maxInFlight, req, cap)
        && BestTier(accounts, maxInFlight, req, tier) && Ranked(accounts, maxInFlight, req, weightOf, cap, tier, sorted)
        && DrawnFrom(RestedOf(accounts, req.now, ShortList(sorted)), random, i, r)
    case LeastRecent(sorted) =>
      exists cap, tier ::
        && CreditCap(accounts, maxInFlight, req, cap)
        && BestTier(accounts, maxInFlight, req, tier) && Ranked(accounts, maxInFlight, req, weightOf, cap, tier, sorted)
        && RestedOf(accounts, req.now, ShortList(sorted)) == []
        && r.Some? && LeastRecentIn(accounts, maxInFlight, req, tier, r.value)
    case LastResort =>
      && (forall uid :: !Eligible(accounts, maxInFlight, req, uid))
      && r.Some? && r.value in accounts && Fallback(accounts, maxInFlight, req, r.value)
      && Earliest(accounts, maxInFlight, req, r.value, {})
    case Nobody =>
      && r.None?
      && (forall uid :: !Eligible(accounts, maxInFlight, req, uid) && !Fallback(accounts, maxInFlight, req, uid))
  }

  /**
   What the selection promises: never a tried, foreign or full account; if any account is eligible an
   eligible one, from the cheapest tier present, or an account of unknown cost explored beside a free
   one; otherwise a fallback with the earliest deadline; and nothing exactly when neither kind exists.
   */
  ghost predicate Promised(accounts: map<string, Account>, maxInFlight: int, req: Request, r: Option<string>) {
    && (r.Some? ==> Admissible(accounts, maxInFlight, req, r.value))
    && (r.None? <==> forall uid :: !Eligible(accounts, maxInFlight, req, uid) && !Fallback(accounts, maxInFlight, req, uid))
    && ((exists uid :: Eligible(accounts, maxInFlight, req, uid)) ==>
          && r.Some? && Eligible(accounts, maxInFlight, req, r.value)
          && (BestTier(accounts, maxInFlight, req, Tier(accounts[r.value], req))
              || (BestTier(accounts, maxInFlight, req, 0) && Tier(accounts[r.value], req) == 1)))
    && ((forall uid :: !Eligible(accounts, maxInFlight, req, uid)) && r.Some? ==>
          && Fallback(accounts, maxInFlight, req, r.value)
          && forall uid :: uid in accounts && Fallback(accounts, maxInFlight, req, uid) ==> Expiry(accounts[r.value], req.now) <= Expiry(accounts[uid], req.now))
  }

  /** Every route keeps the promise on the accounts it chose from. */
  lemma ChosenPromised(accounts: map<string, Account>, maxInFlight: int, req: Request, weightOf: Weigher, random: nat -> nat, route: Route, r: Option<string>)
    requires Chosen(accounts, maxInFlight, req, weightOf, random, route, r)
    ensures Promised(accounts, maxInFlight, req, r)
  {
    match route
    case Explored =>
    case Drawn(sorted) =>
      var short := ShortList(sorted);
      assert forall w :: w in short ==> w in sorted;
      assert r.value in accounts;
    case LeastRecent(sorted) =>
    case LastResort =>
    case Nobody =>
  }

  lemma PruneKeepsTier(accounts: map<string, Account>, maxInFlight: int, req: Request, tier: int)
    ensures BestTier(PruneAll(accounts, req.now), maxInFlight, req, tier) <==> BestTier(accounts, maxInFlight, req, tier)
  {
    var pruned := PruneAll(accounts, req.now);
    forall uid: string
      ensures Eligible(pruned, maxInFlight, req, uid) <==> Eligible(accounts, maxInFlight, req, uid)
      ensures uid in accounts ==> uid in pruned && Tier(pruned[uid], req) == Tier(accounts[uid], req)
    {
      PruneKeepsStanding(accounts, maxInFlight, req, uid);
    }
    hide Eligible, Tier;
    assert pruned.Keys == accounts.Keys;
    if BestTier(accounts, maxInFlight, req, tier) {
      var uid :| uid in accounts && Eligible(accounts, maxInFlight, req, uid) && Tier(accounts[uid], req) == tier;
      assert uid in pruned;
    }
  }

  /** Whatever a selection over the pruned accounts chooses keeps the promise on the accounts as they were. */
  lemma SelectionCorrect(accounts: map<string, Account>, maxInFlight: int, req: Request, weightOf: Weigher, random: nat -> nat, route: Route, r: Option<string>)
    requires Chosen(PruneAll(accounts, req.now), maxInFlight, req, weightOf, random, route, r)
    ensures Promised(accounts, maxInFlight, req, r)
  {
    var pruned := PruneAll(accounts, req.now);
    ChosenPromised(pruned, maxInFlight, req, weightOf, random, route, r);
    forall uid: string
      ensures Eligible(pruned, maxInFlight, req, uid) <==> Eligible(accounts, maxInFlight, req, uid)
      ensures Fallback(pruned, maxInFlight, req, uid) <==> Fallback(accounts, maxInFlight, req, uid)
      ensures Admissible(pruned, maxInFlight, req, uid) <==> Admissible(accounts, maxInFlight, req, uid)
      ensures uid in accounts <==> uid in pruned
      ensures uid in accounts ==> Expiry(pruned[uid], req.now) == Expiry(accounts[uid], req.now) && Tier(pruned[uid], req) == Tier(accounts[uid], req)
    {
      PruneKeepsStanding(accounts, maxInFlight, req, uid);
    }
    PruneKeepsTier(accounts, maxInFlight, req, 0);
    if r.Some? && r.value in accounts {
      PruneKeepsTier(accounts, maxInFlight, req, Tier(accounts[r.value], req));
    }
    if r.Some? {
      AdmissibleKnown(accounts, maxInFlight, req, r.value);
    }
    hide Chosen, Eligible, Fallback, Tier, BestTier, Expiry, PruneAll, Admissible;
  }

  lemma AdmissibleKnown(accounts: map<string, Account>, maxInFlight: int, req: Request, uid: string)
    ensures Admissible(accounts, maxInFlight, req, uid) ==> uid in accounts
  {
  }

  // ---- The promise in terms of the accounts' fields ----

  /** No path may send this request to the account. */
  predicate Barred(e: Account, uid: string, maxInFlight: int, req: Request) {
    || uid in req.tried
    || (req.realm != "" && e.realm != req.realm)
    || (maxInFlight > 0 && e.inFlight >= maxInFlight)
    || e.disabled
    || (req.model != "" && req.model in e.modelCooldowns && req.now < e.modelCooldowns[req.model])
  }

  /** It may serve the request at once. */
  predicate Usable(e: Account, uid: string, maxInFlight: int, req: Request) {
    !Barred(e, uid, maxInFlight, req) && e.until <= req.now && e.breakerUntil <= req.now
  }

  /** It cools or its breaker is open, but it is not out of credit. */
  predicate Waiting(e: Account, uid: string, maxInFlight: int, req: Request) {
    && !Barred(e, uid, maxInFlight, req)
    && (req.now < e.until || req.now < e.breakerUntil)
    && !(req.now < e.until && e.coolKind == CoolHard)
  }

  /** Every deadline of b still running is no earlier than one of a. */
  predicate NoLater(a: Account, b: Account, now: nat) {
    && (now < b.until ==> now < a.until <= b.until || now < a.breakerUntil <= b.until)
    && (now < b.breakerUntil ==> now < a.until <= b.breakerUntil || now < a.breakerUntil <= b.breakerUntil)
  }

  /** What the model cost on this account within the last six hours, if anything is known. */
  predicate Costs(e: Account, req: Request, free: bool) {
    && req.model != "" && req.model in e.modelCost
    && e.modelCost[req.model].lastSeen != 0 && req.now <= e.modelCost[req.model].lastSeen + 6 * 3600 * 1_000_000_000
    && (e.modelCost[req.model].per1k <= 0.0) == free
  }

  ghost predicate SomeUsable(accounts: map<string, Account>, maxInFlight: int, req: Request) {
    exists uid :: uid in accounts && Usable(accounts[uid], uid, maxInFlight, req)
  }

  ghost predicate UsableFree(accounts: map<string, Account>, maxInFlight: int, req: Request) {
    exists uid :: uid in accounts && Usable(accounts[uid], uid, maxInFlight, req) && Costs(accounts[uid], req, true)
  }

  ghost predicate UsableUnknown(accounts: map<string, Account>, maxInFlight: int, req: Request) {
    exists uid :: uid in accounts && Usable(accounts[uid], uid, maxInFlight, req) && !Costs(accounts[uid], req, true) && !Costs(accounts[uid], req, false)
  }

  /**
   If an account may serve at once, one that may is chosen: beside a free one never one known to cost, and
   beside one of unknown cost never one known to cost. Otherwise one whose deadline no other precedes, and
   none exactly if nobody waits either.
   */
  ghost predicate Serves(accounts: map<string, Account>, maxInFlight: int, req: Request, r: Option<string>) {
    if SomeUsable(accounts, maxInFlight, req) then
      && r.Some? && r.value in accounts && Usable(accounts[r.value], r.value, maxInFlight, req)
      && (UsableFree(accounts, maxInFlight, req) || UsableUnknown(accounts, maxInFlight, req) ==> !Costs(accounts[r.value], req, false))
      && (!UsableFree(accounts, maxInFlight, req) ==> !Costs(accounts[r.value], req, true))
    else
      && (r.None? <==> forall uid :: uid in accounts ==> !Waiting(accounts[uid], uid, maxInFlight, req))
      && (r.Some? ==>
            && r.value in accounts && Waiting(accounts[r.value], r.value, maxInFlight, req)
            && forall uid :: uid in accounts && Waiting(accounts[uid], uid, maxInFlight, req) ==> NoLater(accounts[r.value], accounts[uid], req.now))
  }

  lemma StandingMeans(accounts: map<string, Account>, maxInFlight: int, req: Request, uid: string)
    ensures Eligible(accounts, maxInFlight, req, uid) <==> uid in accounts && Usable(accounts[uid], uid, maxInFlight, req)
    ensures Fallback(accounts, maxInFlight, req, uid) <==> uid in accounts && Waiting(accounts[uid], uid, maxInFlight, req)
  {
  }

  lemma ExpiryMeans(a: Account, b: Account, now: nat)
    requires Expiry(a, now) != 0 && Expiry(b, now) != 0
    ensures Expiry(a, now) <= Expiry(b, now) <==> NoLater(a, b, now)
  {
  }

  lemma TierMeans(e: Account, req: Request)
    ensures Tier(e, req) == if Costs(e, req, true) then 0 else if Costs(e, req, false) then 2 else 1
    ensures Costs(e, req, false) ==> Price(e, req) == e.modelCost[req.model].per1k
    ensures !Costs(e, req, false) ==> Price(e, req) == 0.0
  {
  }

  lemma PromiseServes(accounts: map<string, Account>, maxInFlight: int, req: Request, r: Option<string>)
    requires Promised(accounts, maxInFlight, req, r)
    ensures Serves(accounts, maxInFlight, req, r)
  {
    forall uid: string
      ensures Eligible(accounts, maxInFlight, req, uid) <==> uid in accounts && Usable(accounts[uid], uid, maxInFlight, req)
      ensures Fallback(accounts, maxInFlight, req, uid) <==> uid in accounts && Waiting(accounts[uid], uid, maxInFlight, req)
    {
      StandingMeans(accounts, maxInFlight, req, uid);
    }
    forall uid | uid in accounts
      ensures Tier(accounts[uid], req) == if Costs(accounts[uid], req, true) then 0 else if Costs(accounts[uid], req, false) then 2 else 1
    {
      TierMeans(accounts[uid], req);
    }
    if r.Some? && !SomeUsable(accounts, maxInFlight, req) {
      forall uid | uid in accounts && Waiting(accounts[uid], uid, maxInFlight, req)
        ensures NoLater(accounts[r.value], accounts[uid], req.now)
      {
        FallbackExpires(accounts, maxInFlight, req, uid);
        FallbackExpires(accounts, maxInFlight, req, r.value);
        ExpiryMeans(accounts[r.value], accounts[uid], req.now);
      }
    }
    hide Eligible, Fallback, Tier, Usable, Waiting, Costs, NoLater, Expiry, Admissible;
  }

  lemma FallbackExpires(accounts: map<string, Account>, maxInFlight: int, req: Request, uid: string)
    requires Fallback(accounts, maxInFlight, req, uid)
    ensures uid in accounts && Expiry(accounts[uid], req.now) != 0
  {
  }

  // ---- The short list in terms of price and weight ----

  /** Cheapest first; at one price heaviest first; at one price and weight by account id. */
  ghost predicate Preferred(sorted: seq<Weighted>) {
    forall i, j :: 0 <= i < j < |sorted| ==>
      && sorted[i].price <= sorted[j].price
      && (sorted[i].price == sorted[j].price ==> sorted[i].weight >= sorted[j].weight)
      && (sorted[i].price == sorted[j].price && sorted[i].weight == sorted[j].weight ==> Less(sorted[i].uid, sorted[j].uid))
  }

  lemma OrderPrefers(sorted: seq<Weighted>)
    requires Ordered(sorted)
    ensures Preferred(sorted)
  {
    forall i, j | 0 <= i < j < |sorted|
      ensures sorted[i].price <= sorted[j].price
      ensures sorted[i].price == sorted[j].price ==> sorted[i].weight >= sorted[j].weight
      ensures sorted[i].price == sorted[j].price && sorted[i].weight == sorted[j].weight ==> Less(sorted[i].uid, sorted[j].uid)
    {
      assert Before(sorted[i], sorted[j]);
    }
  }

  /** The price that orders an account: what the model is known to cost on it, otherwise nothing. */
  function KnownPrice(e: Account, req: Request): real {
    if Costs(e, req, false) then e.modelCost[req.model].per1k else 0.0
  }

  predicate OnList(list: seq<Weighted>, uid: string) {
    exists i :: 0 <= i < |list| && list[i].uid == uid
  }

  /** Of the tier, the list holds the best five, or all: nobody left off is cheaper, or heavier at the same price, than anybody on it. */
  ghost predicate BestFive(accounts: map<string, Account>, maxInFlight: int, req: Request, weightOf: Weigher, cap: int, tier: int, list: seq<Weighted>) {
    && (forall i :: 0 <= i < |list| ==>
          && InTier(accounts, maxInFlight, req, tier, list[i].uid) && list[i].uid in accounts
          && list[i].weight == weightOf(accounts[list[i].uid], cap, req.now) && list[i].price == KnownPrice(accounts[list[i].uid], req))
    && (forall i, j :: 0 <= i < j < |list| ==> list[i].uid != list[j].uid)
    && |list| <= 5
    && (forall uid :: InTier(accounts, maxInFlight, req, tier, uid) && uid in accounts && !OnList(list, uid) ==>
          && |list| == 5
          && forall i :: 0 <= i < |list| ==>
               && list[i].price <= KnownPrice(accounts[uid], req)
               && (list[i].price == KnownPrice(accounts[uid], req) ==> list[i].weight >= weightOf(accounts[uid], cap, req.now)))
  }

  lemma ShortListBest(accounts: map<string, Account>, maxInFlight: int, req: Request, weightOf: Weigher, cap: int, tier: int, sorted: seq<Weighted>)
    requires Ranked(accounts, maxInFlight, req, weightOf, cap, tier, sorted)
    ensures BestFive(accounts, maxInFlight, req, weightOf, cap, tier, ShortList(sorted))
  {
    var list := ShortList(sorted);
    forall i | 0 <= i < |sorted|
      ensures sorted[i].uid in accounts && sorted[i].weight == weightOf(accounts[sorted[i].uid], cap, req.now)
      ensures sorted[i].uid in accounts && sorted[i].price == KnownPrice(accounts[sorted[i].uid], req)
    {
      assert IsWeighed(accounts, req, weightOf, cap, tier, sorted[i]);
      TierMeans(accounts[sorted[i].uid], req);
    }
    hide IsWeighed, Tier, Costs, Eligible;
    OrderPrefers(sorted);
    forall i, j | 0 <= i < j < |list|
      ensures list[i].uid != list[j].uid
    {
      SortedApart(sorted, i, j);
    }
    hide Ordered, KnownPrice;
    forall uid | InTier(accounts, maxInFlight, req, tier, uid) && uid in accounts && !OnList(list, uid)
      ensures |list| == 5
      ensures forall i :: 0 <= i < |list| ==>
               && list[i].price <= KnownPrice(accounts[uid], req)
               && (list[i].price == KnownPrice(accounts[uid], req) ==> list[i].weight >= weightOf(accounts[uid], cap, req.now))
    {
      var k :| 0 <= k < |sorted| && sorted[k].uid == uid;
      Listed(sorted, list, k);
    }
    hide Eligible, InTier, Tier, Costs, KnownPrice, IsWeighed, Before;
  }

  lemma Listed(sorted: seq<Weighted>, list: seq<Weighted>, k: nat)
    requires list <= sorted && k < |sorted|
    ensures k < |list| ==> OnList(list, sorted[k].uid)
  {
    if k < |list| {
      assert list[k] == sorted[k];
    }
  }

  lemma RankedPrefers(accounts: map<string, Account>, maxInFlight: int, req: Request, weightOf: Weigher, cap: int, tier: int, sorted: seq<Weighted>)
    requires Ranked(accounts, maxInFlight, req, weightOf, cap, tier, sorted)
    ensures Preferred(sorted)
    ensures forall i :: 0 <= i < |sorted| ==>
              sorted[i].uid in accounts && sorted[i].price == KnownPrice(accounts[sorted[i].uid], req) && sorted[i].weight == weightOf(accounts[sorted[i].uid], cap, req.now)
  {
    OrderPrefers(sorted);
    forall i | 0 <= i < |sorted|
      ensures sorted[i].uid in accounts && sorted[i].price == KnownPrice(accounts[sorted[i].uid], req) && sorted[i].weight == weightOf(accounts[sorted[i].uid], cap, req.now)
    {
      assert IsWeighed(accounts, req, weightOf, cap, tier, sorted[i]);
      TierMeans(accounts[sorted[i].uid], req);
    }
  }

  lemma SortedApart(sorted: seq<Weighted>, i: nat, j: nat)
    requires Ordered(sorted) && i < j < |sorted|
    requires sorted[i].uid == sorted[j].uid ==> sorted[i].price == sorted[j].price && sorted[i].weight == sorted[j].weight
    ensures sorted[i].uid != sorted[j].uid
  {
    assert Before(sorted[i], sorted[j]);
    LessTotal(sorted[i].uid, sorted[j].uid);
  }

  /** Somebody on the list was not picked within the last 100 ms. */
  ghost predicate SomeRested(accounts: map<string, Account>, now: nat, list: seq<Weighted>) {
    exists i :: 0 <= i < |list| && list[i].uid in accounts && (accounts[list[i].uid].lastUsed == 0 || accounts[list[i].uid].lastUsed + 100_000_000 <= now)
  }

  /**
   What a draw or its fallback does, in terms of the best five of the tier: if one of them was not picked
   within the last 100 ms, such a one is drawn; otherwise the least recently picked of the whole tier is.
   */
  ghost predicate DrawnFairly(accounts: map<string, Account>, maxInFlight: int, req: Request, weightOf: Weigher, route: Route, r: Option<string>) {
    route.Drawn? || route.LeastRecent? ==>
      exists cap, tier, list ::
        && CreditCap(accounts, maxInFlight, req, cap) && BestTier(accounts, maxInFlight, req, tier)
        && BestFive(accounts, maxInFlight, req, weightOf, cap, tier, list)
        && (route.Drawn? <==> SomeRested(accounts, req.now, list))
        && r.Some? && r.value in accounts
        && (route.Drawn? ==> OnList(list, r.value) && (accounts[r.value].lastUsed == 0 || accounts[r.value].lastUsed + 100_000_000 <= req.now))
        && (route.LeastRecent? ==> forall u :: u in accounts && InTier(accounts, maxInFlight, req, tier, u) ==> accounts[r.value].usedSeq <= accounts[u].usedSeq)
  }

  lemma ChosenFairly(accounts: map<string, Account>, maxInFlight: int, req: Request, weightOf: Weigher, random: nat -> nat, route: Route, r: Option<string>)
    requires Chosen(accounts, maxInFlight, req, weightOf, random, route, r)
    ensures DrawnFairly(accounts, maxInFlight, req, weightOf, route, r)
  {
    hide Eligible, InTier, Tier, CreditCap, BestTier, Ranked, BestFive, Draws, FixedWeights, Total, ShortList;
    match route
    case Drawn(sorted) =>
      var cap, tier, i :| CreditCap(accounts, maxInFlight, req, cap)
        && BestTier(accounts, maxInFlight, req, tier) && Ranked(accounts, maxInFlight, req, weightOf, cap, tier, sorted)
        && DrawnFrom(RestedOf(accounts, req.now, ShortList(sorted)), random, i, r);
      var list := ShortList(sorted);
      ShortListBest(accounts, maxInFlight, req, weightOf, cap, tier, sorted);
      var w := RestedOf(accounts, req.now, list)[i];
      assert w in list;
      var j :| 0 <= j < |list| && list[j] == w;
      RestedSome(accounts, req.now, list);
      assert OnList(list, r.value);
    case LeastRecent(sorted) =>
      var cap, tier :| CreditCap(accounts, maxInFlight, req, cap)
        && BestTier(accounts, maxInFlight, req, tier) && Ranked(accounts, maxInFlight, req, weightOf, cap, tier, sorted)
        && RestedOf(accounts, req.now, ShortList(sorted)) == []
        && r.Some? && LeastRecentIn(accounts, maxInFlight, req, tier, r.value);
      ShortListBest(accounts, maxInFlight, req, weightOf, cap, tier, sorted);
      RestedSome(accounts, req.now, ShortList(sorted));
      TierIn(accounts, maxInFlight, req, tier, r.value);
    case _ =>
  }

  lemma TierIn(accounts: map<string, Account>, maxInFlight: int, req: Request, tier: int, uid: string)
    requires InTier(accounts, maxInFlight, req, tier, uid)
    ensures uid in accounts
  {
  }

  lemma RestedSome(accounts: map<string, Account>, now: nat, list: seq<Weighted>)
    ensures RestedOf(accounts, now, list) != [] <==> SomeRested(accounts, now, list)
  {
    var rested := RestedOf(accounts, now, list);
    if rested != [] {
      assert rested[0] in list;
    }
    if i :| 0 <= i < |list| && list[i].uid in accounts && (accounts[list[i].uid].lastUsed == 0 || accounts[list[i].uid].lastUsed + 100_000_000 <= now) {
      assert list[i] in rested;
    }
  }

  /** The fixed-point weight rounds a million times the weight to the nearest integer, but is at least one. */
  lemma FixedRounds(weight: real)
    ensures var n := Fixed(weight) as real;
            if weight * 1_000_000.0 < 0.5 then n == 1.0 else weight * 1_000_000.0 - 0.5 < n <= weight * 1_000_000.0 + 0.5
  {
  }

  // ---- What a selection does to the exploration table ----

  /** A free account is there to be used and one of unknown cost to be explored. */
  ghost predicate Explorable(accounts: map<string, Account>, maxInFlight: int, req: Request) {
    BestTier(accounts, maxInFlight, req, 0) && exists uid :: InTier(accounts, maxInFlight, req, 1, uid)
  }

  ghost predicate UnknownOnes(accounts: map<string, Account>, maxInFlight: int, req: Request, ids: set<string>) {
    forall uid :: uid in ids <==> InTier(accounts, maxInFlight, req, 1, uid)
  }

  /**
   On every route: if there is something to explore, the scope of the request takes one turn among all
   eligible accounts of unknown cost, which names the account chosen or declines; otherwise the table stays.
   */
  ghost predicate ExplorationStep(accounts: map<string, Account>, maxInFlight: int, req: Request, pickSeq: nat, route: Route, r: Option<string>,
                                  before: map<Scope, Slot>, after: map<Scope, Slot>) {
    if Explorable(accounts, maxInFlight, req) then
      exists ids :: UnknownOnes(accounts, maxInFlight, req, ids)
        && Explores(before, Scope(req.realm, req.model), ids, pickSeq, after, if route.Explored? then r else None)
    else
      after == before && !route.Explored?
  }

  /** One selection of a run, over the accounts it saw. */
  datatype Turn = Turn(accounts: map<string, Account>, req: Request, pickSeq: nat, route: Route, r: Option<string>)

  ghost predicate PickRun(tables: seq<map<Scope, Slot>>, turns: seq<Turn>, maxInFlight: int) {
    && |tables| == |turns| + 1
    && forall i :: 0 <= i < |turns| ==> TurnStep(turns[i], maxInFlight, tables[i], tables[i + 1])
  }

  ghost predicate TurnStep(t: Turn, maxInFlight: int, before: map<Scope, Slot>, after: map<Scope, Slot>) {
    ExplorationStep(t.accounts, maxInFlight, t.req, t.pickSeq, t.route, t.r, before, after)
  }

  ghost predicate TakesTurn(t: Turn, maxInFlight: int, scope: Scope) {
    Scope(t.req.realm, t.req.model) == scope && Explorable(t.accounts, maxInFlight, t.req)
  }

  /** What the turns of one scope explored: an account, or nobody. */
  ghost function Explorations(turns: seq<Turn>, maxInFlight: int, scope: Scope): seq<Option<string>> {
    if turns == [] then []
    else
      var n := |turns| - 1;
      Explorations(turns[..n], maxInFlight, scope)
      + if TakesTurn(turns[n], maxInFlight, scope) then [OutOf(turns[n])] else []
  }

  lemma SameUnknown(t: Turn, maxInFlight: int, ids: set<string>, others: set<string>)
    requires UnknownOnes(t.accounts, maxInFlight, t.req, ids) && UnknownOnes(t.accounts, maxInFlight, t.req, others)
    ensures ids == others
  {
    hide InTier;
  }

  function OutOf(t: Turn): Option<string> {
    if t.route.Explored? then t.r else None
  }

  /** A selection advances its own scope if it has something to explore, and leaves a scope that stays otherwise alone. */
  lemma TurnMoves(t: Turn, maxInFlight: int, before: map<Scope, Slot>, after: map<Scope, Slot>, scope: Scope, ids: set<string>)
    requires TurnStep(t, maxInFlight, before, after) && ids != {} && scope in before && scope in after
    requires TakesTurn(t, maxInFlight, scope) ==> UnknownOnes(t.accounts, maxInFlight, t.req, ids)
    ensures if TakesTurn(t, maxInFlight, scope) then (after[scope].position, OutOf(t)) == Advance(before[scope].position, ids)
            else after[scope].position == before[scope].position
  {
    hide Explorable, UnknownOnes, Advance;
    if Explorable(t.accounts, maxInFlight, t.req) {
      var own := Scope(t.req.realm, t.req.model);
      var unknown :| UnknownOnes(t.accounts, maxInFlight, t.req, unknown) && Explores(before, own, unknown, t.pickSeq, after, OutOf(t));
      if own == scope {
        SameUnknown(t, maxInFlight, unknown, ids);
      } else {
        assert after[scope] == (after - {own})[scope];
      }
    }
  }

  lemma {:induction false} TurnsIsolated(tables: seq<map<Scope, Slot>>, turns: seq<Turn>, maxInFlight: int, scope: Scope, ids: set<string>)
    requires PickRun(tables, turns, maxInFlight) && ids != {}
    requires forall i :: 0 <= i < |tables| ==> scope in tables[i]
    requires forall i :: 0 <= i < |turns| && TakesTurn(turns[i], maxInFlight, scope) ==> UnknownOnes(turns[i].accounts, maxInFlight, turns[i].req, ids)
    ensures var outs := Explorations(turns, maxInFlight, scope);
            (tables[|turns|][scope].position, outs) == Calls(tables[0][scope].position, ids, |outs|)
    decreases |turns|
  {
    hide TurnStep, TakesTurn, UnknownOnes, Advance;
    if turns != [] {
      var n := |turns| - 1;
      assert forall i :: 0 <= i < n ==> turns[..n][i] == turns[i] && tables[..n + 1][i + 1] == tables[i + 1];
      TurnsIsolated(tables[..n + 1], turns[..n], maxInFlight, scope, ids);
      TurnMoves(turns[n], maxInFlight, tables[n], tables[n + 1], scope, ids);
      var earlier := Explorations(turns[..n], maxInFlight, scope);
      if TakesTurn(turns[n], maxInFlight, scope) {
        assert Explorations(turns, maxInFlight, scope) == earlier + [OutOf(turns[n])];
      } else {
        assert Explorations(turns, maxInFlight, scope) == earlier + [] == earlier;
      }
    }
  }

  /**
   Exploration is fair over runs of selections: while a scope stays in the table and the same n accounts
   are of unknown cost, any 4n selections that find something to explore explore each of them exactly
   once, and use a free account the other 3n times, whatever else is selected in between.
   */
  lemma SelectionsExploreFairly(tables: seq<map<Scope, Slot>>, turns: seq<Turn>, maxInFlight: int, scope: Scope, ids: set<string>)
    requires PickRun(tables, turns, maxInFlight) && ids != {}
    requires forall i :: 0 <= i < |tables| ==> scope in tables[i]
    requires forall i :: 0 <= i < |turns| && TakesTurn(turns[i], maxInFlight, scope) ==> UnknownOnes(turns[i].accounts, maxInFlight, turns[i].req, ids)
    requires tables[0][scope].position.preferred < 4
    requires |Explorations(turns, maxInFlight, scope)| == 4 * |ids|
    ensures var outs := multiset(Explorations(turns, maxInFlight, scope));
            && outs[None] == 3 * |ids|
            && forall u :: outs[Some(u)] == if u in ids then 1 else 0
  {
    TurnsIsolated(tables, turns, maxInFlight, scope, ids);
    Fairness(tables[0][scope].position, ids);
  }

  // ---- The object ----

  function WithPick(accounts: map<string, Account>, uid: string, now: nat, seqNo: nat): map<string, Account>
    requires uid in accounts
  {
    accounts[uid := accounts[uid].(lastUsed := now, usedSeq := seqNo)]
  }

  /** The marks a selection leaves: the last resort keeps the sequence number. */
  function Marked(accounts: map<string, Account>, route: Route, r: Option<string>, now: nat, pickSeq: nat): (map<string, Account>, nat)
    requires r.Some? ==> r.value in accounts
  {
    if r.None? then (accounts, pickSeq)
    else if route.LastResort? then (accounts[r.value := accounts[r.value].(lastUsed := now)], pickSeq)
    else (WithPick(accounts, r.value, now, pickSeq + 1), pickSeq + 1)
  }

  /** The marks in plain terms: expired model cooldowns go, the account chosen was used now, and takes the next number unless it was the last resort. */
  lemma MarksLeft(before: map<string, Account>, maxInFlight: int, req: Request, weightOf: Weigher, random: nat -> nat, route: Route, r: Option<string>, pickSeq: nat)
    requires Chosen(PruneAll(before, req.now), maxInFlight, req, weightOf, random, route, r) && (r.Some? ==> r.value in before)
    ensures var (after, seqNo) := Marked(PruneAll(before, req.now), route, r, req.now, pickSeq);
            && after.Keys == before.Keys
            && (forall uid :: uid in after ==>
                  && after[uid] == before[uid].(modelCooldowns := after[uid].modelCooldowns, lastUsed := after[uid].lastUsed, usedSeq := after[uid].usedSeq)
                  && (forall m :: m in after[uid].modelCooldowns <==> m in before[uid].modelCooldowns && req.now < before[uid].modelCooldowns[m])
                  && (r != Some(uid) ==> after[uid].lastUsed == before[uid].lastUsed && after[uid].usedSeq == before[uid].usedSeq))
            && (r.Some? ==> after[r.value].lastUsed == req.now)
            && (r.Some? && SomeUsable(before, maxInFlight, req) ==> after[r.value].usedSeq == seqNo == pickSeq + 1)
            && (!SomeUsable(before, maxInFlight, req) ==> seqNo == pickSeq && (r.Some? ==> after[r.value].usedSeq == before[r.value].usedSeq))
  {
    LastOnlyIfNone(before, maxInFlight, req, weightOf, random, route, r);
    PrunedFields(before, req.now);
    assert r.Some? ==> r.value in PruneAll(before, req.now);
    MarkedFields(PruneAll(before, req.now), route, r, req.now, pickSeq);
    hide PruneAll, Chosen, SomeUsable, Marked;
  }

  lemma MarkedFields(accounts: map<string, Account>, route: Route, r: Option<string>, now: nat, pickSeq: nat)
    requires r.Some? ==> r.value in accounts
    ensures var (after, seqNo) := Marked(accounts, route, r, now, pickSeq);
            && after.Keys == accounts.Keys
            && (forall uid :: uid in after ==>
                  && after[uid] == accounts[uid].(lastUsed := after[uid].lastUsed, usedSeq := after[uid].usedSeq)
                  && (r != Some(uid) ==> after[uid] == accounts[uid]))
            && (r.Some? ==> after[r.value].lastUsed == now)
            && (r.Some? && !route.LastResort? ==> after[r.value].usedSeq == seqNo == pickSeq + 1)
            && (r.None? || route.LastResort? ==> seqNo == pickSeq && (r.Some? ==> after[r.value].usedSeq == accounts[r.value].usedSeq))
  {
  }

  lemma PrunedFields(before: map<string, Account>, now: nat)
    ensures var pruned := PruneAll(before, now);
            && pruned.Keys == before.Keys
            && forall uid :: uid in before ==>
                 && pruned[uid] == before[uid].(modelCooldowns := pruned[uid].modelCooldowns)
                 && forall m :: m in pruned[uid].modelCooldowns <==> m in before[uid].modelCooldowns && now < before[uid].modelCooldowns[m]
  {
  }

  lemma LastOnlyIfNone(before: map<string, Account>, maxInFlight: int, req: Request, weightOf: Weigher, random: nat -> nat, route: Route, r: Option<string>)
    requires Chosen(PruneAll(before, req.now), maxInFlight, req, weightOf, random, route, r)
    ensures route.LastResort? || route.Nobody? <==> !SomeUsable(before, maxInFlight, req)
    ensures r.None? ==> route.Nobody?
  {
    var pruned := PruneAll(before, req.now);
    forall uid: string
      ensures Eligible(pruned, maxInFlight, req, uid) <==> uid in before && Usable(before[uid], uid, maxInFlight, req)
    {
      PruneKeepsStanding(before, maxInFlight, req, uid);
      StandingMeans(before, maxInFlight, req, uid);
    }
    hide Eligible, Usable, PruneAll, Fallback, Tier, Ranked, CreditCap, DrawnFrom, RestedOf, ShortList;
  }

  /** Sequence numbers are distinct and never ahead of the counter, so least recent is well defined. */
  predicate Sequenced(accounts: map<string, Account>, pickSeq: nat) {
    && (forall uid :: uid in accounts ==> accounts[uid].usedSeq <= pickSeq)
    && (forall u, v :: u in accounts && v in accounts && u != v && accounts[u].usedSeq == accounts[v].usedSeq ==> accounts[u].usedSeq == 0)
  }

  lemma MarkedSequenced(accounts: map<string, Account>, route: Route, r: Option<string>, now: nat, pickSeq: nat)
    requires Sequenced(accounts, pickSeq) && (r.Some? ==> r.value in accounts)
    ensures Sequenced(Marked(accounts, route, r, now, pickSeq).0, Marked(accounts, route, r, now, pickSeq).1)
  {
  }

  class Pool {
    var accounts: map<string, Account>
    var pickSeq: nat
    const maxInFlight: int
    const exploration: CostExploration
    const weightOf: Weigher
    const random: nat -> nat
    const shuffle: seq<Weighted> -> seq<Weighted>

    /** What is assumed of the random source and the shuffle. */
    ghost predicate Sources() {
      && (forall total: nat :: total > 0 ==> random(total) < total)
      && (forall ws :: multiset(shuffle(ws)) == multiset(ws))
    }

    constructor (accounts: map<string, Account>, maxInFlight: int, exploration: CostExploration,
                 weightOf: Weigher, random: nat -> nat, shuffle: seq<Weighted> -> seq<Weighted>)
      ensures this.accounts == accounts && pickSeq == 0 && this.maxInFlight == maxInFlight && this.exploration == exploration
      ensures this.weightOf == weightOf && this.random == random && this.shuffle == shuffle
    {
      this.accounts, pickSeq, this.maxInFlight, this.exploration := accounts, 0, maxInFlight, exploration;
      this.weightOf, this.random, this.shuffle := weightOf, random, shuffle;
    }

    method PruneExpired(now: nat)
      modifies this`accounts
      ensures accounts == PruneAll(old(accounts), now)
    {
      var rest := accounts.Keys;
      while rest != {}
        invariant accounts.Keys == old(accounts).Keys && rest <= accounts.Keys
        invariant forall uid :: uid in accounts ==> accounts[uid] == if uid in rest then old(accounts)[uid] else Prune(old(accounts)[uid], now)
        decreases |rest|
      {
        var uid :| uid in rest;
        rest := rest - {uid};
        accounts := accounts[uid := Prune(accounts[uid], now)];
      }
    }

    /** The eligible accounts, in whatever order the map yields them. */
    method Candidates(req: Request) returns (cands: seq<string>)
      ensures forall uid :: uid in cands <==> Eligible(accounts, maxInFlight, req, uid)
      ensures forall i, j :: 0 <= i < j < |cands| ==> cands[i] != cands[j]
    {
      cands := [];
      var rest := accounts.Keys;
      while rest != {}
        invariant rest <= accounts.Keys
        invariant forall uid :: uid in cands <==> Eligible(accounts, maxInFlight, req, uid) && uid !in rest
        invariant forall i, j :: 0 <= i < j < |cands| ==> cands[i] != cands[j]
        decreases |rest|
      {
        var uid :| uid in rest;
        rest := rest - {uid};
        var e := accounts[uid];
        if uid in req.tried || (req.realm != "" && e.realm != req.realm) || !HealthyFor(e, req.now, req.model) || Full(maxInFlight, e) {
          continue;
        }
        cands := cands + [uid];
      }
    }

    method PickEarliestExpiry(req: Request) returns (best: Option<string>)
      modifies this`accounts
      ensures best.None? ==> forall uid :: !Fallback(old(accounts), maxInFlight, req, uid)
      ensures best.Some? ==> best.value in old(accounts) && Fallback(old(accounts), maxInFlight, req, best.value)
      ensures best.Some? ==> Earliest(old(accounts), maxInFlight, req, best.value, {})
      ensures accounts == if best.None? then old(accounts) else old(accounts)[best.value := old(accounts)[best.value].(lastUsed := req.now)]
    {
      best := None;
      var rest := accounts.Keys;
      while rest != {}
        invariant rest <= accounts.Keys
        invariant best.None? ==> forall uid :: Fallback(accounts, maxInFlight, req, uid) ==> uid in rest
        invariant best.Some? ==> Fallback(accounts, maxInFlight, req, best.value)
        invariant best.Some? ==> Earliest(accounts, maxInFlight, req, best.value, rest)
        decreases |rest|
      {
        var uid :| uid in rest;
        rest := rest - {uid};
        var e := accounts[uid];
        if uid in req.tried || (req.realm != "" && e.realm != req.realm) || e.disabled || ModelCooled(e, req.now, req.model) {
          continue;
        }
        if e.coolKind == CoolHard && Pending(e.until, req.now) {
          continue;
        }
        if Full(maxInFlight, e) {
          continue;
        }
        var exp := Expiry(e, req.now);
        if exp == 0 {
          continue;
        }
        if best.None? || exp < Expiry(accounts[best.value], req.now) {
          best := Some(uid);
        }
      }
      if best.Some? {
        accounts := accounts[best.value := accounts[best.value].(lastUsed := req.now)];
      }
    }

    /** Tiers every candidate; the unknown ones in the order met. */
    method Tiers(req: Request, cands: seq<string>) returns (best: int, unknown: seq<string>)
      requires cands != [] && forall uid :: uid in cands <==> Eligible(accounts, maxInFlight, req, uid)
      ensures BestTier(accounts, maxInFlight, req, best)
      ensures forall uid :: uid in unknown <==> InTier(accounts, maxInFlight, req, 1, uid)
    {
      best, unknown := 2, [];
      CandidatesKnown(accounts, maxInFlight, req, cands);
      for k := 0 to |cands|
        invariant forall uid :: uid in unknown <==> uid in cands[..k] && uid in accounts && Tier(accounts[uid], req) == 1
        invariant forall j :: 0 <= j < k ==> best <= Tier(accounts[cands[j]], req)
        invariant best <= 2 && (best < 2 ==> exists j :: 0 <= j < k && Tier(accounts[cands[j]], req) == best)
      {
        assert cands[k] in cands;
        assert cands[..k + 1] == cands[..k] + [cands[k]];
        var tier := Tier(accounts[cands[k]], req);
        if tier == 1 {
          unknown := unknown + [cands[k]];
        }
        if tier < best {
          best := tier;
        }
      }
      assert cands[..|cands|] == cands;
      assert best <= Tier(accounts[cands[0]], req);
      var j :| 0 <= j < |cands| && Tier(accounts[cands[j]], req) == best;
      assert Eligible(accounts, maxInFlight, req, cands[j]);
    }

    method MaxCredits(cands: seq<string>) returns (max: int)
      requires forall j :: 0 <= j < |cands| ==> cands[j] in accounts
      ensures max >= 0 && forall j :: 0 <= j < |cands| ==> accounts[cands[j]].credits <= max
      ensures max == 0 || exists j :: 0 <= j < |cands| && accounts[cands[j]].credits == max
    {
      max := 0;
      for k := 0 to |cands|
        invariant max >= 0 && forall j :: 0 <= j < k ==> accounts[cands[j]].credits <= max
        invariant max == 0 || exists j :: 0 <= j < k && accounts[cands[j]].credits == max
      {
        if accounts[cands[k]].credits > max {
          max := accounts[cands[k]].credits;
        }
      }
    }

    /** The candidates of one tier with their weights, in preference order. */
    method Rank(req: Request, cands: seq<string>, tier: int, maxCredits: int) returns (sorted: seq<Weighted>)
      requires Sources()
      requires forall uid :: uid in cands <==> Eligible(accounts, maxInFlight, req, uid)
      requires forall i, j :: 0 <= i < j < |cands| ==> cands[i] != cands[j]
      ensures Ranked(accounts, maxInFlight, req, weightOf, maxCredits, tier, sorted)
      ensures Preferred(sorted)
      ensures forall i :: 0 <= i < |sorted| ==>
                sorted[i].uid in accounts && sorted[i].price == KnownPrice(accounts[sorted[i].uid], req) && sorted[i].weight == weightOf(accounts[sorted[i].uid], maxCredits, req.now)
    {
      var ws: seq<Weighted> := [];
      CandidatesKnown(accounts, maxInFlight, req, cands);
      for k := 0 to |cands|
        invariant DistinctIds(ws)
        invariant forall i :: 0 <= i < |ws| ==> ws[i].uid in cands[..k] && IsWeighed(accounts, req, weightOf, maxCredits, tier, ws[i])
        invariant forall j :: 0 <= j < k && Tier(accounts[cands[j]], req) == tier ==> exists i :: 0 <= i < |ws| && ws[i].uid == cands[j]
      {
        assert cands[k] in cands;
        assert cands[k] !in cands[..k];
        ghost var before := ws;
        if Tier(accounts[cands[k]], req) == tier {
          ws := ws + [Weighted(cands[k], weightOf(accounts[cands[k]], maxCredits, req.now), tier, Price(accounts[cands[k]], req))];
          assert ws[|ws| - 1].uid == cands[k];
        }
        assert forall i :: 0 <= i < |before| ==> ws[i] == before[i];
      }
      assert cands[..|cands|] == cands;
      var mixed := if |ws| > SHORT_LIST then shuffle(ws) else ws;
      ShuffledDistinct(ws, mixed);
      sorted := Arrange(mixed);
      ArrangeOrders(mixed);
      SameElements(ws, mixed);
      RankedIntro(accounts, maxInFlight, req, weightOf, maxCredits, tier, cands, ws, sorted);
      hide *;
      RankedPrefers(accounts, maxInFlight, req, weightOf, maxCredits, tier, sorted);
    }

    method RestedShort(now: nat, short: seq<Weighted>) returns (eligible: seq<Weighted>)
      requires forall i :: 0 <= i < |short| ==> short[i].uid in accounts
      ensures eligible == RestedOf(accounts, now, short)
    {
      eligible := [];
      for k := 0 to |short|
        invariant eligible == RestedOf(accounts, now, short[..k])
      {
        assert short[..k + 1][..k] == short[..k];
        if Rested(accounts[short[k].uid], now) {
          eligible := eligible + [short[k]];
        }
      }
      assert short[..|short|] == short;
    }

    method LeastRecently(sorted: seq<Weighted>) returns (at: nat)
      requires sorted != [] && forall i :: 0 <= i < |sorted| ==> sorted[i].uid in accounts
      ensures at < |sorted| && forall j :: 0 <= j < |sorted| ==> accounts[sorted[at].uid].usedSeq <= accounts[sorted[j].uid].usedSeq
    {
      at := 0;
      for k := 1 to |sorted|
        invariant at < |sorted|
        invariant forall j :: 0 <= j < k ==> accounts[sorted[at].uid].usedSeq <= accounts[sorted[j].uid].usedSeq
      {
        if accounts[sorted[k].uid].usedSeq < accounts[sorted[at].uid].usedSeq {
          at := k;
        }
      }
    }

    /** The short list: who of the first five is rested, drawn by weight; else the least recently picked of all. */
    method PickRanked(req: Request, ghost cap: int, ghost tier: int, sorted: seq<Weighted>) returns (uid: string, ghost route: Route)
      requires Sources() && CreditCap(accounts, maxInFlight, req, cap)
      requires BestTier(accounts, maxInFlight, req, tier) && Ranked(accounts, maxInFlight, req, weightOf, cap, tier, sorted)
      ensures Chosen(accounts, maxInFlight, req, weightOf, random, route, Some(uid)) && uid in accounts && (route.Drawn? || route.LeastRecent?)
    {
      hide BestTier, CreditCap, Ranked, RestedOf, LeastRecentIn, ShortList, Chosen, Draws, FixedWeights, Total;
      RankedInhabited(accounts, maxInFlight, req, weightOf, cap, tier, sorted);
      var short := ShortList(sorted);
      var eligible := RestedShort(req.now, short);
      if eligible != [] {
        var i := PickWeighted(eligible, random);
        uid, route := eligible[i].uid, Drawn(sorted);
        DrawnIntro(accounts, maxInFlight, req, weightOf, random, cap, tier, sorted, i);
        return;
      }
      var at := LeastRecently(sorted);
      uid, route := sorted[at].uid, LeastRecent(sorted);
      LeastOfAll(accounts, maxInFlight, req, weightOf, cap, tier, sorted, at);
      LeastIntro(accounts, maxInFlight, req, weightOf, random, cap, tier, sorted, uid);
    }

    /** Cost tiers, exploration and the ranked choice, among accounts known to be eligible. */
    method PickEligible(req: Request, cands: seq<string>) returns (uid: string, ghost route: Route)
      requires Sources() && cands != []
      requires forall u :: u in cands <==> Eligible(accounts, maxInFlight, req, u)
      requires forall i, j :: 0 <= i < j < |cands| ==> cands[i] != cands[j]
      modifies exploration
      ensures Chosen(accounts, maxInFlight, req, weightOf, random, route, Some(uid)) && uid in accounts && !route.LastResort?
      ensures ExplorationStep(accounts, maxInFlight, req, pickSeq, route, Some(uid), old(exploration.scopes), exploration.scopes)
    {
      hide Sources, Eligible, Fallback, Tier, Ranked, BestTier, InTier, Explores, UnknownOnes, ExplorationStep, Chosen;
      CandidatesKnown(accounts, maxInFlight, req, cands);
      var maxCredits := MaxCredits(cands);
      CapIntro(accounts, maxInFlight, req, cands, maxCredits);
      hide CreditCap;
      var best, unknown := Tiers(req, cands);
      ghost var ids := set u | u in unknown;
      UnknownIntro(accounts, maxInFlight, req, unknown, ids);
      ghost var before := exploration.scopes;
      if best == 0 && unknown != [] {
        var explored := exploration.ExploreUnknown(unknown, Scope(req.realm, req.model), pickSeq);
        TurnTaken(accounts, maxInFlight, req, pickSeq, ids, before, exploration.scopes, explored);
        if explored.Some? {
          TierKnown(accounts, maxInFlight, req, 1, explored.value);
          uid, route := explored.value, Explored;
          ExploredIntro(accounts, maxInFlight, req, weightOf, random, uid);
          return;
        }
      } else {
        NoTurn(accounts, maxInFlight, req, best, ids, pickSeq, before);
      }
      var sorted := Rank(req, cands, best, maxCredits);
      ghost var table := exploration.scopes;
      uid, route := PickRanked(req, maxCredits, best, sorted);
      assert exploration.scopes == table;
    }

    method Pick(req: Request) returns (r: Option<string>, ghost route: Route)
      requires Sources()
      modifies this, exploration
      ensures Chosen(PruneAll(old(accounts), req.now), maxInFlight, req, weightOf, random, route, r)
      ensures r.Some? ==> r.value in old(accounts)
      ensures (accounts, pickSeq) == Marked(PruneAll(old(accounts), req.now), route, r, req.now, old(pickSeq))
      ensures ExplorationStep(PruneAll(old(accounts), req.now), maxInFlight, req, old(pickSeq), route, r, old(exploration.scopes), exploration.scopes)
      ensures Promised(old(accounts), maxInFlight, req, r)
      ensures Serves(old(accounts), maxInFlight, req, r)
      ensures DrawnFairly(PruneAll(old(accounts), req.now), maxInFlight, req, weightOf, route, r)
      ensures accounts.Keys == old(accounts).Keys
      ensures forall uid :: uid in accounts ==>
                && accounts[uid] == old(accounts)[uid].(modelCooldowns := accounts[uid].modelCooldowns, lastUsed := accounts[uid].lastUsed, usedSeq := accounts[uid].usedSeq)
                && (forall m :: m in accounts[uid].modelCooldowns <==> m in old(accounts)[uid].modelCooldowns && req.now < old(accounts)[uid].modelCooldowns[m])
                && (r != Some(uid) ==> accounts[uid].lastUsed == old(accounts)[uid].lastUsed && accounts[uid].usedSeq == old(accounts)[uid].usedSeq)
      ensures r.Some? ==> accounts[r.value].lastUsed == req.now
      ensures r.Some? && SomeUsable(old(accounts), maxInFlight, req) ==> accounts[r.value].usedSeq == pickSeq == old(pickSeq) + 1
      ensures !SomeUsable(old(accounts), maxInFlight, req) ==> pickSeq == old(pickSeq) && (r.Some? ==> accounts[r.value].usedSeq == old(accounts)[r.value].usedSeq)
    {
      PruneExpired(req.now);
      ghost var seen := accounts;
      hide Sources, Eligible, Fallback, Tier, Prune, Ranked, BestTier, InTier, ExplorationStep, Earliest, Promised;
      var cands := Candidates(req);
      if cands == [] {
        assert forall uid :: Eligible(accounts, maxInFlight, req, uid) ==> uid in cands;
        assert forall uid :: !Eligible(accounts, maxInFlight, req, uid);
        NothingEligible(accounts, maxInFlight, req, pickSeq, exploration.scopes);
        r := PickEarliestExpiry(req);
        route := if r.Some? then LastResort else Nobody;
      } else {
        hide PruneAll;
        var uid;
        uid, route := PickEligible(req, cands);
        Mark(uid, req.now);
        r := Some(uid);
      }
      hide *;
      SelectionCorrect(old(accounts), maxInFlight, req, weightOf, random, route, r);
      PromiseServes(old(accounts), maxInFlight, req, r);
      ChosenFairly(PruneAll(old(accounts), req.now), maxInFlight, req, weightOf, random, route, r);
      MarksLeft(old(accounts), maxInFlight, req, weightOf, random, route, r, old(pickSeq));
    }

    method Mark(uid: string, now: nat)
      requires uid in accounts
      modifies this
      ensures (accounts, pickSeq) == (WithPick(old(accounts), uid, now, old(pickSeq) + 1), old(pickSeq) + 1)
    {
      pickSeq := pickSeq + 1;
      accounts := accounts[uid := accounts[uid].(lastUsed := now, usedSeq := pickSeq)];
    }
  }

  lemma RankedInhabited(accounts: map<string, Account>, maxInFlight: int, req: Request, weightOf: Weigher, cap: int, tier: int, sorted: seq<Weighted>)
    requires BestTier(accounts, maxInFlight, req, tier) && Ranked(accounts, maxInFlight, req, weightOf, cap, tier, sorted)
    ensures sorted != []
    ensures forall i :: 0 <= i < |sorted| ==> sorted[i].uid in accounts
    ensures forall i :: 0 <= i < |ShortList(sorted)| ==> ShortList(sorted)[i].uid in accounts
  {
    hide Eligible, Before, Tier, Price;
    var some :| some in accounts && Eligible(accounts, maxInFlight, req, some) && Tier(accounts[some], req) == tier;
    assert InTier(accounts, maxInFlight, req, tier, some);
  }

  lemma DrawnIntro(accounts: map<string, Account>, maxInFlight: int, req: Request, weightOf: Weigher, random: nat -> nat,
                   cap: int, tier: int, sorted: seq<Weighted>, i: int)
    requires CreditCap(accounts, maxInFlight, req, cap) && BestTier(accounts, maxInFlight, req, tier)
    requires Ranked(accounts, maxInFlight, req, weightOf, cap, tier, sorted)
    requires var rested := RestedOf(accounts, req.now, ShortList(sorted));
             0 <= i < |rested| && Draws(FixedWeights(rested), random(Total(FixedWeights(rested))), i)
    ensures Chosen(accounts, maxInFlight, req, weightOf, random, Drawn(sorted), Some(RestedOf(accounts, req.now, ShortList(sorted))[i].uid))
  {
    hide CreditCap, BestTier, Ranked, RestedOf, Draws, FixedWeights, Total, ShortList;
    assert DrawnFrom(RestedOf(accounts, req.now, ShortList(sorted)), random, i, Some(RestedOf(accounts, req.now, ShortList(sorted))[i].uid));
  }

  lemma LeastIntro(accounts: map<string, Account>, maxInFlight: int, req: Request, weightOf: Weigher, random: nat -> nat,
                   cap: int, tier: int, sorted: seq<Weighted>, uid: string)
    requires CreditCap(accounts, maxInFlight, req, cap) && BestTier(accounts, maxInFlight, req, tier)
    requires Ranked(accounts, maxInFlight, req, weightOf, cap, tier, sorted)
    requires RestedOf(accounts, req.now, ShortList(sorted)) == [] && LeastRecentIn(accounts, maxInFlight, req, tier, uid)
    ensures Chosen(accounts, maxInFlight, req, weightOf, random, LeastRecent(sorted), Some(uid))
  {
    hide CreditCap, BestTier, Ranked, RestedOf, LeastRecentIn, ShortList;
  }

  lemma LeastOfAll(accounts: map<string, Account>, maxInFlight: int, req: Request, weightOf: Weigher, cap: int, tier: int, sorted: seq<Weighted>, at: nat)
    requires Ranked(accounts, maxInFlight, req, weightOf, cap, tier, sorted) && at < |sorted|
    requires forall j :: 0 <= j < |sorted| ==> sorted[j].uid in accounts
    requires forall j :: 0 <= j < |sorted| ==> accounts[sorted[at].uid].usedSeq <= accounts[sorted[j].uid].usedSeq
    ensures LeastRecentIn(accounts, maxInFlight, req, tier, sorted[at].uid)
  {
    hide Eligible, Before, Tier, Price;
    forall u | u in accounts && InTier(accounts, maxInFlight, req, tier, u)
      ensures accounts[sorted[at].uid].usedSeq <= accounts[u].usedSeq
    {
      var j :| 0 <= j < |sorted| && sorted[j].uid == u;
    }
  }

  lemma CandidatesKnown(accounts: map<string, Account>, maxInFlight: int, req: Request, cands: seq<string>)
    requires forall uid :: uid in cands <==> Eligible(accounts, maxInFlight, req, uid)
    ensures forall j :: 0 <= j < |cands| ==> cands[j] in accounts
  {
    forall j | 0 <= j < |cands|
      ensures cands[j] in accounts
    {
      assert cands[j] in cands;
      EligibleKnown(accounts, maxInFlight, req, cands[j]);
    }
  }

  lemma UnknownIntro(accounts: map<string, Account>, maxInFlight: int, req: Request, unknown: seq<string>, ids: set<string>)
    requires ids == (set u | u in unknown) && forall u :: u in unknown <==> InTier(accounts, maxInFlight, req, 1, u)
    ensures UnknownOnes(accounts, maxInFlight, req, ids) && (unknown == [] <==> ids == {})
  {
    hide InTier;
    assert unknown != [] ==> unknown[0] in ids;
  }

  lemma TurnTaken(accounts: map<string, Account>, maxInFlight: int, req: Request, pickSeq: nat, ids: set<string>,
                  before: map<Scope, Slot>, after: map<Scope, Slot>, out: Option<string>)
    requires BestTier(accounts, maxInFlight, req, 0) && UnknownOnes(accounts, maxInFlight, req, ids)
    requires Explores(before, Scope(req.realm, req.model), ids, pickSeq, after, out)
    ensures out.Some? ==> InTier(accounts, maxInFlight, req, 1, out.value) && ExplorationStep(accounts, maxInFlight, req, pickSeq, Explored, out, before, after)
    ensures out.None? ==> forall route: Route, r: Option<string> :: !route.Explored? ==> ExplorationStep(accounts, maxInFlight, req, pickSeq, route, r, before, after)
  {
    ExploresAmong(before, Scope(req.realm, req.model), ids, pickSeq, after, out);
    var some :| some in ids;
    assert InTier(accounts, maxInFlight, req, 1, some);
    hide BestTier, InTier, Advance;
  }

  lemma NoTurn(accounts: map<string, Account>, maxInFlight: int, req: Request, best: int, ids: set<string>, pickSeq: nat, table: map<Scope, Slot>)
    requires BestTier(accounts, maxInFlight, req, best) && UnknownOnes(accounts, maxInFlight, req, ids) && (best != 0 || ids == {})
    ensures forall route: Route, r: Option<string> :: !route.Explored? ==> ExplorationStep(accounts, maxInFlight, req, pickSeq, route, r, table, table)
  {
    BestIsOne(accounts, maxInFlight, req, best, 0);
    hide BestTier, InTier, Explores;
  }

  lemma BestIsOne(accounts: map<string, Account>, maxInFlight: int, req: Request, best: int, tier: int)
    requires BestTier(accounts, maxInFlight, req, best)
    ensures BestTier(accounts, maxInFlight, req, tier) ==> tier == best
  {
    hide Eligible, Tier;
  }

  lemma ExploredIntro(accounts: map<string, Account>, maxInFlight: int, req: Request, weightOf: Weigher, random: nat -> nat, uid: string)
    requires BestTier(accounts, maxInFlight, req, 0) && InTier(accounts, maxInFlight, req, 1, uid)
    ensures Chosen(accounts, maxInFlight, req, weightOf, random, Explored, Some(uid))
  {
  }

  lemma NothingEligible(accounts: map<string, Account>, maxInFlight: int, req: Request, pickSeq: nat, table: map<Scope, Slot>)
    requires forall uid :: !Eligible(accounts, maxInFlight, req, uid)
    ensures forall route: Route, r: Option<string> :: !route.Explored? ==> ExplorationStep(accounts, maxInFlight, req, pickSeq, route, r, table, table)
  {
    hide Explores;
  }

  lemma CapIntro(accounts: map<string, Account>, maxInFlight: int, req: Request, cands: seq<string>, cap: int)
    requires forall u :: u in cands <==> Eligible(accounts, maxInFlight, req, u)
    requires forall j :: 0 <= j < |cands| ==> cands[j] in accounts && accounts[cands[j]].credits <= cap
    requires cap >= 0 && (cap == 0 || exists j :: 0 <= j < |cands| && accounts[cands[j]].credits == cap)
    ensures CreditCap(accounts, maxInFlight, req, cap)
  {
    hide Eligible;
    if cap != 0 {
      var j :| 0 <= j < |cands| && accounts[cands[j]].credits == cap;
      assert cands[j] in cands;
    }
  }

  lemma ExploresAmong(before: map<Scope, Slot>, scope: Scope, ids: set<string>, pickSeq: nat, after: map<Scope, Slot>, out: Option<string>)
    requires Explores(before, scope, ids, pickSeq, after, out)
    ensures ids != {} && (out.Some? ==> out.value in ids)
  {
  }

  lemma TierKnown(accounts: map<string, Account>, maxInFlight: int, req: Request, tier: int, uid: string)
    requires InTier(accounts, maxInFlight, req, tier, uid)
    ensures uid in accounts
  {
  }

  /** No fallback account outside rest expires earlier. */
  predicate Earliest(accounts: map<string, Account>, maxInFlight: int, req: Request, best: string, rest: set<string>)
    requires best in accounts
  {
    forall uid :: uid in accounts && Fallback(accounts, maxInFlight, req, uid) && uid !in rest ==> Expiry(accounts[best], req.now) <= Expiry(accounts[uid], req.now)
  }

  predicate IsWeighed(accounts: map<string, Account>, req: Request, weightOf: Weigher, cap: int, tier: int, w: Weighted) {
    && w.uid in accounts
    && Tier(accounts[w.uid], req) == tier == w.tier
    && w.price == Price(accounts[w.uid], req)
    && w.weight == weightOf(accounts[w.uid], cap, req.now)
  }

  lemma SameElements(ws: seq<Weighted>, mixed: seq<Weighted>)
    requires multiset(mixed) == multiset(ws)
    ensures forall w :: w in mixed <==> w in ws
  {
    assert forall w :: w in mixed <==> w in multiset(mixed);
    assert forall w :: w in ws <==> w in multiset(ws);
  }

  lemma RankedIntro(accounts: map<string, Account>, maxInFlight: int, req: Request, weightOf: Weigher, cap: int, tier: int, cands: seq<string>, ws: seq<Weighted>, sorted: seq<Weighted>)
    requires Ordered(sorted) && forall w :: w in sorted <==> w in ws
    requires forall uid :: uid in cands <==> Eligible(accounts, maxInFlight, req, uid)
    requires forall i :: 0 <= i < |ws| ==> ws[i].uid in cands && IsWeighed(accounts, req, weightOf, cap, tier, ws[i])
    requires forall j :: 0 <= j < |cands| && cands[j] in accounts && Tier(accounts[cands[j]], req) == tier ==> exists i :: 0 <= i < |ws| && ws[i].uid == cands[j]
    ensures Ranked(accounts, maxInFlight, req, weightOf, cap, tier, sorted)
  {
    hide Eligible, Before, Tier, Price;
    forall i | 0 <= i < |sorted|
      ensures IsWeighed(accounts, req, weightOf, cap, tier, sorted[i]) && InTier(accounts, maxInFlight, req, tier, sorted[i].uid)
    {
      assert sorted[i] in ws;
      var k :| 0 <= k < |ws| && ws[k] == sorted[i];
    }
    forall uid | InTier(accounts, maxInFlight, req, tier, uid)
      ensures exists i :: 0 <= i < |sorted| && sorted[i].uid == uid
    {
      assert uid in cands;
      var j :| 0 <= j < |cands| && cands[j] == uid;
      EligibleKnown(accounts, maxInFlight, req, uid);
      var k :| 0 <= k < |ws| && ws[k].uid == uid;
      assert ws[k] in sorted;
    }
  }

  lemma EligibleKnown(accounts: map<string, Account>, maxInFlight: int, req: Request, uid: string)
    requires Eligible(accounts, maxInFlight, req, uid)
    ensures uid in accounts
  {
  }
}
