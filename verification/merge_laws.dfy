/** Laws of the three-way merge: when two instances' saves commute, and when a save changes nothing. */
module MergeLaws {
  import opened Wrappers
  import opened StateMerge

  /** One instance's side of a merge. */
  datatype Side = Side(base: Account, current: Account, intent: Intent)

  function Merge(s: Side, latest: Account): Option<Account> {
    MergeAccount(s.base, s.current, latest, s.intent)
  }

  function Gained(s: Side): int {
    s.current.successCount - s.base.successCount
  }

  function Failed(s: Side): int {
    s.current.errTotal - Errors(s.base)
  }

  /** What every instance satisfies that imported no snapshot since its last save. */
  predicate Proper(s: Side) {
    && Gained(s) >= 0 && Failed(s) >= 0
    && s.current.errCount == 0
    && !s.intent.importedCounters
    && s.intent.fields !! {SuccessCount, ErrTotal, ErrCount, LastSuccess, LastErr}
    && s.intent.credits <= 0 && s.intent.creditsExpiring <= 0
  }

  predicate Sound(a: Account) {
    a.credits >= 0 && a.creditsExpiring >= 0 && a.errTotal >= 0 && a.errCount >= 0
  }

  predicate Fits(s: Side, t: Side, latest: Account) {
    latest.successCount + Gained(s) + Gained(t) <= MAX_INT64 && Errors(latest) + Failed(s) + Failed(t) <= MAX_INT64
  }

  // ---- Touching the same thing ----

  predicate TouchesField(s: Side, k: Field) {
    Touched(Get(s.base.rest, k), Get(s.current.rest, k), k in s.intent.fields)
  }

  predicate TouchesModel(s: Side, m: string) {
    Touched(Get(s.base.models, m), Get(s.current.models, m), m in s.intent.models)
  }

  /** Credits may be consumed by both, or assigned by one that is alone. */
  predicate CreditsApart(base1: int, current1: int, forced1: bool, delta1: int, base2: int, current2: int, forced2: bool, delta2: int) {
    var assigns1, assigns2 := forced1 || (delta1 == 0 && current1 != base1), forced2 || (delta2 == 0 && current2 != base2);
    && !(assigns1 && (assigns2 || delta2 != 0))
    && !(assigns2 && (assigns1 || delta1 != 0))
  }

  ghost predicate ModelsApart(s: Side, t: Side) {
    if ModelCooldowns in s.intent.fields then ModelCooldowns !in t.intent.fields && forall m: string :: !TouchesModel(t, m)
    else if ModelCooldowns in t.intent.fields then forall m: string :: !TouchesModel(s, m)
    else forall m: string :: !(TouchesModel(s, m) && TouchesModel(t, m))
  }

  ghost predicate Apart(s: Side, t: Side) {
    && (forall k: Field :: !(TouchesField(s, k) && TouchesField(t, k)))
    && ModelsApart(s, t)
    && CreditsApart(s.base.credits, s.current.credits, Credits in s.intent.fields, s.intent.credits,
                    t.base.credits, t.current.credits, Credits in t.intent.fields, t.intent.credits)
    && CreditsApart(s.base.creditsExpiring, s.current.creditsExpiring, CreditsExpiring in s.intent.fields, s.intent.creditsExpiring,
                    t.base.creditsExpiring, t.current.creditsExpiring, CreditsExpiring in t.intent.fields, t.intent.creditsExpiring)
  }

  // ---- Commutation, part by part ----

  lemma KeysCommute<V>(b1: Option<V>, c1: Option<V>, f1: bool, b2: Option<V>, c2: Option<V>, f2: bool, latest: Option<V>)
    requires !(Touched(b1, c1, f1) && Touched(b2, c2, f2))
    ensures MergeKey(b2, c2, MergeKey(b1, c1, latest, f1), f2) == MergeKey(b1, c1, MergeKey(b2, c2, latest, f2), f1)
  {
  }

  lemma RestCommutes(s: Side, t: Side, latest: map<Field, Value>)
    requires forall k: Field :: !(TouchesField(s, k) && TouchesField(t, k))
    ensures MergeFields(t.base.rest, t.current.rest, MergeFields(s.base.rest, s.current.rest, latest, s.intent.fields), t.intent.fields)
         == MergeFields(s.base.rest, s.current.rest, MergeFields(t.base.rest, t.current.rest, latest, t.intent.fields), s.intent.fields)
  {
    var st := MergeFields(s.base.rest, s.current.rest, latest, s.intent.fields);
    var ts := MergeFields(t.base.rest, t.current.rest, latest, t.intent.fields);
    var left := MergeFields(t.base.rest, t.current.rest, st, t.intent.fields);
    var right := MergeFields(s.base.rest, s.current.rest, ts, s.intent.fields);
    forall k: Field
      ensures Get(left, k) == Get(right, k)
    {
      MergeFieldsByKey(s.base.rest, s.current.rest, latest, s.intent.fields, k);
      MergeFieldsByKey(t.base.rest, t.current.rest, latest, t.intent.fields, k);
      MergeFieldsByKey(t.base.rest, t.current.rest, st, t.intent.fields, k);
      MergeFieldsByKey(s.base.rest, s.current.rest, ts, s.intent.fields, k);
      assert !(TouchesField(s, k) && TouchesField(t, k));
      KeysCommute(Get(s.base.rest, k), Get(s.current.rest, k), k in s.intent.fields,
                  Get(t.base.rest, k), Get(t.current.rest, k), k in t.intent.fields, Get(latest, k));
    }
    hide MergeFields;
    SameByKey(left, right);
  }

  function ModelsAfter(s: Side, latest: map<string, Value>): map<string, Value> {
    if ModelCooldowns in s.intent.fields then s.current.models
    else MergeFields(s.base.models, s.current.models, latest, s.intent.models)
  }

  lemma UntouchedModels(s: Side, latest: map<string, Value>)
    requires ModelCooldowns !in s.intent.fields && forall m: string :: !TouchesModel(s, m)
    ensures ModelsAfter(s, latest) == latest
  {
    var r := MergeFields(s.base.models, s.current.models, latest, s.intent.models);
    forall m: string
      ensures Get(r, m) == Get(latest, m)
    {
      MergeFieldsByKey(s.base.models, s.current.models, latest, s.intent.models, m);
      assert !TouchesModel(s, m);
      UntouchedStays(Get(s.base.models, m), Get(s.current.models, m), Get(latest, m), m in s.intent.models);
    }
    hide MergeFields;
    SameByKey(r, latest);
  }

  lemma ModelsCommute(s: Side, t: Side, latest: map<string, Value>)
    requires ModelsApart(s, t)
    ensures ModelsAfter(t, ModelsAfter(s, latest)) == ModelsAfter(s, ModelsAfter(t, latest))
  {
    if ModelCooldowns in s.intent.fields {
      UntouchedModels(t, latest);
      UntouchedModels(t, s.current.models);
    } else if ModelCooldowns in t.intent.fields {
      UntouchedModels(s, latest);
      UntouchedModels(s, t.current.models);
    } else {
      var st := MergeFields(s.base.models, s.current.models, latest, s.intent.models);
      var ts := MergeFields(t.base.models, t.current.models, latest, t.intent.models);
      var left := MergeFields(t.base.models, t.current.models, st, t.intent.models);
      var right := MergeFields(s.base.models, s.current.models, ts, s.intent.models);
      forall m: string
        ensures Get(left, m) == Get(right, m)
      {
        MergeFieldsByKey(s.base.models, s.current.models, latest, s.intent.models, m);
        MergeFieldsByKey(t.base.models, t.current.models, latest, t.intent.models, m);
        MergeFieldsByKey(t.base.models, t.current.models, st, t.intent.models, m);
        MergeFieldsByKey(s.base.models, s.current.models, ts, s.intent.models, m);
        assert !(TouchesModel(s, m) && TouchesModel(t, m));
        KeysCommute(Get(s.base.models, m), Get(s.current.models, m), m in s.intent.models,
                    Get(t.base.models, m), Get(t.current.models, m), m in t.intent.models, Get(latest, m));
      }
      hide MergeFields;
      SameByKey(left, right);
    }
  }

  lemma CreditsCommute(b1: int, c1: int, f1: bool, d1: int, b2: int, c2: int, f2: bool, d2: int, latest: int)
    requires CreditsApart(b1, c1, f1, d1, b2, c2, f2, d2) && d1 <= 0 && d2 <= 0 && latest >= 0
    ensures MergeCredits(b2, c2, MergeCredits(b1, c1, latest, f1, d1), f2, d2) == MergeCredits(b1, c1, MergeCredits(b2, c2, latest, f2, d2), f1, d1)
  {
  }

  lemma LastTimeCommutes(b1: int, c1: int, b2: int, c2: int, latest: int)
    ensures var m1, m2 := Max(MergeNumber(b1, c1, latest, false), latest), Max(MergeNumber(b2, c2, latest, false), latest);
            Max(MergeNumber(b2, c2, m1, false), m1) == Max(MergeNumber(b1, c1, m2, false), m2)
  {
  }

  lemma LegacyCommutes(b1: int, b2: int, latest: int)
    ensures MergeOmitted(b2, 0, MergeOmitted(b1, 0, latest, false), false) == MergeOmitted(b1, 0, MergeOmitted(b2, 0, latest, false), false)
    ensures MergeOmitted(b1, 0, latest, false) in {0, latest}
  {
  }

  /** What one proper save does to an account whose counters have room. */
  lemma MergeShape(s: Side, latest: Account)
    requires Proper(s) && Sound(latest)
    requires latest.successCount + Gained(s) <= MAX_INT64 && Errors(latest) + Failed(s) <= MAX_INT64
    ensures var m := Merge(s, latest);
            && m.Some?
            && m.value.successCount == latest.successCount + Gained(s)
            && m.value.errTotal == Errors(latest) + Failed(s) == Errors(m.value)
            && m.value.errCount == MergeOmitted(s.base.errCount, 0, latest.errCount, false)
            && m.value.lastSuccess == Max(MergeNumber(s.base.lastSuccess, s.current.lastSuccess, latest.lastSuccess, false), latest.lastSuccess)
            && m.value.lastErr == Max(MergeNumber(s.base.lastErr, s.current.lastErr, latest.lastErr, false), latest.lastErr)
            && m.value.models == ModelsAfter(s, latest.models)
            && m.value.rest == MergeFields(s.base.rest, s.current.rest, latest.rest, s.intent.fields)
            && m.value.credits == MergeCredits(s.base.credits, s.current.credits, latest.credits, Credits in s.intent.fields, s.intent.credits)
            && m.value.creditsExpiring == MergeCredits(s.base.creditsExpiring, s.current.creditsExpiring, latest.creditsExpiring, CreditsExpiring in s.intent.fields, s.intent.creditsExpiring)
  {
    LegacyCommutes(s.base.errCount, 0, latest.errCount);
    hide MergeFields;
  }

  lemma CreditsStaySound(s: Side, latest: Account)
    requires Proper(s) && Sound(latest) && s.current.credits >= 0 && s.current.creditsExpiring >= 0
    ensures MergeCredits(s.base.credits, s.current.credits, latest.credits, Credits in s.intent.fields, s.intent.credits) >= 0
    ensures MergeCredits(s.base.creditsExpiring, s.current.creditsExpiring, latest.creditsExpiring, CreditsExpiring in s.intent.fields, s.intent.creditsExpiring) >= 0
  {
  }

  /** The latest account after s and then t, or the failure of either. */
  function Both(s: Side, t: Side, latest: Account): Option<Account> {
    var first := Merge(s, latest);
    if first.None? then None else Merge(t, first.value)
  }

  /**
   Two instances that touched different fields and models of an account, whatever counters, times and
   credit consumption they add, may save in either order: the file ends the same.
   */
  lemma MergesCommute(s: Side, t: Side, latest: Account)
    requires Proper(s) && Proper(t) && Apart(s, t) && Sound(latest) && Fits(s, t, latest)
    requires s.current.credits >= 0 && s.current.creditsExpiring >= 0 && t.current.credits >= 0 && t.current.creditsExpiring >= 0
    ensures Both(s, t, latest).Some? && Both(s, t, latest) == Both(t, s, latest)
  {
    hide Proper, Merge, MergeFields, MergeCredits, MergeNumber, MergeOmitted, ModelsAfter, CreditsApart, ModelsApart;
    Room(s, t, latest);
    Room(t, s, latest);
    FirstMerge(s, latest);
    FirstMerge(t, latest);
    MergeShape(s, latest);
    MergeShape(t, latest);
    MergeShape(t, Merge(s, latest).value);
    MergeShape(s, Merge(t, latest).value);
    RestCommutes(s, t, latest.rest);
    ModelsCommute(s, t, latest.models);
    LastTimeCommutes(s.base.lastSuccess, s.current.lastSuccess, t.base.lastSuccess, t.current.lastSuccess, latest.lastSuccess);
    LastTimeCommutes(s.base.lastErr, s.current.lastErr, t.base.lastErr, t.current.lastErr, latest.lastErr);
    LegacyCommutes(s.base.errCount, t.base.errCount, latest.errCount);
    CreditsCommute(s.base.credits, s.current.credits, Credits in s.intent.fields, s.intent.credits,
                   t.base.credits, t.current.credits, Credits in t.intent.fields, t.intent.credits, latest.credits) by { Deltas(s, t); }
    CreditsCommute(s.base.creditsExpiring, s.current.creditsExpiring, CreditsExpiring in s.intent.fields, s.intent.creditsExpiring,
                   t.base.creditsExpiring, t.current.creditsExpiring, CreditsExpiring in t.intent.fields, t.intent.creditsExpiring, latest.creditsExpiring) by { Deltas(s, t); }
  }

  lemma Deltas(s: Side, t: Side)
    requires Proper(s) && Proper(t)
    ensures s.intent.credits <= 0 && t.intent.credits <= 0 && s.intent.creditsExpiring <= 0 && t.intent.creditsExpiring <= 0
  {
  }

  lemma Room(s: Side, t: Side, latest: Account)
    requires Proper(s) && Proper(t) && Fits(s, t, latest)
    ensures latest.successCount + Gained(s) <= MAX_INT64 && Errors(latest) + Failed(s) <= MAX_INT64
    ensures latest.successCount + Gained(s) + Gained(t) <= MAX_INT64 && Errors(latest) + Failed(s) + Failed(t) <= MAX_INT64
  {
  }

  lemma FirstMerge(s: Side, latest: Account)
    requires Proper(s) && Sound(latest) && s.current.credits >= 0 && s.current.creditsExpiring >= 0
    requires latest.successCount + Gained(s) <= MAX_INT64 && Errors(latest) + Failed(s) <= MAX_INT64
    ensures Merge(s, latest).Some? && Sound(Merge(s, latest).value)
  {
    MergeShape(s, latest);
    CreditsStaySound(s, latest);
    LegacyCommutes(s.base.errCount, 0, latest.errCount);
    hide Merge, MergeCredits, MergeFields, MergeOmitted, MergeNumber, ModelsAfter;
  }

  // ---- An idle instance ----

  /** Nothing happened since the last save, whose overview never carries the legacy count. */
  predicate Idle(s: Side) {
    s.current == s.base && s.base.errCount == 0 && s.base.errTotal >= 0
    && s.intent.fields == {} && s.intent.models == {} && s.intent.credits == 0 && s.intent.creditsExpiring == 0
    && !s.intent.importedCounters
  }

  /** Saving again changes nothing but moves a legacy error count into err_total; exactly then the account is not left alone. */
  lemma IdleMerge(s: Side, latest: Account)
    requires Idle(s)
    ensures Merge(s, latest) == Some(latest.(errTotal := Errors(latest)))
    ensures Merge(s, latest) == Some(latest) <==> latest.errCount <= latest.errTotal
  {
    assert forall m: string :: !TouchesModel(s, m);
    UntouchedModels(s, latest.models);
    IdleRest(s, latest.rest);
    hide MergeFields;
  }

  lemma IdleRest(s: Side, latest: map<Field, Value>)
    requires Idle(s)
    ensures MergeFields(s.base.rest, s.current.rest, latest, s.intent.fields) == latest
  {
    var r := MergeFields(s.base.rest, s.current.rest, latest, s.intent.fields);
    forall k: Field
      ensures Get(r, k) == Get(latest, k)
    {
      MergeFieldsByKey(s.base.rest, s.current.rest, latest, s.intent.fields, k);
      UntouchedStays(Get(s.base.rest, k), Get(s.current.rest, k), Get(latest, k), k in s.intent.fields);
    }
    hide MergeFields;
    SameByKey(r, latest);
  }

  // ---- Importing one snapshot into several instances ----

  /** The instance took its counters from the snapshot and only counted up since. */
  predicate FromSnapshot(s: Side, success: int, errors: int) {
    && s.intent.importedCounters && s.intent.importedSuccess == success && s.intent.importedErrors == errors
    && s.base.successCount == success && s.base.errTotal == errors && s.base.errCount == 0
    && Gained(s) >= 0 && Failed(s) >= 0
    && s.current.errCount == 0 && ErrCount !in s.intent.fields
    && success >= 0 && errors >= 0
  }

  /** The file's account after every side saved, in the order listed. */
  function MergeEach(sides: seq<Side>, latest: Account): Option<Account> {
    if sides == [] then Some(latest)
    else
      var before := MergeEach(sides[..|sides| - 1], latest);
      if before.None? then None else Merge(sides[|sides| - 1], before.value)
  }

  function TotalGained(sides: seq<Side>): int {
    if sides == [] then 0 else TotalGained(sides[..|sides| - 1]) + Gained(sides[|sides| - 1])
  }

  function TotalFailed(sides: seq<Side>): int {
    if sides == [] then 0 else TotalFailed(sides[..|sides| - 1]) + Failed(sides[|sides| - 1])
  }

  /** However many instances import one snapshot, its counters enter the file at most once. */
  lemma {:induction false} SnapshotNeverDoubles(sides: seq<Side>, latest: Account, success: int, errors: int)
    requires sides != [] && Sound(latest) && latest.successCount >= 0
    requires forall i :: 0 <= i < |sides| ==> FromSnapshot(sides[i], success, errors)
    requires MergeEach(sides, latest).Some?
    ensures var r := MergeEach(sides, latest).value;
            && r.successCount == Max(latest.successCount, success) + TotalGained(sides)
            && r.errTotal == Errors(r) == Max(Errors(latest), errors) + TotalFailed(sides)
    ensures MergeEach(sides, latest).value.errCount >= 0 && TotalGained(sides) >= 0 && TotalFailed(sides) >= 0
    decreases |sides|
  {
    hide Merge;
    var n := |sides| - 1;
    var last := sides[n];
    assert FromSnapshot(last, success, errors);
    if n == 0 {
      assert sides[..0] == [];
      SnapshotStep(last, latest, success, errors);
    } else {
      assert forall i :: 0 <= i < n ==> sides[..n][i] == sides[i];
      SnapshotNeverDoubles(sides[..n], latest, success, errors);
      var before := MergeEach(sides[..n], latest).value;
      SnapshotStep(last, before, success, errors);
    }
  }

  lemma SnapshotStep(s: Side, latest: Account, success: int, errors: int)
    requires FromSnapshot(s, success, errors) && latest.errTotal >= 0 && latest.errCount >= 0 && Merge(s, latest).Some?
    ensures var r := Merge(s, latest).value;
            && r.successCount == Max(latest.successCount, success) + Gained(s)
            && r.errTotal == Errors(r) == Max(Errors(latest), errors) + Failed(s)
            && r.errCount >= 0
  {
    LegacyCommutes(s.base.errCount, 0, latest.errCount);
    hide MergeFields, MergeCredits, MergeModels;
  }
}
