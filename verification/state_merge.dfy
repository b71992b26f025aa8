/**
 The three-way merge of persisted account state (internal/pool/persist_merge.go).

 An account is its JSON object: the fields the merge treats specially are typed, the others stay a
 map in which a key may be absent (fields the program omits when empty).
 */
module StateMerge {
  import opened Wrappers

  datatype Field =
    | Credits | CreditsExpiring | SuccessCount | ErrTotal | ErrCount | LastSuccess | LastErr | ModelCooldowns
    | Disabled | Reason | Until | CoolKind | SuccessEma | ErrorEma | SoftStreak | SessionDeadFails | BreakerUntil | RetryCount

  /** Cooldown is one entry of the model cooldowns; times are numbers, 0 the zero time. */
  datatype Value = Number(n: int) | Flag(b: bool) | Text(s: string) | Decimal(x: real) | Cooldown(until: int, resetAt: int, reason: string)

  /** Zero success and error counts of old files are omitted; an empty map of models is omitted too. */
  datatype Account = Account(
    credits: int, creditsExpiring: int, successCount: int, errTotal: int, errCount: int,
    lastSuccess: int, lastErr: int, models: map<string, Value>, rest: map<Field, Value>)

  /** An account nothing is known about: the fields the program always writes, at zero. */
  const BLANK := Account(0, 0, 0, 0, 0, 0, 0, map[],
    map[Disabled := Flag(false), Until := Number(0), CoolKind := Number(0), ErrorEma := Decimal(0.0),
        SoftStreak := Number(0), SessionDeadFails := Number(0)])

  /** What an instance did on purpose since its last save. */
  datatype Intent = Intent(
    fields: set<Field>, models: set<string>, credits: int, creditsExpiring: int,
    created: bool, deleted: bool, createdEpoch: nat, deletedEpoch: nat,
    importedCounters: bool, importedSuccess: int, importedErrors: int)

  const NO_INTENT := Intent({}, {}, 0, 0, false, false, 0, 0, false, 0, 0)

  datatype StateFile = StateFile(accounts: map<string, Account>, epochs: map<string, nat>)

  const MAX_INT64 := 0x7FFF_FFFF_FFFF_FFFF
  const MAX_UINT64 := 0xFFFF_FFFF_FFFF_FFFF

  function Max(a: int, b: int): int {
    if a > b then a else b
  }

  // ---- One key ----

  function Get<K, V>(m: map<K, V>, k: K): Option<V> {
    if k in m then Some(m[k]) else None
  }

  /**
   The fate of one key: a forced key follows the instance; a key the instance changed takes its value;
   a key it dropped goes only if nobody else changed it; anything else stays as it is in the file.
   */
  function MergeKey<V(==)>(base: Option<V>, current: Option<V>, latest: Option<V>, forced: bool): Option<V> {
    if forced then current
    else if current.Some? then (if current != base then current else latest)
    else if base.Some? && latest == base then None
    else latest
  }

  /** A key is touched when the instance forced, changed or dropped it. */
  predicate Touched<V(==)>(base: Option<V>, current: Option<V>, forced: bool) {
    forced || current != base
  }

  lemma UntouchedStays<V>(base: Option<V>, current: Option<V>, latest: Option<V>, forced: bool)
    requires !Touched(base, current, forced)
    ensures MergeKey(base, current, latest, forced) == latest
  {
  }

  /** First pass: what the instance dropped goes, unless somebody else changed it. */
  method DropKeys<K(==), V(==)>(base: map<K, V>, current: map<K, V>, latest: map<K, V>) returns (r: map<K, V>)
    ensures forall k :: Get(r, k) == if k in base && k !in current && Get(latest, k) == Get(base, k) then None else Get(latest, k)
  {
    r := latest;
    var keys := base.Keys;
    while keys != {}
      invariant keys <= base.Keys
      invariant forall k :: Get(r, k) == if k in base && k !in keys && k !in current && Get(latest, k) == Get(base, k) then None else Get(latest, k)
      decreases |keys|
    {
      var k :| k in keys;
      keys := keys - {k};
      assert Get(r, k) == Get(latest, k);
      if k !in current && k in r && r[k] == base[k] {
        r := r - {k};
      }
    }
  }

  /** Second pass: what the instance changed takes its value. */
  method SetKeys<K(==), V(==)>(base: map<K, V>, current: map<K, V>, latest: map<K, V>) returns (r: map<K, V>)
    ensures forall k :: Get(r, k) == if k in current && Get(current, k) != Get(base, k) then Get(current, k) else Get(latest, k)
  {
    r := latest;
    var keys := current.Keys;
    while keys != {}
      invariant keys <= current.Keys
      invariant forall k :: Get(r, k) == if k in current && k !in keys && Get(current, k) != Get(base, k) then Get(current, k) else Get(latest, k)
      decreases |keys|
    {
      var k :| k in keys;
      keys := keys - {k};
      if !(k in base && current[k] == base[k]) {
        r := r[k := current[k]];
      }
    }
  }

  /** Third pass: forced keys follow the instance. */
  method ForceKeys<K(==), V(==)>(current: map<K, V>, latest: map<K, V>, forced: set<K>) returns (r: map<K, V>)
    ensures forall k :: Get(r, k) == if k in forced then Get(current, k) else Get(latest, k)
  {
    r := latest;
    var keys := forced;
    while keys != {}
      invariant keys <= forced
      invariant forall k :: Get(r, k) == if k in forced && k !in keys then Get(current, k) else Get(latest, k)
      decreases |keys|
    {
      var k :| k in keys;
      keys := keys - {k};
      if k in current {
        r := r[k := current[k]];
      } else {
        r := r - {k};
      }
    }
  }

  /** mergeStateFields: three passes that edit the file's object. */
  method MergeStateFields<K(==, !new), V(==)>(base: map<K, V>, current: map<K, V>, latest: map<K, V>, forced: set<K>) returns (r: map<K, V>)
    ensures Fieldwise(base, current, latest, forced, r)
    ensures r == MergeFields(base, current, latest, forced)
  {
    hide MergeFields, Fieldwise;
    r := DropKeys(base, current, latest);
    r := SetKeys(base, current, r);
    r := ForceKeys(current, r, forced);
    ByFate(base, current, latest, forced, r);
    MergesFieldwise(base, current, latest, forced);
  }

  lemma ByFate<K(!new), V>(base: map<K, V>, current: map<K, V>, latest: map<K, V>, forced: set<K>, r: map<K, V>)
    requires forall k :: Get(r, k) ==
               if k in forced then Get(current, k)
               else if k in current && Get(current, k) != Get(base, k) then Get(current, k)
               else if k in base && k !in current && Get(latest, k) == Get(base, k) then None else Get(latest, k)
    ensures r == MergeFields(base, current, latest, forced)
  {
    forall k
      ensures Get(r, k) == Get(MergeFields(base, current, latest, forced), k)
    {
      MergeFieldsByKey(base, current, latest, forced, k);
    }
    hide MergeFields, MergeKey;
    SameByKey(r, MergeFields(base, current, latest, forced));
  }

  /**
   What a merge of objects must do with each key: a forced key follows the instance, present or absent;
   what the instance changed or added takes its value; what it dropped goes if the file still has the
   baseline's value, and stays as somebody else left it otherwise; what it left alone stays as in the file.
   */
  ghost predicate Fieldwise<K(!new), V>(base: map<K, V>, current: map<K, V>, latest: map<K, V>, forced: set<K>, r: map<K, V>) {
    && (forall k :: k in forced ==> Get(r, k) == Get(current, k))
    && (forall k :: k !in forced && k in current && Get(current, k) != Get(base, k) ==> Get(r, k) == Get(current, k))
    && (forall k :: k !in forced && k in base && k !in current && Get(latest, k) == Get(base, k) ==> k !in r)
    && (forall k :: k !in forced && k in base && k !in current && Get(latest, k) != Get(base, k) ==> Get(r, k) == Get(latest, k))
    && (forall k :: k !in forced && Get(current, k) == Get(base, k) ==> Get(r, k) == Get(latest, k))
  }

  /** The merge of whole objects, key by key. */
  function MergeFields<K(==), V(==)>(base: map<K, V>, current: map<K, V>, latest: map<K, V>, forced: set<K>): map<K, V> {
    map k | k in current.Keys + latest.Keys && MergeKey(Get(base, k), Get(current, k), Get(latest, k), k in forced).Some?
      :: MergeKey(Get(base, k), Get(current, k), Get(latest, k), k in forced).value
  }

  lemma MergeFieldsByKey<K, V>(base: map<K, V>, current: map<K, V>, latest: map<K, V>, forced: set<K>, k: K)
    ensures Get(MergeFields(base, current, latest, forced), k) == MergeKey(Get(base, k), Get(current, k), Get(latest, k), k in forced)
  {
  }

  lemma MergesFieldwise<K(!new), V>(base: map<K, V>, current: map<K, V>, latest: map<K, V>, forced: set<K>)
    ensures Fieldwise(base, current, latest, forced, MergeFields(base, current, latest, forced))
  {
    forall k
      ensures Get(MergeFields(base, current, latest, forced), k) == MergeKey(Get(base, k), Get(current, k), Get(latest, k), k in forced)
    {
      MergeFieldsByKey(base, current, latest, forced, k);
    }
    hide MergeFields;
  }

  lemma SameByKey<K, V>(a: map<K, V>, b: map<K, V>)
    requires forall k :: Get(a, k) == Get(b, k)
    ensures a == b
  {
    forall k
      ensures k in a <==> k in b
      ensures k in a ==> a[k] == b[k]
    {
      assert Get(a, k) == Get(b, k);
    }
  }

  // ---- Counters ----

  /** A restart that lost the baseline writes its own value; otherwise the increments since the baseline are added. */
  function MergedCounter(latest: int, current: int, base: int): Option<int> {
    if current < base then Some(current)
    else if current - base > 0 && latest > MAX_INT64 - (current - base) then None
    else Some(latest + (current - base))
  }

  function Errors(a: Account): int {
    Max(a.errTotal, a.errCount)
  }

  // ---- One account ----

  /** A number that the program always writes. */
  function MergeNumber(base: int, current: int, latest: int, forced: bool): int {
    MergeKey(Some(base), Some(current), Some(latest), forced).value
  }

  function Written(n: int): Option<int> {
    if n == 0 then None else Some(n)
  }

  /** A number that the program omits when it is zero. */
  function MergeOmitted(base: int, current: int, latest: int, forced: bool): int {
    var r := MergeKey(Written(base), Written(current), Written(latest), forced);
    if r.Some? then r.value else 0
  }

  function MergeModels(base: Account, current: Account, latest: Account, intent: Intent): map<string, Value> {
    if ModelCooldowns in intent.fields then current.models
    else MergeFields(base.models, current.models, latest.models, intent.models)
  }

  function MergeCredits(base: int, current: int, latest: int, forced: bool, delta: int): int {
    if !forced && delta != 0 then Max(0, latest + delta) else MergeNumber(base, current, latest, forced)
  }

  function LatestSuccess(latest: Account, intent: Intent): int {
    if intent.importedCounters then Max(latest.successCount, intent.importedSuccess) else latest.successCount
  }

  function LatestErrors(latest: Account, intent: Intent): int {
    if intent.importedCounters then Max(Errors(latest), intent.importedErrors) else Errors(latest)
  }

  /** mergeStateAccount; None when a counter would overflow. */
  function MergeAccount(base: Account, current: Account, latest: Account, intent: Intent): Option<Account> {
    var success := MergedCounter(LatestSuccess(latest, intent), current.successCount, base.successCount);
    var errors := MergedCounter(LatestErrors(latest, intent), current.errTotal, Errors(base));
    if success.None? || errors.None? then None
    else Some(Account(
      MergeCredits(base.credits, current.credits, latest.credits, Credits in intent.fields, intent.credits),
      MergeCredits(base.creditsExpiring, current.creditsExpiring, latest.creditsExpiring, CreditsExpiring in intent.fields, intent.creditsExpiring),
      success.value,
      errors.value,
      MergeOmitted(base.errCount, current.errCount, latest.errCount, ErrCount in intent.fields),
      Max(MergeNumber(base.lastSuccess, current.lastSuccess, latest.lastSuccess, LastSuccess in intent.fields), latest.lastSuccess),
      Max(MergeNumber(base.lastErr, current.lastErr, latest.lastErr, LastErr in intent.fields), latest.lastErr),
      MergeModels(base, current, latest, intent),
      MergeFields(base.rest, current.rest, latest.rest, intent.fields)))
  }

  /** Baseline, view, file and result of a time: what the instance set counts, but no time goes back. */
  predicate LatestTime(base: int, current: int, latest: int, forced: bool, r: int) {
    r == if forced || current != base then Max(current, latest) else latest
  }

  /** Consumption is subtracted from the file's balance, which stays at zero; anything else is an assignment. */
  predicate Balance(base: int, current: int, latest: int, forced: bool, delta: int, r: int) {
    r == if !forced && delta != 0 then Max(0, latest + delta) else if forced || current != base then current else latest
  }

  /** Increments are added to the file's count, not below the floor of an import; a lower count than the baseline is written as it is. */
  predicate Counted(base: int, current: int, latest: int, floor: int, imported: bool, r: int) {
    r == if current < base then current else (if imported && floor > latest then floor else latest) + (current - base)
  }

  predicate CountOverflows(base: int, current: int, latest: int, floor: int, imported: bool) {
    current > base && (if imported && floor > latest then floor else latest) > MAX_INT64 - (current - base)
  }

  /** What a merge must make of an account, in terms of its four versions and the intent. */
  ghost predicate Merged(base: Account, current: Account, latest: Account, intent: Intent, r: Account) {
    && Fieldwise(base.rest, current.rest, latest.rest, intent.fields, r.rest)
    && (if ModelCooldowns in intent.fields then r.models == current.models
        else Fieldwise(base.models, current.models, latest.models, intent.models, r.models))
    && LatestTime(base.lastSuccess, current.lastSuccess, latest.lastSuccess, LastSuccess in intent.fields, r.lastSuccess)
    && LatestTime(base.lastErr, current.lastErr, latest.lastErr, LastErr in intent.fields, r.lastErr)
    && Balance(base.credits, current.credits, latest.credits, Credits in intent.fields, intent.credits, r.credits)
    && Balance(base.creditsExpiring, current.creditsExpiring, latest.creditsExpiring, CreditsExpiring in intent.fields, intent.creditsExpiring, r.creditsExpiring)
    && Counted(base.successCount, current.successCount, latest.successCount, intent.importedSuccess, intent.importedCounters, r.successCount)
    && Counted(Errors(base), current.errTotal, Errors(latest), intent.importedErrors, intent.importedCounters, r.errTotal)
    && r.errCount == (if ErrCount in intent.fields || current.errCount !in {0, base.errCount} then current.errCount
                      else if current.errCount == 0 && latest.errCount == base.errCount then 0 else latest.errCount)
  }

  /** The merge does that, and fails exactly when one of the two counters leaves 64 bits. */
  lemma MergesAccount(base: Account, current: Account, latest: Account, intent: Intent)
    ensures var r := MergeAccount(base, current, latest, intent);
            && (r.Some? ==> Merged(base, current, latest, intent, r.value))
            && (r.None? <==>
                  || CountOverflows(base.successCount, current.successCount, latest.successCount, intent.importedSuccess, intent.importedCounters)
                  || CountOverflows(Errors(base), current.errTotal, Errors(latest), intent.importedErrors, intent.importedCounters))
  {
    MergesFieldwise(base.rest, current.rest, latest.rest, intent.fields);
    MergesFieldwise(base.models, current.models, latest.models, intent.models);
    hide MergeFields, Fieldwise;
  }

  // ---- One account id: its epoch and its account ----

  function EpochOf(f: StateFile, uid: string): nat {
    if uid in f.epochs then f.epochs[uid] else 0
  }

  function IntentOf(intents: map<string, Intent>, uid: string): Intent {
    if uid in intents then intents[uid] else NO_INTENT
  }

  /** The file's and the instance's knowledge of the deletion epoch, before this save's own deletion. */
  function KnownEpoch(own: nat, latest: nat): nat {
    if own > latest then own else latest
  }

  predicate EpochOverflows(own: nat, latest: nat, intent: Intent) {
    intent.deleted && intent.deletedEpoch == 0 && KnownEpoch(own, latest) >= MAX_UINT64
  }

  function EpochAfter(own: nat, latest: nat, intent: Intent): nat {
    var e := KnownEpoch(own, latest);
    if !intent.deleted then e
    else if intent.deletedEpoch == 0 then e + 1
    else if e > intent.deletedEpoch then e
    else intent.deletedEpoch
  }

  predicate Deletes(own: nat, latest: nat, intent: Intent) {
    intent.deleted && (intent.deletedEpoch == 0 || KnownEpoch(own, latest) <= intent.deletedEpoch)
  }

  /** What a save does to one account id; None when it fails. epoch is the epoch after this save's deletion. */
  function MergePresence(base: Option<Account>, current: Option<Account>, latest: Option<Account>, intent: Intent, epoch: nat): Option<Option<Account>> {
    if current.None? then Some(latest)
    else if intent.created && intent.createdEpoch != epoch then Some(latest)
    else if latest.None? then Some(if base.None? || intent.created then current else None)
    else
      var merged := MergeAccount(if base.Some? then base.value else BLANK, current.value, latest.value, intent);
      if merged.None? then None else Some(Some(merged.value))
  }

  function AfterDeletion(file: StateFile, own: nat, intent: Intent, uid: string): Option<Account> {
    if Deletes(own, EpochOf(file, uid), intent) then None else Get(file.accounts, uid)
  }

  /** mergedStateLocked, one account id at a time: the account and the epoch the file ends with. */
  function MergeUid(base: StateFile, current: StateFile, intents: map<string, Intent>, file: StateFile, uid: string): Option<Option<Account>> {
    var own, intent := EpochOf(current, uid), IntentOf(intents, uid);
    if EpochOverflows(own, EpochOf(file, uid), intent) then None
    else
      MergePresence(Get(base.accounts, uid), Get(current.accounts, uid), AfterDeletion(file, own, intent, uid), intent,
                    EpochAfter(own, EpochOf(file, uid), intent))
  }

  function UidEpoch(current: StateFile, intents: map<string, Intent>, file: StateFile, uid: string): nat {
    EpochAfter(EpochOf(current, uid), EpochOf(file, uid), IntentOf(intents, uid))
  }

  function Involved(current: StateFile, intents: map<string, Intent>, file: StateFile): set<string> {
    current.accounts.Keys + file.accounts.Keys + current.epochs.Keys + file.epochs.Keys + intents.Keys
  }

  function EpochKeys(current: StateFile, intents: map<string, Intent>, file: StateFile): set<string> {
    file.epochs.Keys + current.epochs.Keys + set uid | uid in intents && Deletes(EpochOf(current, uid), EpochOf(file, uid), intents[uid])
  }

  predicate Mergeable(base: StateFile, current: StateFile, intents: map<string, Intent>, file: StateFile) {
    forall uid :: uid in Involved(current, intents, file) ==> MergeUid(base, current, intents, file, uid).Some?
  }

  /** What a save writes; it fails as a whole if any account id fails. */
  function MergedState(base: StateFile, current: StateFile, intents: map<string, Intent>, file: StateFile): Option<StateFile> {
    if !Mergeable(base, current, intents, file) then None
    else Some(StateFile(
      map uid | uid in Involved(current, intents, file) && MergeUid(base, current, intents, file, uid).value.Some?
        :: MergeUid(base, current, intents, file, uid).value.value,
      map uid | uid in EpochKeys(current, intents, file) :: UidEpoch(current, intents, file, uid)))
  }

  /** The merge seen from one account id. */
  lemma MergedByUid(base: StateFile, current: StateFile, intents: map<string, Intent>, file: StateFile, uid: string)
    requires MergedState(base, current, intents, file).Some?
    ensures var merged := MergedState(base, current, intents, file).value;
            && MergeUid(base, current, intents, file, uid) == Some(Get(merged.accounts, uid))
            && EpochOf(merged, uid) == UidEpoch(current, intents, file, uid)
  {
    hide MergeAccount;
    if uid !in Involved(current, intents, file) {
      assert IntentOf(intents, uid) == NO_INTENT;
    }
  }
}
