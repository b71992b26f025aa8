/**
 One instance's share of the persisted account state: the operations that feed the merge
 (internal/pool/state.go, transition.go, pool.go, persist.go) and the save.

 The functions are the specification; the class below does the work on its fields.
 */
module PoolState {
  import opened Wrappers
  import opened StateMerge
  import B = Backoff

  /** live holds the accounts as the next overview will write them. */
  datatype Instance = Instance(live: map<string, Account>, base: StateFile, intents: map<string, Intent>)

  // ---- Marking intents ----

  function MarkFields(intents: map<string, Intent>, uid: string, fields: set<Field>): map<string, Intent> {
    var change := IntentOf(intents, uid);
    intents[uid := change.(fields := change.fields + fields)]
  }

  function MarkModels(intents: map<string, Intent>, uid: string, models: set<string>): map<string, Intent> {
    var change := IntentOf(intents, uid);
    intents[uid := change.(models := change.models + models)]
  }

  function AddDelta(intents: map<string, Intent>, uid: string, consumed: int): map<string, Intent> {
    if consumed == 0 then intents
    else
      var change := IntentOf(intents, uid);
      intents[uid := change.(credits := change.credits - consumed, creditsExpiring := change.creditsExpiring - consumed)]
  }

  // ---- Local operations ----

  datatype Op =
    | NoteSuccess(uid: string, now: int, ema: Value)
    | NoteError(uid: string, now: int, rest: map<Field, Value>)
    | NoteModelCost(uid: string, consumed: nat)
    | Assign(uid: string, credits: int, creditsExpiring: int, rest: map<Field, Value>, models: map<string, Value>,
             fields: set<Field>, marked: set<string>)
    | Add(uid: string)
    | Remove(uid: string)
    | Import(snapshot: StateFile, now: int)

  const SUCCESS_FIELDS: set<Field> := {BreakerUntil, RetryCount, SoftStreak, SessionDeadFails}

  /** A success counts, clears the breaker and both streaks. */
  function Succeeded(a: Account, now: int, ema: Value): Account {
    a.(successCount := a.successCount + 1, lastSuccess := now,
       rest := (a.rest - {BreakerUntil, RetryCount})[SuccessEma := ema][SoftStreak := Number(0)][SessionDeadFails := Number(0)])
  }

  /** An error counts; what it does to the breaker and the error average comes as the remaining fields. */
  function Erred(a: Account, now: int, rest: map<Field, Value>): Account {
    a.(errTotal := a.errTotal + 1, lastErr := now, rest := rest)
  }

  /** The cooling domain at zero: no deadline, no kind, no reason, no streak, no model cooldowns. */
  function Cleared(rest: map<Field, Value>): map<Field, Value> {
    (rest - {Reason})[Until := Number(0)][CoolKind := Number(0)][SoftStreak := Number(0)]
  }

  const COOLING_FIELDS: set<Field> := {Reason, Until, CoolKind, SoftStreak, ModelCooldowns}

  /** disableLocked as an assignment: the cooling domain goes, the breaker stays. */
  function DisableOp(a: Account, uid: string, reason: string): Op {
    var cleared := Cleared(a.rest)[Disabled := Flag(true)];
    Assign(uid, a.credits, a.creditsExpiring, if reason == "" then cleared else cleared[Reason := Text(reason)], map[],
           {Disabled} + COOLING_FIELDS, {})
  }

  /** ReenableIfCredits: a positive balance ends the cooling of an account that is not disabled. */
  function ReenableOp(a: Account, uid: string, remain: int): Op {
    if remain > 0 && Get(a.rest, Disabled) != Some(Flag(true))
    then Assign(uid, remain, a.creditsExpiring, Cleared(a.rest), map[], {Credits} + COOLING_FIELDS, {})
    else Assign(uid, remain, a.creditsExpiring, a.rest, a.models, {Credits}, {})
  }

  /** One model's cooldown entry is written or dropped, and forced. */
  function ModelOp(a: Account, uid: string, model: string, entry: Option<Value>): Op {
    Assign(uid, a.credits, a.creditsExpiring, a.rest, if entry.Some? then a.models[model := entry.value] else a.models - {model}, {}, {model})
  }

  function Min(a: int, b: int): int {
    if a < b then a else b
  }

  /** Consumption never takes the own view below zero. */
  function Charged(a: Account, consumed: nat): Account {
    var d := Min(consumed, a.credits);
    a.(credits := a.credits - d, creditsExpiring := if a.creditsExpiring > 0 then a.creditsExpiring - Min(d, a.creditsExpiring) else a.creditsExpiring)
  }

  predicate Pending(deadline: Option<Value>, now: int) {
    deadline.Some? && deadline.value.Number? && deadline.value.n != 0 && now < deadline.value.n
  }

  /** The breaker's exponent is worth keeping only while it is open. */
  function KeepBreaker(rest: map<Field, Value>, now: int): map<Field, Value> {
    if Pending(Get(rest, BreakerUntil), now) then rest else rest - {BreakerUntil, RetryCount}
  }

  /** A cooldown that is over leaves no reason and no kind behind; a disabled account keeps its reason. */
  function KeepCooling(rest: map<Field, Value>, now: int): map<Field, Value> {
    if Get(rest, Disabled) == Some(Flag(true)) || Pending(Get(rest, Until), now) then rest
    else (rest - {Reason})[CoolKind := Number(0)]
  }

  function AverageIn(rest: map<Field, Value>, field: Field): real {
    if field in rest && rest[field].Decimal? then rest[field].x else 0.0
  }

  /** Old files have no averages: they start as the shares of the counters. Zero is omitted for successes. */
  function DeriveAverages(rest: map<Field, Value>, success: int, errors: int): map<Field, Value> {
    if AverageIn(rest, SuccessEma) != 0.0 || AverageIn(rest, ErrorEma) != 0.0 || success + errors <= 0 then rest
    else
      var share := success as real / (success + errors) as real;
      var others := (rest - {SuccessEma})[ErrorEma := Decimal(errors as real / (success + errors) as real)];
      if share == 0.0 then others else others[SuccessEma := Decimal(share)]
  }

  function LiveCooldowns(models: map<string, Value>, now: int): map<string, Value> {
    map m | m in models && models[m].Cooldown? && models[m].until != 0 && now < models[m].until :: models[m]
  }

  /** The account as an instance takes it over from a file or a snapshot. */
  function Restored(a: Account, now: int): Account {
    a.(errTotal := Errors(a), errCount := 0,
       creditsExpiring := if a.creditsExpiring < 0 then Min(0, a.credits) else Min(a.creditsExpiring, a.credits),
       models := LiveCooldowns(a.models, now),
       rest := DeriveAverages(KeepBreaker(KeepCooling(a.rest, now), now), a.successCount, Errors(a)))
  }

  function RestoredAll(accounts: map<string, Account>, now: int): map<string, Account> {
    map uid | uid in accounts :: Restored(accounts[uid], now)
  }

  /**
   What is taken over is sound: errors never get lost, the expiring part stays within the balance, and
   nothing that has run out survives: no model cooldown, no breaker with its exponent, no kind of cooling.
   What is pending stays with its reason, and so does the reason of a disabled account. Missing averages
   become the shares of the counters. Nothing else changes.
   */
  lemma RestoredSound(a: Account, now: int)
    ensures var r := Restored(a, now);
            && r.successCount == a.successCount && r.credits == a.credits
            && Errors(r) == Errors(a) && (Errors(a) >= 0 ==> r.errTotal == Errors(r))
            && (a.credits >= 0 ==> 0 <= r.creditsExpiring <= a.credits)
            && (forall m :: m in r.models <==> m in a.models && a.models[m].Cooldown? && Pending(Some(Number(a.models[m].until)), now))
            && (forall m :: m in r.models ==> r.models[m] == a.models[m])
            && (Pending(Get(a.rest, BreakerUntil), now) ==>
                  Get(r.rest, BreakerUntil) == Get(a.rest, BreakerUntil) && Get(r.rest, RetryCount) == Get(a.rest, RetryCount))
            && (!Pending(Get(a.rest, BreakerUntil), now) ==> BreakerUntil !in r.rest && RetryCount !in r.rest)
            && (Get(a.rest, Disabled) != Some(Flag(true)) && !Pending(Get(a.rest, Until), now) ==>
                  Reason !in r.rest && Get(r.rest, CoolKind) == Some(Number(0)))
            && (Get(a.rest, Disabled) == Some(Flag(true)) || Pending(Get(a.rest, Until), now) ==>
                  Get(r.rest, Reason) == Get(a.rest, Reason) && Get(r.rest, CoolKind) == Get(a.rest, CoolKind))
            && (forall k :: k !in {SuccessEma, ErrorEma, BreakerUntil, RetryCount, Reason, CoolKind} ==> Get(r.rest, k) == Get(a.rest, k))
            && r.creditsExpiring == Min(Max(a.creditsExpiring, 0), a.credits)
            && r.lastSuccess == a.lastSuccess && r.lastErr == a.lastErr
            && AveragesFrom(a.rest, r.rest, a.successCount, Errors(a))
    requires a.errCount >= 0
  {
    RestKept(a.rest, now, a.successCount, Errors(a));
    AveragesKept(a.rest, now, a.successCount, Errors(a));
    hide KeepBreaker, KeepCooling, DeriveAverages, AveragesFrom;
  }

  /** Averages that exist stay; otherwise each becomes its counter's share of all events. */
  predicate AveragesFrom(before: map<Field, Value>, after: map<Field, Value>, success: int, errors: int) {
    if AverageIn(before, SuccessEma) != 0.0 || AverageIn(before, ErrorEma) != 0.0 || success + errors <= 0 then
      Get(after, SuccessEma) == Get(before, SuccessEma) && Get(after, ErrorEma) == Get(before, ErrorEma)
    else
      && AverageIn(after, SuccessEma) == success as real / (success + errors) as real
      && AverageIn(after, ErrorEma) == errors as real / (success + errors) as real
      && ErrorEma in after && (SuccessEma in after <==> success != 0)
  }

  lemma AveragesKept(rest: map<Field, Value>, now: int, success: int, errors: int)
    ensures AveragesFrom(rest, DeriveAverages(KeepBreaker(KeepCooling(rest, now), now), success, errors), success, errors)
  {
    var kept := KeepBreaker(KeepCooling(rest, now), now);
    assert Get(kept, SuccessEma) == Get(rest, SuccessEma) && Get(kept, ErrorEma) == Get(rest, ErrorEma);
    hide KeepBreaker, KeepCooling;
  }

  lemma RestKept(rest: map<Field, Value>, now: int, success: int, errors: int)
    ensures var r := DeriveAverages(KeepBreaker(KeepCooling(rest, now), now), success, errors);
            && (forall k :: k !in {SuccessEma, ErrorEma, BreakerUntil, RetryCount, Reason, CoolKind} ==> Get(r, k) == Get(rest, k))
            && Get(r, BreakerUntil) == (if Pending(Get(rest, BreakerUntil), now) then Get(rest, BreakerUntil) else None)
            && Get(r, RetryCount) == (if Pending(Get(rest, BreakerUntil), now) then Get(rest, RetryCount) else None)
            && (Get(rest, Disabled) != Some(Flag(true)) && !Pending(Get(rest, Until), now) ==> Reason !in r && Get(r, CoolKind) == Some(Number(0)))
            && (Get(rest, Disabled) == Some(Flag(true)) || Pending(Get(rest, Until), now) ==>
                  Get(r, Reason) == Get(rest, Reason) && Get(r, CoolKind) == Get(rest, CoolKind))
  {
  }

  function Added(inst: Instance, uid: string, file: StateFile): Instance {
    var epoch := KnownEpoch(EpochOf(inst.base, uid), EpochOf(file, uid));
    var created := inst.intents[uid := IntentOf(inst.intents, uid).(created := true, deleted := false, createdEpoch := epoch)];
    if uid in inst.live then
      if uid !in file.accounts || epoch != EpochOf(inst.base, uid) then inst.(intents := created) else inst
    else Instance(inst.live[uid := BLANK], inst.base.(accounts := inst.base.accounts[uid := BLANK]), created)
  }

  function Removed(inst: Instance, uid: string): Instance {
    if uid !in inst.live then inst
    else inst.(live := inst.live - {uid}, intents := inst.intents[uid := IntentOf(inst.intents, uid).(deleted := true, deletedEpoch := 0)])
  }

  function MaxEpochs(own: map<string, nat>, other: map<string, nat>): map<string, nat> {
    map uid | uid in own.Keys + other.Keys ::
      if uid !in other then own[uid] else if uid !in own then other[uid] else KnownEpoch(own[uid], other[uid])
  }

  function ImportIntent(known: bool, a: Account, epoch: nat): Intent {
    Intent({}, {}, 0, 0, !known, false, if known then 0 else epoch, 0, true, a.successCount, a.errTotal)
  }

  function Imported(inst: Instance, s: StateFile, now: int): Instance {
    var live := RestoredAll(s.accounts, now);
    Instance(
      live,
      StateFile(
        map uid | uid in inst.base.accounts.Keys + live.Keys ::
          var b := if uid in inst.base.accounts then inst.base.accounts[uid] else BLANK;
          if uid in live then b.(successCount := live[uid].successCount, errTotal := live[uid].errTotal, errCount := 0) else b,
        MaxEpochs(inst.base.epochs, s.epochs)),
      map uid | uid in inst.live.Keys + live.Keys ::
        if uid in live then ImportIntent(uid in inst.base.accounts, live[uid], EpochOf(s, uid))
        else NO_INTENT.(deleted := true, deletedEpoch := EpochOf(s, uid)))
  }

  /** file is what the operation may look at on disk; only Add does. */
  function Local(inst: Instance, op: Op, file: StateFile): Instance {
    match op
    case NoteSuccess(uid, now, ema) =>
      if uid !in inst.live then inst
      else inst.(live := inst.live[uid := Succeeded(inst.live[uid], now, ema)], intents := MarkFields(inst.intents, uid, SUCCESS_FIELDS))
    case NoteError(uid, now, rest) =>
      if uid !in inst.live then inst else inst.(live := inst.live[uid := Erred(inst.live[uid], now, rest)])
    case NoteModelCost(uid, consumed) =>
      if uid !in inst.live then inst
      else inst.(live := inst.live[uid := Charged(inst.live[uid], consumed)], intents := AddDelta(inst.intents, uid, consumed))
    case Assign(uid, credits, expiring, rest, models, fields, marked) =>
      if uid !in inst.live then inst
      else
        var after := inst.live[uid].(credits := credits, creditsExpiring := expiring, rest := rest, models := models);
        inst.(live := inst.live[uid := after], intents := MarkModels(MarkFields(inst.intents, uid, fields), uid, marked))
    case Add(uid) => Added(inst, uid, file)
    case Remove(uid) => Removed(inst, uid)
    case Import(snapshot, now) => Imported(inst, snapshot, now)
  }

  // ---- Save and load ----

  function Overview(inst: Instance): StateFile {
    StateFile(inst.live, inst.base.epochs)
  }

  function SaveResult(inst: Instance, file: StateFile): Option<StateFile> {
    MergedState(inst.base, Overview(inst), inst.intents, file)
  }

  /** A committed save replaces the file, takes the own overview as baseline and forgets the intents. */
  function AfterSave(inst: Instance, merged: StateFile): Instance {
    Instance(inst.live, StateFile(inst.live, merged.epochs), map[])
  }

  function Loaded(file: StateFile, now: int): Instance {
    Instance(RestoredAll(file.accounts, now), file, map[])
  }

  function Later(a: nat, b: nat): nat {
    if a > b then a else b
  }

  /** The deletion takes effect: it is not older than what file and instance know. */
  predicate Effective(intent: Intent, known: nat) {
    intent.deleted && (intent.deletedEpoch == 0 || intent.deletedEpoch >= known)
  }

  /**
   What a save must make of one account id. The epoch becomes that of an effective deletion and otherwise
   the later of both. The account goes with the deletion; it is the file's if the instance does not hold
   it or created it at another epoch; a missing one appears if it is new or created here; and an account
   that both have is merged.
   */
  ghost predicate SavedAs(inst: Instance, file: StateFile, merged: StateFile, uid: string) {
    var intent, known := IntentOf(inst.intents, uid), Later(EpochOf(inst.base, uid), EpochOf(file, uid));
    var latest := if Effective(intent, known) then None else Get(file.accounts, uid);
    var r := Get(merged.accounts, uid);
    && EpochOf(merged, uid) == (if !Effective(intent, known) then known else if intent.deletedEpoch == 0 then known + 1 else intent.deletedEpoch)
    && (if uid !in inst.live || (intent.created && intent.createdEpoch != EpochOf(merged, uid)) then r == latest
        else if latest.None? then r == if uid !in inst.base.accounts || intent.created then Some(inst.live[uid]) else None
        else r.Some? && Merged(if uid in inst.base.accounts then inst.base.accounts[uid] else BLANK, inst.live[uid], latest.value, intent, r.value))
  }

  /** A committed save does exactly that with every account id. */
  lemma SaveWrites(inst: Instance, file: StateFile, uid: string)
    requires SaveResult(inst, file).Some?
    ensures SavedAs(inst, file, SaveResult(inst, file).value, uid)
  {
    hide MergedState, MergePresence, MergeAccount, Merged;
    MergedByUid(inst.base, Overview(inst), inst.intents, file, uid);
    var intent := IntentOf(inst.intents, uid);
    var own, filed := EpochOf(inst.base, uid), EpochOf(file, uid);
    EpochWritten(own, filed, intent);
    var latest := AfterDeletion(file, own, intent, uid);
    var known := Later(own, filed);
    assert latest == if Effective(intent, known) then None else Get(file.accounts, uid);
    PresenceWritten(Get(inst.base.accounts, uid), Get(inst.live, uid), latest, intent, EpochAfter(own, filed, intent));
    hide EpochAfter, Deletes, Effective, Later;
  }

  lemma EpochWritten(own: nat, filed: nat, intent: Intent)
    ensures var known := Later(own, filed);
            && EpochAfter(own, filed, intent) == (if !Effective(intent, known) then known else if intent.deletedEpoch == 0 then known + 1 else intent.deletedEpoch)
            && (Deletes(own, filed, intent) <==> Effective(intent, known))
  {
  }

  lemma PresenceWritten(base: Option<Account>, current: Option<Account>, latest: Option<Account>, intent: Intent, epoch: nat)
    requires MergePresence(base, current, latest, intent, epoch).Some?
    ensures var r := MergePresence(base, current, latest, intent, epoch).value;
            if current.None? || (intent.created && intent.createdEpoch != epoch) then r == latest
            else if latest.None? then r == if base.None? || intent.created then current else None
            else r.Some? && Merged(if base.Some? then base.value else BLANK, current.value, latest.value, intent, r.value)
  {
    if current.Some? && latest.Some? {
      MergesAccount(if base.Some? then base.value else BLANK, current.value, latest.value, intent);
    }
    hide MergeAccount, Merged;
  }

  /** The account id that makes a save fail: its epoch cannot grow, or one of its counters leaves 64 bits. */
  ghost predicate Fails(inst: Instance, file: StateFile, uid: string) {
    var intent, known := IntentOf(inst.intents, uid), Later(EpochOf(inst.base, uid), EpochOf(file, uid));
    || (intent.deleted && intent.deletedEpoch == 0 && known >= MAX_UINT64)
    || (uid in inst.live && !Effective(intent, known) && uid in file.accounts && !(intent.created && intent.createdEpoch != known)
        && OverflowsAt(if uid in inst.base.accounts then inst.base.accounts[uid] else BLANK, inst.live[uid], file.accounts[uid], intent))
  }

  predicate OverflowsAt(base: Account, current: Account, latest: Account, intent: Intent) {
    || CountOverflows(base.successCount, current.successCount, latest.successCount, intent.importedSuccess, intent.importedCounters)
    || CountOverflows(Errors(base), current.errTotal, Errors(latest), intent.importedErrors, intent.importedCounters)
  }

  /** A save fails exactly when some account id does. */
  lemma SaveFails(inst: Instance, file: StateFile)
    ensures SaveResult(inst, file).None? <==> exists uid :: Fails(inst, file, uid)
  {
    var current := Overview(inst);
    forall uid: string
      ensures Fails(inst, file, uid) <==> MergeUid(inst.base, current, inst.intents, file, uid).None?
      ensures Fails(inst, file, uid) ==> uid in Involved(current, inst.intents, file)
    {
      FailsAt(inst, file, uid);
    }
    hide Fails, MergeUid, Involved;
  }

  lemma FailsAt(inst: Instance, file: StateFile, uid: string)
    ensures Fails(inst, file, uid) <==> MergeUid(inst.base, Overview(inst), inst.intents, file, uid).None?
    ensures Fails(inst, file, uid) ==> uid in Involved(Overview(inst), inst.intents, file)
  {
    var intent := IntentOf(inst.intents, uid);
    if uid in inst.live && uid in file.accounts {
      MergesAccount(if uid in inst.base.accounts then inst.base.accounts[uid] else BLANK, inst.live[uid], file.accounts[uid], intent);
    }
    hide MergeAccount, Merged, CountOverflows;
  }

  // ---- The objects ----

  /** The shared state file, replaced as a whole under the cross-process lock. */
  class Disk {
    var file: StateFile

    constructor (file: StateFile)
      ensures this.file == file
    {
      this.file := file;
    }
  }

  class Pool {
    var byUid: map<string, Account>
    var persistBase: StateFile
    var stateIntents: map<string, Intent>

    ghost function View(): Instance
      reads this
    {
      Instance(byUid, persistBase, stateIntents)
    }

    constructor Load(disk: Disk, now: int)
      ensures View() == Loaded(disk.file, now)
    {
      byUid := map[];
      persistBase := disk.file;
      stateIntents := map[];
      new;
      ApplyAccounts(disk.file.accounts, now);
      SameByKey(byUid, RestoredAll(disk.file.accounts, now));
    }

    /** applyAccountsLocked: every account of a file or a snapshot becomes a live one. */
    method ApplyAccounts(accounts: map<string, Account>, now: int)
      modifies this`byUid
      ensures forall u :: Get(byUid, u) == if u in accounts then Some(Restored(accounts[u], now)) else Get(old(byUid), u)
    {
      hide Restored;
      var keys := accounts.Keys;
      while keys != {}
        invariant keys <= accounts.Keys
        invariant forall u :: Get(byUid, u) == if u in accounts && u !in keys then Some(Restored(accounts[u], now)) else Get(old(byUid), u)
        decreases |keys|
      {
        ghost var before, todo := byUid, keys;
        var uid :| uid in keys;
        keys := keys - {uid};
        byUid := byUid[uid := Restored(accounts[uid], now)];
        forall u: string
          ensures Get(byUid, u) == if u in accounts && u !in keys then Some(Restored(accounts[u], now)) else Get(old(byUid), u)
        {
          assert Get(before, u) == if u in accounts && u !in todo then Some(Restored(accounts[u], now)) else Get(old(byUid), u);
        }
      }
    }

    method MarkStateFields(uid: string, fields: set<Field>)
      modifies this`stateIntents
      ensures stateIntents == MarkFields(old(stateIntents), uid, fields)
      ensures IntentOf(stateIntents, uid).fields == IntentOf(old(stateIntents), uid).fields + fields
      ensures forall u :: u != uid ==> Get(stateIntents, u) == Get(old(stateIntents), u)
    {
      var change := if uid in stateIntents then stateIntents[uid] else NO_INTENT;
      stateIntents := stateIntents[uid := change.(fields := change.fields + fields)];
    }

    /** Only this account, and its intent, may differ from before. */
    twostate predicate OnlyTouches(uid: string)
      reads this
    {
      && persistBase == old(persistBase)
      && (forall u :: u in byUid <==> u in old(byUid))
      && (forall u :: u != uid ==> Get(byUid, u) == old(Get(byUid, u)) && Get(stateIntents, u) == old(Get(stateIntents, u)))
    }

    method NoteSuccess(uid: string, now: int, ema: Value)
      modifies this
      ensures OnlyTouches(uid)
      ensures uid in byUid ==>
                && byUid[uid].successCount == old(byUid)[uid].successCount + 1 && byUid[uid].lastSuccess == now
                && byUid[uid].errTotal == old(byUid)[uid].errTotal && byUid[uid].credits == old(byUid)[uid].credits && byUid[uid].models == old(byUid)[uid].models
                && BreakerUntil !in byUid[uid].rest && RetryCount !in byUid[uid].rest && Get(byUid[uid].rest, SuccessEma) == Some(ema)
                && Get(byUid[uid].rest, SoftStreak) == Get(byUid[uid].rest, SessionDeadFails) == Some(Number(0))
                && byUid[uid] == old(byUid)[uid].(successCount := byUid[uid].successCount, lastSuccess := now, rest := byUid[uid].rest)
                && (forall k :: k !in SUCCESS_FIELDS && k != SuccessEma ==> Get(byUid[uid].rest, k) == Get(old(byUid)[uid].rest, k))
                && IntentOf(stateIntents, uid) == IntentOf(old(stateIntents), uid).(fields := IntentOf(old(stateIntents), uid).fields + {BreakerUntil, RetryCount, SoftStreak, SessionDeadFails})
      ensures View() == Local(old(View()), Op.NoteSuccess(uid, now, ema), persistBase)
    {
      if uid !in byUid {
        return;
      }
      var e := byUid[uid];
      e := e.(successCount := e.successCount + 1, lastSuccess := now);
      e := e.(rest := (e.rest - {BreakerUntil, RetryCount})[SuccessEma := ema][SoftStreak := Number(0)][SessionDeadFails := Number(0)]);
      byUid := byUid[uid := e];
      MarkStateFields(uid, SUCCESS_FIELDS);
    }

    method NoteError(uid: string, now: int, rest: map<Field, Value>)
      modifies this
      ensures OnlyTouches(uid) && stateIntents == old(stateIntents)
      ensures uid in byUid ==>
                byUid[uid] == old(byUid)[uid].(errTotal := old(byUid)[uid].errTotal + 1, lastErr := now, rest := rest)
      ensures View() == Local(old(View()), Op.NoteError(uid, now, rest), persistBase)
    {
      if uid in byUid {
        var e := byUid[uid];
        byUid := byUid[uid := e.(errTotal := e.errTotal + 1, lastErr := now, rest := rest)];
      }
    }

    method NoteModelCost(uid: string, consumed: nat)
      modifies this
      ensures OnlyTouches(uid)
      ensures uid in byUid ==>
                && byUid[uid].credits == Max(0, old(byUid)[uid].credits - consumed)
                && byUid[uid].creditsExpiring == (if old(byUid)[uid].creditsExpiring <= 0 then old(byUid)[uid].creditsExpiring
                                                  else Max(0, old(byUid)[uid].creditsExpiring - Min(consumed, old(byUid)[uid].credits)))
      ensures uid in byUid ==> byUid[uid] == old(byUid)[uid].(credits := byUid[uid].credits, creditsExpiring := byUid[uid].creditsExpiring)
      ensures uid in byUid ==>
                var before := IntentOf(old(stateIntents), uid);
                IntentOf(stateIntents, uid) == before.(credits := before.credits - consumed, creditsExpiring := before.creditsExpiring - consumed)
      ensures View() == Local(old(View()), Op.NoteModelCost(uid, consumed), persistBase)
    {
      if uid !in byUid {
        return;
      }
      var e := byUid[uid];
      var d: int := consumed;
      if d > e.credits {
        d := e.credits;
      }
      e := e.(credits := e.credits - d);
      if consumed != 0 {
        var change := if uid in stateIntents then stateIntents[uid] else NO_INTENT;
        stateIntents := stateIntents[uid := change.(credits := change.credits - consumed, creditsExpiring := change.creditsExpiring - consumed)];
      }
      if e.creditsExpiring > 0 {
        if d > e.creditsExpiring {
          d := e.creditsExpiring;
        }
        e := e.(creditsExpiring := e.creditsExpiring - d);
      }
      byUid := byUid[uid := e];
    }

    method Disable(uid: string, reason: string)
      modifies this
      ensures OnlyTouches(uid)
      ensures uid in byUid ==>
                && Get(byUid[uid].rest, Disabled) == Some(Flag(true)) && Get(byUid[uid].rest, Reason) == (if reason == "" then None else Some(Text(reason)))
                && Get(byUid[uid].rest, Until) == Get(byUid[uid].rest, SoftStreak) == Some(Number(0)) && byUid[uid].models == map[]
                && Get(byUid[uid].rest, CoolKind) == Some(Number(0))
                && byUid[uid] == old(byUid)[uid].(rest := byUid[uid].rest, models := map[])
                && (forall k :: k !in {Disabled, Reason, Until, CoolKind, SoftStreak} ==> Get(byUid[uid].rest, k) == Get(old(byUid)[uid].rest, k))
                && IntentOf(stateIntents, uid) == IntentOf(old(stateIntents), uid).(fields := IntentOf(old(stateIntents), uid).fields + {Disabled, Reason, Until, CoolKind, SoftStreak, ModelCooldowns})
      ensures View() == if uid in old(byUid) then Local(old(View()), DisableOp(old(byUid)[uid], uid, reason), persistBase) else old(View())
    {
      if uid in byUid {
        var e := byUid[uid];
        e := e.(rest := Cleared(e.rest), models := map[]);
        e := e.(rest := e.rest[Disabled := Flag(true)]);
        if reason != "" {
          e := e.(rest := e.rest[Reason := Text(reason)]);
        }
        byUid := byUid[uid := e];
        MarkStateFields(uid, {Disabled} + COOLING_FIELDS);
        NoModels(stateIntents, uid);
      }
    }

    method ReenableIfCredits(uid: string, remain: int)
      modifies this
      ensures OnlyTouches(uid)
      ensures uid in byUid ==> byUid[uid].credits == remain && Get(byUid[uid].rest, Disabled) == Get(old(byUid)[uid].rest, Disabled)
      ensures uid in byUid && remain > 0 && Get(old(byUid)[uid].rest, Disabled) != Some(Flag(true)) ==>
                && Get(byUid[uid].rest, Until) == Get(byUid[uid].rest, CoolKind) == Get(byUid[uid].rest, SoftStreak) == Some(Number(0))
                && Reason !in byUid[uid].rest && byUid[uid].models == map[]
                && IntentOf(stateIntents, uid) == IntentOf(old(stateIntents), uid).(fields := IntentOf(old(stateIntents), uid).fields + {Credits, Reason, Until, CoolKind, SoftStreak, ModelCooldowns})
      ensures uid in byUid ==>
                && byUid[uid] == old(byUid)[uid].(credits := remain, rest := byUid[uid].rest, models := byUid[uid].models)
                && (forall k :: k !in {Reason, Until, CoolKind, SoftStreak} ==> Get(byUid[uid].rest, k) == Get(old(byUid)[uid].rest, k))
      ensures uid in byUid && (remain <= 0 || Get(old(byUid)[uid].rest, Disabled) == Some(Flag(true))) ==>
                && byUid[uid].rest == old(byUid)[uid].rest && byUid[uid].models == old(byUid)[uid].models
                && IntentOf(stateIntents, uid) == IntentOf(old(stateIntents), uid).(fields := IntentOf(old(stateIntents), uid).fields + {Credits})
      ensures View() == if uid in old(byUid) then Local(old(View()), ReenableOp(old(byUid)[uid], uid, remain), persistBase) else old(View())
    {
      if uid in byUid {
        var e := byUid[uid];
        if remain > 0 && Get(e.rest, Disabled) != Some(Flag(true)) {
          byUid := byUid[uid := e.(credits := remain, rest := Cleared(e.rest), models := map[])];
          MarkStateFields(uid, {Credits} + COOLING_FIELDS);
        } else {
          byUid := byUid[uid := e.(credits := remain)];
          MarkStateFields(uid, {Credits});
        }
        NoModels(stateIntents, uid);
      }
    }

    /** CooldownSoftForModel with the upstream's reset time: this model alone cools, until then or until the cap. */
    method CooldownModel(uid: string, model: string, now: nat, resetAt: nat, reason: string, softRateMax: int)
      modifies this
      ensures OnlyTouches(uid)
      ensures uid in byUid ==>
                var cap := now + if softRateMax > 0 then softRateMax else 7_200_000_000_000;
                var until := if resetAt > cap then cap else if resetAt > now then resetAt else now + 1_000_000;
                byUid[uid] == old(byUid)[uid].(models := old(byUid)[uid].models[model := Cooldown(until, resetAt, reason)])
      ensures uid in byUid ==> IntentOf(stateIntents, uid) == IntentOf(old(stateIntents), uid).(models := IntentOf(old(stateIntents), uid).models + {model})
      ensures View() == if uid in old(byUid) then Local(old(View()), ModelOp(old(byUid)[uid], uid, model, Get(byUid[uid].models, model)), persistBase) else old(View())
    {
      if uid in byUid {
        var e := byUid[uid];
        var until := B.CappedSoftUntil(now, resetAt, softRateMax);
        byUid := byUid[uid := e.(models := e.models[model := Cooldown(until, resetAt, reason)])];
        MarkStateModel(uid, model);
      }
    }

    /** BlockModelClear: a success drops the model's entry if it says that the backend lacks the model. */
    method BlockModelClear(uid: string, model: string)
      modifies this
      ensures OnlyTouches(uid)
      ensures var drops := uid != "" && model != "" && uid in old(byUid) && model in old(byUid)[uid].models
                           && old(byUid)[uid].models[model].Cooldown? && "11102" <= old(byUid)[uid].models[model].reason;
              if drops then
                && byUid[uid] == old(byUid)[uid].(models := old(byUid)[uid].models - {model})
                && IntentOf(stateIntents, uid) == IntentOf(old(stateIntents), uid).(models := IntentOf(old(stateIntents), uid).models + {model})
                && View() == Local(old(View()), ModelOp(old(byUid)[uid], uid, model, None), persistBase)
              else View() == old(View())
    {
      if uid == "" || model == "" || uid !in byUid {
        return;
      }
      var e := byUid[uid];
      if model !in e.models || !e.models[model].Cooldown? || !("11102" <= e.models[model].reason) {
        return;
      }
      byUid := byUid[uid := e.(models := e.models - {model})];
      MarkStateModel(uid, model);
    }

    method MarkStateModel(uid: string, model: string)
      modifies this`stateIntents
      ensures stateIntents == MarkModels(MarkFields(old(stateIntents), uid, {}), uid, {model})
      ensures IntentOf(stateIntents, uid) == IntentOf(old(stateIntents), uid).(models := IntentOf(old(stateIntents), uid).models + {model})
      ensures forall u :: u != uid ==> Get(stateIntents, u) == Get(old(stateIntents), u)
    {
      var change := if uid in stateIntents then stateIntents[uid] else NO_INTENT;
      stateIntents := stateIntents[uid := change.(models := change.models + {model})];
      assert change.fields + {} == change.fields;
    }

    /** upsertLocked, with the epoch observed on disk. */
    method Add(uid: string, disk: Disk)
      modifies this
      ensures uid in byUid && persistBase.epochs == old(persistBase).epochs
      ensures uid in old(byUid) ==> byUid == old(byUid) && persistBase == old(persistBase)
      ensures uid !in old(byUid) ==> byUid == old(byUid)[uid := BLANK] && persistBase.accounts == old(persistBase).accounts[uid := BLANK]
      ensures uid !in old(byUid) || uid !in disk.file.accounts || EpochOf(persistBase, uid) < EpochOf(disk.file, uid) ==>
                IntentOf(stateIntents, uid) == IntentOf(old(stateIntents), uid).(created := true, deleted := false,
                                                                                 createdEpoch := Later(EpochOf(persistBase, uid), EpochOf(disk.file, uid)))
      ensures uid in old(byUid) && uid in disk.file.accounts && EpochOf(persistBase, uid) >= EpochOf(disk.file, uid) ==> stateIntents == old(stateIntents)
      ensures forall u :: u != uid ==> Get(stateIntents, u) == Get(old(stateIntents), u)
      ensures View() == Local(old(View()), Op.Add(uid), disk.file)
    {
      var epoch := KnownEpoch(EpochOf(persistBase, uid), EpochOf(disk.file, uid));
      var persisted := uid in disk.file.accounts;
      var change := if uid in stateIntents then stateIntents[uid] else NO_INTENT;
      change := change.(created := true, deleted := false, createdEpoch := epoch);
      if uid in byUid {
        if !persisted || epoch != EpochOf(persistBase, uid) {
          stateIntents := stateIntents[uid := change];
        }
        return;
      }
      byUid := byUid[uid := BLANK];
      persistBase := persistBase.(accounts := persistBase.accounts[uid := BLANK]);
      stateIntents := stateIntents[uid := change];
    }

    /** The removal half of SyncToDir. */
    method Remove(uid: string)
      modifies this
      ensures byUid == old(byUid) - {uid} && persistBase == old(persistBase)
      ensures uid in old(byUid) ==> IntentOf(stateIntents, uid) == IntentOf(old(stateIntents), uid).(deleted := true, deletedEpoch := 0)
      ensures uid !in old(byUid) ==> stateIntents == old(stateIntents)
      ensures forall u :: u != uid ==> Get(stateIntents, u) == Get(old(stateIntents), u)
      ensures View() == Local(old(View()), Op.Remove(uid), persistBase)
    {
      if uid in byUid {
        var change := if uid in stateIntents then stateIntents[uid] else NO_INTENT;
        stateIntents := stateIntents[uid := change.(deleted := true, deletedEpoch := 0)];
        byUid := byUid - {uid};
      }
    }

    /** SyncToDir: the listed accounts are upserted, all others removed, and a removal is saved at once. */
    method SyncToDir(uids: seq<string>, disk: Disk)
      modifies this, disk
      ensures Synced(old(View()), uids, old(disk.file), View(), disk.file)
    {
      hide Added, Removed, MergedState;
      for k := 0 to |uids|
        invariant View() == AddedAll(old(View()), uids[..k], old(disk.file)) && disk.file == old(disk.file)
      {
        assert uids[..k + 1][..k] == uids[..k];
        Add(uids[k], disk);
      }
      assert uids[..|uids|] == uids;
      ghost var added := View();
      var changed := false;
      var gone := byUid.Keys - set u | u in uids;
      ghost var removed: seq<string> := [];
      while gone != {}
        invariant forall u :: u in gone ==> u in added.live && u !in uids
        invariant View() == RemovedAll(added, removed) && disk.file == old(disk.file)
        invariant forall u :: u in removed ==> u in added.live && u !in uids
        invariant forall u :: u in added.live && u !in uids ==> u in gone || u in removed
        invariant changed <==> removed != []
        decreases |gone|
      {
        var uid :| uid in gone;
        gone := gone - {uid};
        assert (removed + [uid])[..|removed|] == removed;
        Remove(uid);
        removed := removed + [uid];
        changed := true;
      }
      if changed {
        var ok := Save(disk);
        SyncedIntro(old(View()), uids, old(disk.file), removed, View(), disk.file);
      } else {
        SyncedIntro(old(View()), uids, old(disk.file), removed, View(), disk.file);
      }
    }

    /** Live accounts the snapshot does not know are deleted, with the snapshot's epoch. */
    method MarkMissing(s: StateFile)
      modifies this`stateIntents
      ensures forall u :: Get(stateIntents, u) == MissingIntent(byUid, s, {}, u)
    {
      stateIntents := map[];
      var keys := byUid.Keys;
      while keys != {}
        invariant keys <= byUid.Keys
        invariant forall u :: Get(stateIntents, u) == MissingIntent(byUid, s, keys, u)
        decreases |keys|
      {
        ghost var before, todo := stateIntents, keys;
        var uid :| uid in keys;
        keys := keys - {uid};
        if uid !in s.accounts {
          stateIntents := stateIntents[uid := NO_INTENT.(deleted := true, deletedEpoch := EpochOf(s, uid))];
        }
        forall u: string
          ensures Get(stateIntents, u) == MissingIntent(byUid, s, keys, u)
        {
          assert Get(before, u) == MissingIntent(byUid, s, todo, u);
        }
      }
    }

    /** The counters of every live account become its baseline, and the floor of the next merge. */
    method RebaseCounters(s: StateFile)
      modifies this`persistBase, this`stateIntents
      ensures persistBase.epochs == old(persistBase).epochs
      ensures forall u :: Rebased(old(View()), View(), s, {}, u)
    {
      var keys := byUid.Keys;
      while keys != {}
        invariant keys <= byUid.Keys && persistBase.epochs == old(persistBase).epochs
        invariant forall u :: Rebased(old(View()), View(), s, keys, u)
        decreases |keys|
      {
        ghost var before, todo := View(), keys;
        var uid :| uid in keys;
        keys := keys - {uid};
        assert Rebased(old(View()), before, s, todo, uid);
        var base, change := RebasedAccount(uid, s);
        assert base == ImportedBase(old(View()), byUid[uid], uid);
        hide ImportedBase, ImportIntent;
        persistBase := persistBase.(accounts := persistBase.accounts[uid := base]);
        stateIntents := stateIntents[uid := change];
        forall u: string
          ensures Rebased(old(View()), View(), s, keys, u)
        {
          assert Rebased(old(View()), before, s, todo, u);
        }
      }
    }

    method RebasedAccount(uid: string, s: StateFile) returns (base: Account, change: Intent)
      requires uid in byUid
      ensures base == ImportedBase(View(), byUid[uid], uid)
      ensures change == ImportIntent(uid in persistBase.accounts, byUid[uid], EpochOf(s, uid))
    {
      var e := byUid[uid];
      var known := uid in persistBase.accounts;
      base := if known then persistBase.accounts[uid] else BLANK;
      base := base.(successCount := e.successCount, errTotal := e.errTotal, errCount := 0);
      change := NO_INTENT.(importedCounters := true, importedSuccess := e.successCount, importedErrors := e.errTotal);
      if !known {
        change := change.(created := true, createdEpoch := EpochOf(s, uid));
      }
    }

    /** applySnapshotLocked: the snapshot replaces the live accounts. */
    method ApplySnapshot(s: StateFile, now: int)
      modifies this
      ensures byUid.Keys == s.accounts.Keys
      ensures forall u :: u in s.accounts ==> Snapshotted(old(View()), s, now, View(), u)
      ensures forall u :: u in old(byUid) && u !in s.accounts ==>
                u in stateIntents && stateIntents[u].deleted && stateIntents[u].deletedEpoch == EpochOf(s, u)
      ensures forall u :: u !in s.accounts ==> Get(persistBase.accounts, u) == Get(old(persistBase).accounts, u)
      ensures View() == Imported(old(View()), s, now)
    {
      hide RestoredAll, MaxEpochs, Imported, ImportedBase, ImportIntent, Snapshotted;
      MarkMissing(s);
      byUid := map[];
      ApplyAccounts(s.accounts, now);
      SameByKey(byUid, RestoredAll(s.accounts, now)) by { RestoredByKey(s.accounts, now); }
      var epochs := ObserveEpochs(persistBase.epochs, s.epochs);
      persistBase := persistBase.(epochs := epochs);
      ghost var middle := View();
      RebaseCounters(s);
      ImportedByKey(old(View()), s, now);
      RebaseSame(old(View()), middle, s, now);
      ghost var result := Imported(old(View()), s, now);
      forall u: string
        ensures Get(persistBase.accounts, u) == Get(result.base.accounts, u)
        ensures Get(stateIntents, u) == Get(result.intents, u)
      {
        assert Rebased(middle, View(), s, {}, u);
        assert Get(middle.intents, u) == MissingIntent(old(byUid), s, {}, u);
      }
      SameByKey(persistBase.accounts, result.base.accounts);
      SameByKey(stateIntents, result.intents);
      assert View() == result;
      hide *;
      SnapshotTaken(old(View()), s, now);
    }

    /** mergedStateLocked, part one: the file's epochs and the own ones, whichever is later. */
    method ObserveEpochs(epochs: map<string, nat>, own: map<string, nat>) returns (r: map<string, nat>)
      ensures r == MaxEpochs(epochs, own)
    {
      hide MaxEpochs;
      r := epochs;
      var keys := own.Keys;
      while keys != {}
        invariant keys <= own.Keys
        invariant forall uid :: Get(r, uid) == if uid in own && uid !in keys then Some(LaterEpoch(epochs, own, uid)) else Get(epochs, uid)
        decreases |keys|
      {
        var uid :| uid in keys;
        keys := keys - {uid};
        assert Get(r, uid) == Get(epochs, uid);
        r := r[uid := KnownEpoch(own[uid], if uid in r then r[uid] else 0)];
      }
      forall uid: string
        ensures Get(r, uid) == Get(MaxEpochs(epochs, own), uid)
      {
        MaxEpochsByKey(epochs, own, uid);
      }
      SameByKey(r, MaxEpochs(epochs, own));
    }

    /** One deletion intent; None when the epoch cannot grow any more. */
    method ApplyDeletion(intent: Intent, uid: string, file: StateFile) returns (r: Option<StateFile>)
      ensures r.None? <==> Overflowing(intent, EpochOf(file, uid))
      ensures r.Some? ==> CarriedOut(intent, uid, file, r.value)
    {
      var epochs := file.epochs;
      if !intent.deleted {
        return Some(file);
      }
      if intent.deletedEpoch != 0 {
        if EpochOf(file, uid) > intent.deletedEpoch {
          return Some(file);
        }
        epochs := epochs[uid := intent.deletedEpoch];
      } else {
        if EpochOf(file, uid) >= MAX_UINT64 {
          return None;
        }
        epochs := epochs[uid := EpochOf(file, uid) + 1];
      }
      r := Some(StateFile(file.accounts - {uid}, epochs));
    }

    /** Part two: this instance's deletions. */
    method ApplyDeletions(latest: StateFile) returns (r: Option<StateFile>)
      ensures r.None? ==> exists uid :: uid in stateIntents && Overflowing(stateIntents[uid], EpochOf(latest, uid))
      ensures r.Some? ==> Deleted(stateIntents, {}, latest, r.value)
    {
      hide Deleted, CarriedOut, Overflowing;
      var file := latest;
      var keys := stateIntents.Keys;
      DeletedNothing(stateIntents, latest);
      while keys != {}
        invariant keys <= stateIntents.Keys
        invariant Deleted(stateIntents, keys, latest, file)
        decreases |keys|
      {
        var uid :| uid in keys;
        assert keys == (keys - {uid}) + {uid};
        keys := keys - {uid};
        DeletedPending(stateIntents, keys, uid, latest, file);
        var next := ApplyDeletion(stateIntents[uid], uid, file);
        if next.None? {
          return None;
        }
        DeletedStep(stateIntents, keys, uid, latest, file, next.value);
        file := next.value;
      }
      r := Some(file);
    }

    /** Part three: every live account against its baseline. */
    method MergeAccounts(current: StateFile, latest: StateFile) returns (r: Option<map<string, Account>>)
      ensures r.None? ==> exists uid :: uid in current.accounts && PresenceIn(persistBase, current, stateIntents, latest, uid).None?
      ensures r.Some? ==> forall uid :: PresenceIn(persistBase, current, stateIntents, latest, uid) == Some(Get(r.value, uid))
    {
      hide MergeAccount;
      var accounts := latest.accounts;
      var keys := current.accounts.Keys;
      while keys != {}
        invariant keys <= current.accounts.Keys
        invariant forall uid :: uid in keys || uid !in current.accounts ==> Get(accounts, uid) == Get(latest.accounts, uid)
        invariant forall uid :: uid !in keys ==> PresenceIn(persistBase, current, stateIntents, latest, uid) == Some(Get(accounts, uid))
        decreases |keys|
      {
        var uid :| uid in keys;
        keys := keys - {uid};
        assert Get(accounts, uid) == Get(latest.accounts, uid);
        var account := current.accounts[uid];
        var intent := if uid in stateIntents then stateIntents[uid] else NO_INTENT;
        if intent.created && intent.createdEpoch != EpochOf(latest, uid) {
          continue;
        }
        if uid !in latest.accounts {
          if uid !in persistBase.accounts || intent.created {
            accounts := accounts[uid := account];
          }
          continue;
        }
        var base := if uid in persistBase.accounts then persistBase.accounts[uid] else BLANK;
        var merged := MergeAccount(base, account, latest.accounts[uid], intent);
        if merged.None? {
          return None;
        }
        accounts := accounts[uid := merged.value];
      }
      r := Some(accounts);
    }

    /** mergedStateLocked over the file read under the lock. */
    method MergedStateOf(current: StateFile, disk: Disk) returns (r: Option<StateFile>)
      ensures r == MergedState(persistBase, current, stateIntents, disk.file)
    {
      hide *;
      var epochs := ObserveEpochs(disk.file.epochs, current.epochs);
      var observed := StateFile(disk.file.accounts, epochs);
      var deleted := ApplyDeletions(observed);
      if deleted.None? {
        OverflowFails(persistBase, current, stateIntents, disk.file, observed);
        return None;
      }
      var accounts := MergeAccounts(current, deleted.value);
      if accounts.None? {
        PresenceFails(persistBase, current, stateIntents, disk.file, observed, deleted.value);
        return None;
      }
      PresenceSucceeds(persistBase, current, stateIntents, disk.file, observed, deleted.value, accounts.value);
      return Some(StateFile(accounts.value, deleted.value.epochs));
    }

    /** saveLocked: a failed merge leaves everything as it was. */
    method Save(disk: Disk) returns (ok: bool)
      modifies this, disk
      ensures ok == SaveResult(old(View()), old(disk.file)).Some?
      ensures if ok then disk.file == SaveResult(old(View()), old(disk.file)).value && View() == AfterSave(old(View()), disk.file)
              else disk.file == old(disk.file) && View() == old(View())
      ensures ok <==> !exists uid :: Fails(old(View()), old(disk.file), uid)
      ensures ok ==> forall uid :: SavedAs(old(View()), old(disk.file), disk.file, uid)
      ensures ok ==> byUid == old(byUid) && persistBase == StateFile(byUid, disk.file.epochs) && stateIntents == map[]
    {
      hide MergedState, SavedAs, Fails;
      SaveFails(View(), disk.file);
      var current := StateFile(byUid, persistBase.epochs);
      var merged := MergedStateOf(current, disk);
      ok := merged.Some?;
      if ok {
        disk.file := merged.value;
        persistBase := StateFile(current.accounts, merged.value.epochs);
        stateIntents := map[];
        forall uid: string
          ensures SavedAs(old(View()), old(disk.file), disk.file, uid)
        {
          SaveWrites(old(View()), old(disk.file), uid);
        }
      }
    }
  }

  lemma NoModels(intents: map<string, Intent>, uid: string)
    requires uid in intents
    ensures MarkModels(intents, uid, {}) == intents
  {
    var change := intents[uid];
    assert change.models + {} == change.models;
  }

  /**
   An explicit transition survives every merge: whatever the file and the baseline say, the save of an
   instance that disabled the account writes it disabled, with its own reason and no cooling left.
   */
  lemma DisableSurvives(inst: Instance, uid: string, reason: string, file: StateFile, base: Account, latest: Account)
    requires uid in inst.live
    ensures var after := Local(inst, DisableOp(inst.live[uid], uid, reason), file);
            var merged := MergeAccount(base, after.live[uid], latest, IntentOf(after.intents, uid));
            merged.Some? ==>
              && Get(merged.value.rest, Disabled) == Some(Flag(true))
              && Get(merged.value.rest, Reason) == (if reason == "" then None else Some(Text(reason)))
              && Get(merged.value.rest, Until) == Some(Number(0)) && Get(merged.value.rest, CoolKind) == Some(Number(0))
              && Get(merged.value.rest, SoftStreak) == Some(Number(0))
              && merged.value.models == map[]
  {
    var op := DisableOp(inst.live[uid], uid, reason);
    var after := Local(inst, op, file);
    var intent := IntentOf(after.intents, uid);
    assert op.fields <= intent.fields;
    assert after.live[uid].rest == op.rest && after.live[uid].models == map[];
    forall k | k in op.fields
      ensures Get(MergeFields(base.rest, op.rest, latest.rest, intent.fields), k) == Get(op.rest, k)
    {
      MergeFieldsByKey(base.rest, op.rest, latest.rest, intent.fields, k);
    }
    hide MergeFields, MergeCredits, Local, MergedCounter, MergeNumber, MergeOmitted;
  }

  /**
   A model cooled or cleared here is written so, whatever the file says; a model that only somebody else
   cooled or cleared stays as the file has it.
   */
  lemma ModelSurvives(inst: Instance, uid: string, model: string, entry: Option<Value>, file: StateFile, base: Account, latest: Account)
    requires uid in inst.live
    ensures var after := Local(inst, ModelOp(inst.live[uid], uid, model, entry), file);
            var marked, merged := IntentOf(inst.intents, uid), MergeAccount(base, after.live[uid], latest, IntentOf(after.intents, uid));
            merged.Some? ==>
              && Get(merged.value.models, model) == entry
              && (ModelCooldowns !in marked.fields ==>
                    forall m :: m != model && m !in marked.models && Get(inst.live[uid].models, m) == Get(base.models, m) ==>
                      Get(merged.value.models, m) == Get(latest.models, m))
  {
    var after := Local(inst, ModelOp(inst.live[uid], uid, model, entry), file);
    var intent := IntentOf(after.intents, uid);
    assert intent.models == IntentOf(inst.intents, uid).models + {model} && intent.fields == IntentOf(inst.intents, uid).fields;
    assert forall m :: Get(after.live[uid].models, m) == if m == model then entry else Get(inst.live[uid].models, m);
    hide MergeAccount, Local, ModelOp, Balance, Counted, CountOverflows, LatestTime;
    MergesAccount(base, after.live[uid], latest, intent);
    assert forall m :: m != model ==> Get(after.live[uid].models, m) == Get(inst.live[uid].models, m);
  }

  // ---- Whole directory syncs and imports ----

  function AddedAll(inst: Instance, uids: seq<string>, file: StateFile): Instance {
    if uids == [] then inst else Added(AddedAll(inst, uids[..|uids| - 1], file), uids[|uids| - 1], file)
  }

  function RemovedAll(inst: Instance, uids: seq<string>): Instance {
    if uids == [] then inst else Removed(RemovedAll(inst, uids[..|uids| - 1]), uids[|uids| - 1])
  }

  /** Adds, then removals of exactly the accounts not listed, then a save if there was any removal. */
  ghost predicate Synced(before: Instance, uids: seq<string>, file: StateFile, after: Instance, file': StateFile) {
    exists removed: seq<string> ::
      var added := AddedAll(before, uids, file);
      var ready := RemovedAll(added, removed);
      && (forall u :: u in removed <==> u in added.live && u !in uids)
      && (if removed == [] || SaveResult(ready, file).None? then after == ready && file' == file
          else file' == SaveResult(ready, file).value && after == AfterSave(ready, file'))
  }

  lemma SyncedIntro(before: Instance, uids: seq<string>, file: StateFile, removed: seq<string>, after: Instance, file': StateFile)
    requires var added := AddedAll(before, uids, file);
             var ready := RemovedAll(added, removed);
             && (forall u :: u in removed <==> u in added.live && u !in uids)
             && (if removed == [] || SaveResult(ready, file).None? then after == ready && file' == file
                 else file' == SaveResult(ready, file).value && after == AfterSave(ready, file'))
    ensures Synced(before, uids, file, after, file')
  {
  }

  function ImportedBase(inst: Instance, live: Account, uid: string): Account {
    var b := if uid in inst.base.accounts then inst.base.accounts[uid] else BLANK;
    b.(successCount := live.successCount, errTotal := live.errTotal, errCount := 0)
  }

  /** Account u is rebased if it is live and not still to do, and otherwise as it was. */
  predicate Rebased(inst: Instance, now: Instance, s: StateFile, todo: set<string>, u: string) {
    if u in inst.live && u !in todo then
      && Get(now.base.accounts, u) == Some(ImportedBase(inst, inst.live[u], u))
      && Get(now.intents, u) == Some(ImportIntent(u in inst.base.accounts, inst.live[u], EpochOf(s, u)))
    else
      Get(now.base.accounts, u) == Get(inst.base.accounts, u) && Get(now.intents, u) == Get(inst.intents, u)
  }

  function MissingIntent(live: map<string, Account>, s: StateFile, todo: set<string>, uid: string): Option<Intent> {
    if uid in live && uid !in todo && uid !in s.accounts then Some(NO_INTENT.(deleted := true, deletedEpoch := EpochOf(s, uid))) else None
  }

  lemma RebaseSame(inst: Instance, middle: Instance, s: StateFile, now: int)
    requires middle.base.accounts == inst.base.accounts
    ensures forall u, a :: ImportedBase(middle, a, u) == ImportedBase(inst, a, u)
    ensures forall u :: u in RestoredAll(s.accounts, now) <==> u in s.accounts
  {
  }

  lemma RestoredByKey(accounts: map<string, Account>, now: int)
    ensures forall u :: Get(RestoredAll(accounts, now), u) == if u in accounts then Some(Restored(accounts[u], now)) else None
  {
    hide Restored;
  }

  lemma ImportedByKey(inst: Instance, s: StateFile, now: int)
    ensures var live, r := RestoredAll(s.accounts, now), Imported(inst, s, now);
            && r.live == live && r.base.epochs == MaxEpochs(inst.base.epochs, s.epochs)
            && (forall u :: Get(r.base.accounts, u) == if u in live then Some(ImportedBase(inst, live[u], u)) else Get(inst.base.accounts, u))
            && (forall u :: Get(r.intents, u) ==
                  if u in live then Some(ImportIntent(u in inst.base.accounts, live[u], EpochOf(s, u)))
                  else if u in inst.live then Some(NO_INTENT.(deleted := true, deletedEpoch := EpochOf(s, u))) else None)
  {
    hide Restored, MaxEpochs;
  }

  /** One account of the snapshot after an import: live as restored, its counters as baseline and floor, created if it was unknown. */
  ghost predicate Snapshotted(before: Instance, s: StateFile, now: int, after: Instance, u: string) {
    && u in s.accounts && u in after.live && u in after.base.accounts && u in after.intents
    && after.live[u] == Restored(s.accounts[u], now)
    && after.base.accounts[u].successCount == s.accounts[u].successCount && Errors(after.base.accounts[u]) == Max(Errors(s.accounts[u]), 0)
    && (u in before.base.accounts ==>
          after.base.accounts[u] == before.base.accounts[u].(successCount := s.accounts[u].successCount, errTotal := Errors(s.accounts[u]), errCount := 0))
    && var intent := after.intents[u];
       && intent.fields == {} && intent.models == {} && intent.credits == 0 && intent.creditsExpiring == 0 && !intent.deleted
       && intent.importedCounters && intent.importedSuccess == s.accounts[u].successCount && intent.importedErrors == Errors(s.accounts[u])
       && intent.created == (u !in before.base.accounts) && (intent.created ==> intent.createdEpoch == EpochOf(s, u))
       && EpochOf(after.base, u) == Later(EpochOf(s, u), EpochOf(before.base, u))
  }

  lemma SnapshotTaken(inst: Instance, s: StateFile, now: int)
    ensures var after := Imported(inst, s, now);
            && after.live.Keys == s.accounts.Keys
            && (forall u :: u in s.accounts ==> Snapshotted(inst, s, now, after, u))
            && (forall u :: u in inst.live && u !in s.accounts ==>
                  u in after.intents && after.intents[u].deleted && after.intents[u].deletedEpoch == EpochOf(s, u))
            && (forall u :: u !in s.accounts ==> Get(after.base.accounts, u) == Get(inst.base.accounts, u))
  {
    ImportedByKey(inst, s, now);
    LiveKeys(s.accounts, now);
    var after := Imported(inst, s, now);
    hide Imported, RestoredAll, ImportIntent, ImportedBase, Snapshotted, MaxEpochs, EpochOf;
    forall u | u in s.accounts
      ensures Snapshotted(inst, s, now, after, u)
    {
      SnapshottedAt(inst, s, now, u);
    }
    forall u | u in inst.live && u !in s.accounts
      ensures u in after.intents && after.intents[u].deleted && after.intents[u].deletedEpoch == EpochOf(s, u)
    {
      assert Get(after.intents, u) == Some(NO_INTENT.(deleted := true, deletedEpoch := EpochOf(s, u)));
    }
  }

  lemma LiveKeys(accounts: map<string, Account>, now: int)
    ensures RestoredAll(accounts, now).Keys == accounts.Keys
  {
    hide Restored;
  }

  lemma SnapshottedAt(inst: Instance, s: StateFile, now: int, u: string)
    requires u in s.accounts
    ensures Snapshotted(inst, s, now, Imported(inst, s, now), u)
  {
    ImportedAt(inst, s, now, u);
    ImportedByKey(inst, s, now);
    LiveKeys(s.accounts, now);
    var after := Imported(inst, s, now);
    assert Get(after.intents, u).Some?;
    hide Imported, Restored, RestoredAll, EpochOf;
  }

  /** What an import leaves of one account of the snapshot. */
  lemma ImportedAt(inst: Instance, s: StateFile, now: int, uid: string)
    requires uid in s.accounts
    ensures var after, a := Imported(inst, s, now), s.accounts[uid];
            && uid in after.live && uid in after.base.accounts
            && after.live[uid] == Restored(a, now)
            && after.live[uid].successCount == a.successCount && after.live[uid].errTotal == Errors(a) && after.live[uid].errCount == 0
            && after.base.accounts[uid] == ImportedBase(inst, after.live[uid], uid)
            && IntentOf(after.intents, uid) == ImportIntent(uid in inst.base.accounts, after.live[uid], EpochOf(s, uid))
            && EpochOf(after.base, uid) == KnownEpoch(EpochOf(s, uid), EpochOf(inst.base, uid))
  {
    hide LiveCooldowns, DeriveAverages, KeepBreaker, KeepCooling;
    ImportedByKey(inst, s, now);
    MaxEpochsByKey(inst.base.epochs, s.epochs, uid);
    var after := Imported(inst, s, now);
    assert after.live[uid] == Restored(s.accounts[uid], now);
    hide Imported, MaxEpochs, ImportedBase, ImportIntent, Restored;
    assert Get(after.base.accounts, uid) == Some(ImportedBase(inst, after.live[uid], uid));
    assert Get(after.intents, uid) == Some(ImportIntent(uid in inst.base.accounts, after.live[uid], EpochOf(s, uid)));
  }

  // ---- The three parts make the merge ----

  predicate Overflowing(intent: Intent, epoch: nat) {
    intent.deleted && intent.deletedEpoch == 0 && epoch >= MAX_UINT64
  }

  /** One deletion intent against the observed epoch of its account. */
  function DeletionEpoch(intent: Intent, epoch: nat): nat {
    EpochAfter(0, epoch, intent)
  }

  predicate DeletesAt(intent: Intent, epoch: nat) {
    Deletes(0, epoch, intent)
  }

  /** file is latest with the intents outside todo carried out. */
  predicate Deleted(intents: map<string, Intent>, todo: set<string>, latest: StateFile, file: StateFile) {
    && (forall uid :: uid in file.epochs.Keys + latest.epochs.Keys + latest.accounts.Keys + intents.Keys ==> DeletedOne(intents, todo, latest, file, uid))
    && file.accounts.Keys <= latest.accounts.Keys
  }

  predicate DeletedOne(intents: map<string, Intent>, todo: set<string>, latest: StateFile, file: StateFile, uid: string) {
    if uid in intents && uid !in todo then
      && !Overflowing(intents[uid], EpochOf(latest, uid))
      && EpochOf(file, uid) == DeletionEpoch(intents[uid], EpochOf(latest, uid))
      && (uid in file.epochs <==> uid in latest.epochs || DeletesAt(intents[uid], EpochOf(latest, uid)))
      && Get(file.accounts, uid) == if DeletesAt(intents[uid], EpochOf(latest, uid)) then None else Get(latest.accounts, uid)
    else
      && Get(file.epochs, uid) == Get(latest.epochs, uid)
      && Get(file.accounts, uid) == Get(latest.accounts, uid)
  }

  function LaterEpoch(epochs: map<string, nat>, own: map<string, nat>, uid: string): nat
    requires uid in own
  {
    KnownEpoch(own[uid], if uid in epochs then epochs[uid] else 0)
  }

  lemma MaxEpochsByKey(epochs: map<string, nat>, own: map<string, nat>, uid: string)
    ensures Get(MaxEpochs(epochs, own), uid) == if uid in own then Some(LaterEpoch(epochs, own, uid)) else Get(epochs, uid)
  {
  }

  /** next is file with one intent carried out, everything else untouched. */
  ghost predicate CarriedOut(intent: Intent, uid: string, file: StateFile, next: StateFile) {
    && EpochOf(next, uid) == DeletionEpoch(intent, EpochOf(file, uid))
    && (uid in next.epochs <==> uid in file.epochs || DeletesAt(intent, EpochOf(file, uid)))
    && Get(next.accounts, uid) == (if DeletesAt(intent, EpochOf(file, uid)) then None else Get(file.accounts, uid))
    && (forall v :: v != uid ==> Get(next.epochs, v) == Get(file.epochs, v) && Get(next.accounts, v) == Get(file.accounts, v))
  }

  lemma DeletedNothing(intents: map<string, Intent>, latest: StateFile)
    ensures Deleted(intents, intents.Keys, latest, latest)
  {
  }

  /** An intent still to do: the file is as it was for its account. */
  lemma DeletedPending(intents: map<string, Intent>, todo: set<string>, uid: string, latest: StateFile, file: StateFile)
    requires uid in intents && Deleted(intents, todo + {uid}, latest, file)
    ensures Get(file.epochs, uid) == Get(latest.epochs, uid) && Get(file.accounts, uid) == Get(latest.accounts, uid)
    ensures EpochOf(file, uid) == EpochOf(latest, uid)
  {
    assert DeletedOne(intents, todo + {uid}, latest, file, uid);
  }

  lemma DeletedStep(intents: map<string, Intent>, todo: set<string>, uid: string, latest: StateFile, before: StateFile, file: StateFile)
    requires uid in intents && uid !in todo && Deleted(intents, todo + {uid}, latest, before)
    requires !Overflowing(intents[uid], EpochOf(before, uid)) && CarriedOut(intents[uid], uid, before, file)
    ensures Deleted(intents, todo, latest, file)
  {
    DeletedPending(intents, todo, uid, latest, before);
    hide Overflowing, DeletionEpoch, DeletesAt;
    forall v: string
      ensures DeletedOne(intents, todo, latest, file, v)
    {
      DeletedOneAll(intents, todo + {uid}, latest, before, v);
      if v != uid {
        assert Get(file.epochs, v) == Get(before.epochs, v);
      }
    }
    assert forall v :: v in file.accounts ==> Get(file.accounts, v).Some? && Get(before.accounts, v).Some?;
  }

  lemma DeletedOneAll(intents: map<string, Intent>, todo: set<string>, latest: StateFile, file: StateFile, uid: string)
    requires Deleted(intents, todo, latest, file)
    ensures DeletedOne(intents, todo, latest, file, uid)
  {
  }

  /** The presence rule for one account against a file whose deletions are done. */
  function PresenceIn(base: StateFile, current: StateFile, intents: map<string, Intent>, latest: StateFile, uid: string): Option<Option<Account>> {
    MergePresence(Get(base.accounts, uid), Get(current.accounts, uid), Get(latest.accounts, uid), IntentOf(intents, uid), EpochOf(latest, uid))
  }

  lemma ObservedEpoch(current: StateFile, file: StateFile, uid: string)
    ensures var observed := StateFile(file.accounts, MaxEpochs(file.epochs, current.epochs));
            && EpochOf(observed, uid) == KnownEpoch(EpochOf(current, uid), EpochOf(file, uid))
            && (uid in observed.epochs <==> uid in file.epochs || uid in current.epochs)
  {
  }

  /** After the deletions, each account id stands as the merge of one id expects it. */
  lemma DeletedUid(base: StateFile, current: StateFile, intents: map<string, Intent>, file: StateFile, d: StateFile, uid: string)
    requires Deleted(intents, {}, StateFile(file.accounts, MaxEpochs(file.epochs, current.epochs)), d)
    ensures EpochOf(d, uid) == UidEpoch(current, intents, file, uid)
    ensures uid in d.epochs <==> uid in EpochKeys(current, intents, file)
    ensures MergeUid(base, current, intents, file, uid) == PresenceIn(base, current, intents, d, uid)
  {
    var observed := StateFile(file.accounts, MaxEpochs(file.epochs, current.epochs));
    ObservedEpoch(current, file, uid);
    DeletedOneAll(intents, {}, observed, d, uid);
    hide MergePresence, MaxEpochs, Deleted;
  }

  lemma OverflowFails(base: StateFile, current: StateFile, intents: map<string, Intent>, file: StateFile, observed: StateFile)
    requires observed == StateFile(file.accounts, MaxEpochs(file.epochs, current.epochs))
    requires exists uid :: uid in intents && Overflowing(intents[uid], EpochOf(observed, uid))
    ensures MergedState(base, current, intents, file).None?
  {
    var uid :| uid in intents && Overflowing(intents[uid], EpochOf(observed, uid));
    ObservedEpoch(current, file, uid);
    hide MergePresence, MaxEpochs;
    assert MergeUid(base, current, intents, file, uid).None?;
    assert uid in Involved(current, intents, file);
  }

  lemma PresenceFails(base: StateFile, current: StateFile, intents: map<string, Intent>, file: StateFile, observed: StateFile, d: StateFile)
    requires observed == StateFile(file.accounts, MaxEpochs(file.epochs, current.epochs)) && Deleted(intents, {}, observed, d)
    requires exists uid :: uid in current.accounts && PresenceIn(base, current, intents, d, uid).None?
    ensures MergedState(base, current, intents, file).None?
  {
    var uid :| uid in current.accounts && PresenceIn(base, current, intents, d, uid).None?;
    DeletedUid(base, current, intents, file, d, uid);
    hide MergeUid, MaxEpochs, Deleted, PresenceIn;
    assert uid in Involved(current, intents, file);
  }

  lemma PresenceSucceeds(base: StateFile, current: StateFile, intents: map<string, Intent>, file: StateFile, observed: StateFile, d: StateFile, accounts: map<string, Account>)
    requires observed == StateFile(file.accounts, MaxEpochs(file.epochs, current.epochs)) && Deleted(intents, {}, observed, d)
    requires forall uid :: PresenceIn(base, current, intents, d, uid) == Some(Get(accounts, uid))
    ensures MergedState(base, current, intents, file) == Some(StateFile(accounts, d.epochs))
  {
    hide MergeUid, MaxEpochs, Deleted, PresenceIn, EpochKeys, UidEpoch, Involved;
    forall uid: string
      ensures MergeUid(base, current, intents, file, uid) == Some(Get(accounts, uid))
      ensures EpochOf(d, uid) == UidEpoch(current, intents, file, uid)
      ensures uid in d.epochs <==> uid in EpochKeys(current, intents, file)
    {
      DeletedUid(base, current, intents, file, d, uid);
    }
    var merged := MergedState(base, current, intents, file);
    assert merged.Some?;
    forall uid: string
      ensures Get(merged.value.accounts, uid) == Get(accounts, uid)
    {
      MergedByUid(base, current, intents, file, uid);
    }
    SameByKey(merged.value.accounts, accounts);
    assert merged.value.epochs == d.epochs;
  }
}
