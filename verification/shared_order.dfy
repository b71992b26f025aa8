/** The order of saves: when it does not matter, when a save is a no-op, and what one import starts. */
module SharedOrder {
  import opened Wrappers
  import opened StateMerge
  import opened MergeLaws
  import opened PoolState
  import opened SharedState

  function SideOf(inst: Instance, uid: string): Side
    requires uid in inst.live && uid in inst.base.accounts
  {
    Side(inst.base.accounts[uid], inst.live[uid], IntentOf(inst.intents, uid))
  }

  // ---- Two saves in either order ----

  /** The instance neither created nor deleted the account, and its baseline covers what it holds. */
  predicate Calm(inst: Instance, file: StateFile, uid: string) {
    && !IntentOf(inst.intents, uid).created && !IntentOf(inst.intents, uid).deleted
    && EpochOf(inst.base, uid) <= EpochOf(file, uid)
    && (uid in inst.live ==> uid in inst.base.accounts)
  }

  function CalmMerge(inst: Instance, uid: string, latest: Option<Account>): Option<Option<Account>>
  {
    if uid !in inst.live || uid !in inst.base.accounts || latest.None? then Some(latest)
    else
      var m := Merge(SideOf(inst, uid), latest.value);
      if m.None? then None else Some(Some(m.value))
  }

  lemma CalmUid(inst: Instance, file: StateFile, uid: string)
    requires Calm(inst, file, uid)
    ensures MergeUid(inst.base, Overview(inst), inst.intents, file, uid) == CalmMerge(inst, uid, Get(file.accounts, uid))
    ensures UidEpoch(Overview(inst), inst.intents, file, uid) == EpochOf(file, uid)
  {
    hide MergeAccount;
  }

  lemma CalmSave(inst: Instance, file: StateFile, uid: string)
    requires Calm(inst, file, uid) && SaveResult(inst, file).Some?
    ensures var merged := SaveResult(inst, file).value;
            EpochOf(merged, uid) == EpochOf(file, uid) && CalmMerge(inst, uid, Get(file.accounts, uid)) == Some(Get(merged.accounts, uid))
  {
    CalmUid(inst, file, uid);
    MergedByUid(inst.base, Overview(inst), inst.intents, file, uid);
    hide MergedState, MergeUid, UidEpoch, CalmMerge;
  }

  /** Both hold the account: they touched different things, and its counters have room for both. */
  ghost predicate RoomForBoth(a: Instance, b: Instance, file: StateFile, uid: string)
    requires uid in a.live && uid in a.base.accounts && uid in b.live && uid in b.base.accounts && uid in file.accounts
  {
    var s, t, latest := SideOf(a, uid), SideOf(b, uid), file.accounts[uid];
    && Proper(s) && Proper(t) && Apart(s, t) && Sound(latest) && Fits(s, t, latest)
    && s.current.credits >= 0 && s.current.creditsExpiring >= 0 && t.current.credits >= 0 && t.current.creditsExpiring >= 0
  }

  ghost predicate Compatible(a: Instance, b: Instance, file: StateFile, uid: string) {
    && Calm(a, file, uid) && Calm(b, file, uid)
    && (uid in a.live && uid in b.live && uid in file.accounts ==> RoomForBoth(a, b, file, uid))
  }

  lemma CompatibleSwap(a: Instance, b: Instance, file: StateFile, uid: string)
    requires Compatible(a, b, file, uid)
    ensures Compatible(b, a, file, uid)
  {
    hide Proper, Sound, Merge;
  }

  /** One account id through both saves. */
  lemma CalmCommute(a: Instance, b: Instance, file: StateFile, uid: string)
    requires Compatible(a, b, file, uid)
    requires var latest := Get(file.accounts, uid); CalmMerge(a, uid, latest).Some? && CalmMerge(b, uid, latest).Some?
    ensures var latest := Get(file.accounts, uid);
            var ab := CalmMerge(b, uid, CalmMerge(a, uid, latest).value);
            ab.Some? && ab == CalmMerge(a, uid, CalmMerge(b, uid, latest).value)
  {
    hide Proper, Apart, Sound, Fits, Merge;
    if uid in a.live && uid in b.live && uid in file.accounts {
      MergesCommute(SideOf(a, uid), SideOf(b, uid), file.accounts[uid]);
    }
  }

  lemma SecondSave(a: Instance, b: Instance, file: StateFile)
    requires forall uid :: Compatible(a, b, file, uid)
    requires SaveResult(a, file).Some? && SaveResult(b, file).Some?
    ensures var merged := SaveResult(a, file).value;
            && SaveResult(b, merged).Some?
            && forall uid :: Calm(b, merged, uid)
  {
    var merged := SaveResult(a, file).value;
    hide Compatible, CalmMerge, Calm, SaveResult, MergeUid;
    forall uid: string
      ensures MergeUid(b.base, Overview(b), b.intents, merged, uid).Some?
      ensures Calm(b, merged, uid)
    {
      SecondUid(a, b, file, uid);
    }
    SomeByUid(b, merged);
  }

  lemma SomeByUid(inst: Instance, file: StateFile)
    requires forall uid :: MergeUid(inst.base, Overview(inst), inst.intents, file, uid).Some?
    ensures SaveResult(inst, file).Some?
  {
    hide MergeUid, Involved;
  }

  lemma SecondUid(a: Instance, b: Instance, file: StateFile, uid: string)
    requires Compatible(a, b, file, uid) && SaveResult(a, file).Some? && SaveResult(b, file).Some?
    ensures var merged := SaveResult(a, file).value;
            && Calm(b, merged, uid)
            && MergeUid(b.base, Overview(b), b.intents, merged, uid) == CalmMerge(b, uid, CalmMerge(a, uid, Get(file.accounts, uid)).value)
            && MergeUid(b.base, Overview(b), b.intents, merged, uid).Some?
  {
    var merged := SaveResult(a, file).value;
    CalmSave(a, file, uid);
    CalmSave(b, file, uid);
    CalmCommute(a, b, file, uid);
    assert Calm(b, merged, uid);
    CalmUid(b, merged, uid);
    hide RoomForBoth, CalmMerge, SaveResult, MergeUid;
  }

  /** What the file holds of one account after a and then b saved. */
  lemma BothSaved(a: Instance, b: Instance, file: StateFile, uid: string)
    requires forall u :: Compatible(a, b, file, u)
    requires SaveResult(a, file).Some? && SaveResult(b, file).Some?
    ensures SaveResult(b, SaveResult(a, file).value).Some?
    ensures CalmMerge(a, uid, Get(file.accounts, uid)).Some?
    ensures var ab := SaveResult(b, SaveResult(a, file).value).value;
            && Some(Get(ab.accounts, uid)) == CalmMerge(b, uid, CalmMerge(a, uid, Get(file.accounts, uid)).value)
            && EpochOf(ab, uid) == EpochOf(file, uid)
  {
    hide *;
    SecondSave(a, b, file);
    assert Compatible(a, b, file, uid);
    CompatibleCalm(a, b, file, uid);
    CalmSave(a, file, uid);
    CalmSave(b, SaveResult(a, file).value, uid);
  }

  lemma CompatibleCalm(a: Instance, b: Instance, file: StateFile, uid: string)
    requires Compatible(a, b, file, uid)
    ensures Calm(a, file, uid) && Calm(b, file, uid)
  {
  }

  /** The order of two compatible saves does not matter: the file ends with the same accounts and epochs. */
  lemma SavesCommute(w: World, i: nat, j: nat)
    requires i < |w.pools| && j < |w.pools| && i != j
    requires forall uid :: Compatible(w.pools[i], w.pools[j], w.file, uid)
    requires SaveResult(w.pools[i], w.file).Some? && SaveResult(w.pools[j], w.file).Some?
    ensures var ij, ji := Next(Next(w, Save(i)), Save(j)).file, Next(Next(w, Save(j)), Save(i)).file;
            ij.accounts == ji.accounts && forall uid :: EpochOf(ij, uid) == EpochOf(ji, uid)
  {
    var a, b := w.pools[i], w.pools[j];
    hide SaveResult, Compatible, Calm, CalmMerge, AfterSave;
    forall uid: string
      ensures Compatible(b, a, w.file, uid)
    {
      CompatibleSwap(a, b, w.file, uid);
    }
    BothSaved(a, b, w.file, "");
    BothSaved(b, a, w.file, "");
    var ij, ji := SaveResult(b, SaveResult(a, w.file).value).value, SaveResult(a, SaveResult(b, w.file).value).value;
    forall uid: string
      ensures Get(ij.accounts, uid) == Get(ji.accounts, uid) && EpochOf(ij, uid) == EpochOf(ji, uid)
    {
      CompatibleCalm(a, b, w.file, uid);
      CalmSave(a, w.file, uid);
      CalmSave(b, w.file, uid);
      CalmCommute(a, b, w.file, uid);
      BothSaved(a, b, w.file, uid);
      BothSaved(b, a, w.file, uid);
    }
    SameByKey(ij.accounts, ji.accounts);
  }

  // ---- A save without changes ----

  /** Nothing happened at the instance since its last save. */
  predicate Resting(inst: Instance, file: StateFile) {
    && inst.intents == map[] && inst.base.accounts == inst.live
    && (forall uid :: uid in inst.live ==> inst.live[uid].errCount == 0 && inst.live[uid].errTotal >= 0)
    && (forall uid :: uid in inst.base.epochs ==> uid in file.epochs && inst.base.epochs[uid] <= file.epochs[uid])
  }

  lemma RestingUid(inst: Instance, file: StateFile, uid: string)
    requires Resting(inst, file)
    ensures Calm(inst, file, uid)
    ensures CalmMerge(inst, uid, Get(file.accounts, uid)) ==
            Some(if uid in inst.live && uid in file.accounts then Some(file.accounts[uid].(errTotal := Errors(file.accounts[uid]))) else Get(file.accounts, uid))
    ensures uid in inst.live && uid in file.accounts ==>
            (file.accounts[uid].(errTotal := Errors(file.accounts[uid])) == file.accounts[uid] <==> file.accounts[uid].errCount <= file.accounts[uid].errTotal)
  {
    if uid in inst.live && uid in file.accounts {
      IdleMerge(SideOf(inst, uid), file.accounts[uid]);
    }
    hide Merge;
  }

  /** A save by an instance that changed nothing leaves the file as it is, exactly when no account it holds still carries a larger legacy error count. */
  lemma IdleSave(inst: Instance, file: StateFile)
    requires Resting(inst, file)
    ensures SaveResult(inst, file).Some?
    ensures SaveResult(inst, file).value.epochs == file.epochs
    ensures SaveResult(inst, file) == Some(file) <==>
            forall uid :: uid in inst.live && uid in file.accounts ==> file.accounts[uid].errCount <= file.accounts[uid].errTotal
  {
    hide Resting, CalmMerge, SaveResult, MergeUid, Calm;
    forall uid: string
      ensures MergeUid(inst.base, Overview(inst), inst.intents, file, uid).Some?
    {
      RestingUid(inst, file, uid);
      CalmUid(inst, file, uid);
    }
    SomeByUid(inst, file);
    var merged := SaveResult(inst, file).value;
    forall uid: string
      ensures Some(Get(merged.accounts, uid)) == CalmMerge(inst, uid, Get(file.accounts, uid))
    {
      RestingUid(inst, file, uid);
      CalmSave(inst, file, uid);
    }
    RestingEpochs(inst, file);
    if forall uid :: uid in inst.live && uid in file.accounts ==> file.accounts[uid].errCount <= file.accounts[uid].errTotal {
      forall uid: string
        ensures Get(merged.accounts, uid) == Get(file.accounts, uid)
      {
        RestingUid(inst, file, uid);
      }
      SameByKey(merged.accounts, file.accounts);
    } else {
      var uid :| uid in inst.live && uid in file.accounts && file.accounts[uid].errCount > file.accounts[uid].errTotal;
      RestingUid(inst, file, uid);
      assert Get(merged.accounts, uid) != Get(file.accounts, uid);
    }
  }

  lemma RestingEpochs(inst: Instance, file: StateFile)
    requires Resting(inst, file) && SaveResult(inst, file).Some?
    ensures SaveResult(inst, file).value.epochs == file.epochs
  {
    hide MergeUid;
    assert EpochKeys(Overview(inst), inst.intents, file) == file.epochs.Keys;
  }

  // ---- Snapshots ----

  /** Importing a snapshot makes its counters the baseline and the floor. */
  lemma ImportStarts(inst: Instance, s: StateFile, now: int, uid: string)
    requires uid in s.accounts && s.accounts[uid].successCount >= 0 && Errors(s.accounts[uid]) >= 0
    ensures var after, a := Imported(inst, s, now), s.accounts[uid];
            && uid in after.live && uid in after.base.accounts
            && FromSnapshot(SideOf(after, uid), a.successCount, Errors(a))
            && Gained(SideOf(after, uid)) == 0 && Failed(SideOf(after, uid)) == 0
  {
    ImportedAt(inst, s, now, uid);
    hide Imported, Restored;
  }

  /** Counting afterwards only adds increments. */
  lemma CountingKeepsSnapshot(inst: Instance, op: Op, file: StateFile, uid: string, success: int, errors: int)
    requires uid in inst.live && uid in inst.base.accounts && FromSnapshot(SideOf(inst, uid), success, errors)
    requires (op.NoteSuccess? || op.NoteError?) && op.uid == uid
    ensures var after := Local(inst, op, file);
            && uid in after.live && uid in after.base.accounts
            && FromSnapshot(SideOf(after, uid), success, errors)
            && Gained(SideOf(after, uid)) == Gained(SideOf(inst, uid)) + (if op.NoteSuccess? then 1 else 0)
            && Failed(SideOf(after, uid)) == Failed(SideOf(inst, uid)) + (if op.NoteError? then 1 else 0)
  {
  }
}
