/**
 Several instances share one state file: a step is a local operation, an atomic save or a process
 start. A save that fails changes nothing.
 */
module SharedState {
  import opened Wrappers
  import opened StateMerge
  import opened PoolState

  datatype World = World(file: StateFile, pools: seq<Instance>)

  datatype Step = Act(i: nat, op: Op) | Save(i: nat) | Start(i: nat, now: int)

  const STOPPED := Instance(map[], StateFile(map[], map[]), map[])

  /** A file and n processes that have not started yet. */
  function Init(file: StateFile, n: nat): World {
    World(file, seq(n, _ => STOPPED))
  }

  function Next(w: World, step: Step): (w': World)
    ensures |w'.pools| == |w.pools|
  {
    if step.i >= |w.pools| then w
    else
      match step
      case Act(i, op) => w.(pools := w.pools[i := Local(w.pools[i], op, w.file)])
      case Start(i, now) => w.(pools := w.pools[i := Loaded(w.file, now)])
      case Save(i) =>
        match SaveResult(w.pools[i], w.file)
        case None => w
        case Some(merged) => World(merged, w.pools[i := AfterSave(w.pools[i], merged)])
  }

  function Run(w: World, steps: seq<Step>): (w': World)
    ensures |w'.pools| == |w.pools|
  {
    if steps == [] then w else Next(Run(w, steps[..|steps| - 1]), steps[|steps| - 1])
  }

  // ---- Framing: an operation on one account leaves the others alone ----

  predicate Concerns(op: Op, uid: string) {
    op.Import? || op.uid == uid
  }

  predicate SameFor(a: Instance, b: Instance, uid: string) {
    && Get(a.live, uid) == Get(b.live, uid)
    && Get(a.base.accounts, uid) == Get(b.base.accounts, uid)
    && EpochOf(a.base, uid) == EpochOf(b.base, uid)
    && IntentOf(a.intents, uid) == IntentOf(b.intents, uid)
  }

  lemma LocalFrame(inst: Instance, op: Op, file: StateFile, uid: string)
    requires !Concerns(op, uid)
    ensures SameFor(inst, Local(inst, op, file), uid)
  {
    match op
    case NoteSuccess(u, now, ema) =>
    case NoteError(u, now, rest) =>
    case NoteModelCost(u, consumed) =>
    case Assign(u, credits, expiring, rest, models, fields, marked) =>
    case Add(u) =>
    case Remove(u) =>
    case Import(s, now) =>
  }

  /** What a committed save does to one account id. */
  lemma SaveByUid(inst: Instance, file: StateFile, uid: string)
    requires SaveResult(inst, file).Some?
    ensures var merged := SaveResult(inst, file).value;
            var intent, own := IntentOf(inst.intents, uid), EpochOf(inst.base, uid);
            && EpochOf(merged, uid) == EpochAfter(own, EpochOf(file, uid), intent)
            && !EpochOverflows(own, EpochOf(file, uid), intent)
            && MergePresence(Get(inst.base.accounts, uid), Get(inst.live, uid), AfterDeletion(file, own, intent, uid), intent, EpochOf(merged, uid))
               == Some(Get(merged.accounts, uid))
  {
    hide MergedState, MergePresence, EpochAfter;
    MergedByUid(inst.base, Overview(inst), inst.intents, file, uid);
  }

  // ---- Epochs, deletions and creations ----

  /** No snapshot import; every live account has a baseline; nothing known is newer than the file. */
  ghost predicate EpochOk(inst: Instance, file: StateFile, uid: string) {
    var intent := IntentOf(inst.intents, uid);
    && EpochOf(inst.base, uid) <= EpochOf(file, uid)
    && (uid in inst.live ==> uid in inst.base.accounts)
    && (intent.created ==> intent.createdEpoch <= EpochOf(file, uid))
    && (intent.deleted ==> intent.deletedEpoch == 0 && uid !in inst.live)
  }

  ghost predicate EpochInv(w: World) {
    forall i, uid :: 0 <= i < |w.pools| ==> EpochOk(w.pools[i], w.file, uid)
  }

  predicate NoImport(step: Step) {
    step.Act? ==> !step.op.Import?
  }

  lemma LocalEpochOk(inst: Instance, op: Op, file: StateFile, uid: string)
    requires EpochOk(inst, file, uid) && !op.Import?
    ensures EpochOk(Local(inst, op, file), file, uid)
  {
    if !Concerns(op, uid) {
      LocalFrame(inst, op, file, uid);
      hide Local;
    }
  }

  /** Epochs only grow, and a committed deletion makes its epoch grow strictly and its account go. */
  lemma SaveEpochs(inst: Instance, file: StateFile, uid: string)
    requires EpochOk(inst, file, uid) && SaveResult(inst, file).Some?
    ensures var merged := SaveResult(inst, file).value;
            && EpochOf(file, uid) <= EpochOf(merged, uid)
            && (IntentOf(inst.intents, uid).deleted ==> EpochOf(file, uid) < EpochOf(merged, uid) && uid !in merged.accounts)
            && (!IntentOf(inst.intents, uid).deleted ==> EpochOf(file, uid) == EpochOf(merged, uid))
  {
    SaveByUid(inst, file, uid);
    hide SaveResult, MergeAccount;
  }

  lemma NextEpochOk(w: World, step: Step, i: nat, uid: string)
    requires step.i < |w.pools| && i < |w.pools| && NoImport(step)
    requires EpochOk(w.pools[step.i], w.file, uid) && EpochOk(w.pools[i], w.file, uid)
    ensures EpochOk(Next(w, step).pools[i], Next(w, step).file, uid)
    ensures EpochOf(w.file, uid) <= EpochOf(Next(w, step).file, uid)
  {
    hide EpochOk, Local, SaveResult, Loaded, AfterSave;
    match step
    case Act(k, op) =>
      LocalEpochOk(w.pools[k], op, w.file, uid);
    case Start(k, now) =>
      LoadedEpochOk(w.file, now, uid);
    case Save(k) =>
      if SaveResult(w.pools[k], w.file).Some? {
        SaveEpochs(w.pools[k], w.file, uid);
        SavedEpochOk(w.pools[i], w.pools[k], w.file, uid);
      }
  }

  lemma NextEpochInv(w: World, step: Step)
    requires EpochInv(w) && NoImport(step)
    ensures EpochInv(Next(w, step))
    ensures forall uid :: EpochOf(w.file, uid) <= EpochOf(Next(w, step).file, uid)
  {
    if step.i < |w.pools| {
      hide EpochOk, Next, EpochOf;
      forall i, uid | 0 <= i < |w.pools|
        ensures EpochOk(Next(w, step).pools[i], Next(w, step).file, uid)
      {
        assert EpochOk(w.pools[step.i], w.file, uid) && EpochOk(w.pools[i], w.file, uid);
        NextEpochOk(w, step, i, uid);
      }
      forall uid: string
        ensures EpochOf(w.file, uid) <= EpochOf(Next(w, step).file, uid)
      {
        assert EpochOk(w.pools[step.i], w.file, uid);
        NextEpochOk(w, step, step.i, uid);
      }
    }
  }

  lemma LoadedEpochOk(file: StateFile, now: int, uid: string)
    ensures EpochOk(Loaded(file, now), file, uid)
  {
  }

  lemma SavedEpochOk(other: Instance, inst: Instance, file: StateFile, uid: string)
    requires EpochOk(other, file, uid) && EpochOk(inst, file, uid) && SaveResult(inst, file).Some?
    ensures var merged := SaveResult(inst, file).value;
            EpochOk(other, merged, uid) && EpochOk(AfterSave(inst, merged), merged, uid)
  {
    SaveEpochs(inst, file, uid);
    hide SaveResult;
  }

  lemma InitEpochInv(file: StateFile, n: nat)
    ensures EpochInv(Init(file, n))
  {
  }

  lemma {:induction false} RunEpochInv(w: World, steps: seq<Step>)
    requires EpochInv(w) && forall k :: 0 <= k < |steps| ==> NoImport(steps[k])
    ensures EpochInv(Run(w, steps))
    ensures forall uid :: EpochOf(w.file, uid) <= EpochOf(Run(w, steps).file, uid)
  {
    hide EpochInv, Next;
    if steps != [] {
      var n := |steps| - 1;
      RunEpochInv(w, steps[..n]);
      NextEpochInv(Run(w, steps[..n]), steps[n]);
    }
  }

  // ---- Deleted stays deleted ----

  /** uid is gone, and every creation intent for it is older than its last deletion. */
  ghost predicate Gone(w: World, uid: string) {
    && uid !in w.file.accounts
    && forall i :: 0 <= i < |w.pools| ==> Outdated(w.pools[i], w.file, uid)
  }

  ghost predicate Outdated(inst: Instance, file: StateFile, uid: string) {
    IntentOf(inst.intents, uid).created ==> IntentOf(inst.intents, uid).createdEpoch < EpochOf(file, uid)
  }

  /** The only way back: a save with a creation intent recorded at the file's current epoch. */
  lemma Reappearance(w: World, step: Step, uid: string)
    requires EpochInv(w) && uid !in w.file.accounts && uid in Next(w, step).file.accounts
    ensures step.Save? && step.i < |w.pools|
    ensures var intent := IntentOf(w.pools[step.i].intents, uid);
            intent.created && intent.createdEpoch == EpochOf(w.file, uid) && !intent.deleted
  {
    assert EpochOk(w.pools[step.i], w.file, uid);
    hide EpochInv, SaveResult, Local;
    SaveByUid(w.pools[step.i], w.file, uid);
    hide MergeAccount;
  }

  lemma LocalOutdated(inst: Instance, op: Op, file: StateFile, uid: string)
    requires Outdated(inst, file, uid) && !op.Import? && op != Op.Add(uid)
    ensures Outdated(Local(inst, op, file), file, uid)
  {
    if !Concerns(op, uid) {
      LocalFrame(inst, op, file, uid);
      hide Local;
    }
  }

  /** Since its last start, instance i added the account. */
  predicate AddedSince(steps: seq<Step>, i: nat, uid: string) {
    steps != [] &&
    (var before, last := steps[..|steps| - 1], steps[|steps| - 1];
     if last == Act(i, Op.Add(uid)) then true
     else if last.Start? && last.i == i then false
     else AddedSince(before, i, uid))
  }

  /** Whoever did not add the account since holds no creation intent at the file's epoch. */
  ghost predicate LateAddsOnly(w: World, steps: seq<Step>, uid: string) {
    forall i :: 0 <= i < |w.pools| && !AddedSince(steps, i, uid) ==> Outdated(w.pools[i], w.file, uid)
  }

  lemma NextLateAdds(w: World, steps: seq<Step>, step: Step, uid: string)
    requires EpochInv(w) && LateAddsOnly(w, steps, uid) && NoImport(step)
    ensures LateAddsOnly(Next(w, step), steps + [step], uid)
  {
    NextEpochInv(w, step);
    hide EpochInv, SaveResult, Local;
    assert (steps + [step])[..|steps|] == steps;
    forall i | 0 <= i < |w.pools| && !AddedSince(steps + [step], i, uid)
      ensures Outdated(Next(w, step).pools[i], Next(w, step).file, uid)
    {
      assert EpochOf(w.file, uid) <= EpochOf(Next(w, step).file, uid);
      if !(step.Start? && step.i == i) {
        assert Outdated(w.pools[i], w.file, uid);
        if step.Act? && step.i == i {
          LocalOutdated(w.pools[i], step.op, w.file, uid);
        }
      }
    }
  }

  lemma {:induction false} RunLateAdds(w: World, steps: seq<Step>, uid: string)
    requires EpochInv(w) && Gone(w, uid) && forall k :: 0 <= k < |steps| ==> NoImport(steps[k])
    ensures LateAddsOnly(Run(w, steps), steps, uid)
  {
    if steps != [] {
      var n := |steps| - 1;
      hide EpochInv, Next, Gone, LateAddsOnly, NoImport;
      RunLateAdds(w, steps[..n], uid);
      RunEpochInv(w, steps[..n]);
      NextLateAdds(Run(w, steps[..n]), steps[..n], steps[n], uid);
      assert steps == steps[..n] + [steps[n]];
    }
  }

  /** A committed deletion outdates every creation intent recorded before it. */
  lemma DeletionGone(w: World, i: nat, uid: string)
    requires EpochInv(w) && i < |w.pools| && SaveResult(w.pools[i], w.file).Some? && IntentOf(w.pools[i].intents, uid).deleted
    ensures Gone(Next(w, Save(i)), uid)
    ensures EpochOf(w.file, uid) < EpochOf(Next(w, Save(i)).file, uid)
  {
    assert EpochOk(w.pools[i], w.file, uid);
    SaveEpochs(w.pools[i], w.file, uid);
    hide SaveResult;
    forall k | 0 <= k < |w.pools|
      ensures Outdated(Next(w, Save(i)).pools[k], Next(w, Save(i)).file, uid)
    {
      assert EpochOk(w.pools[k], w.file, uid);
    }
  }

  /** Step m of the run brings the account back. */
  ghost predicate Returns(w: World, steps: seq<Step>, m: nat, uid: string) {
    m < |steps| && uid !in Run(w, steps[..m]).file.accounts && uid in Run(w, steps[..m + 1]).file.accounts
  }

  /** Step m is a save, and its instance added the account in this run with the deletion on disk: at the file's own epoch. */
  ghost predicate CreatedLate(w: World, steps: seq<Step>, m: nat, uid: string)
    requires m < |steps|
  {
    var at, i := Run(w, steps[..m]), steps[m].i;
    && steps[m] == Save(i) && i < |at.pools|
    && AddedSince(steps[..m], i, uid)
    && IntentOf(at.pools[i].intents, uid).created
    && IntentOf(at.pools[i].intents, uid).createdEpoch == EpochOf(at.file, uid) >= EpochOf(w.file, uid)
  }

  lemma ReturnsLate(w: World, steps: seq<Step>, m: nat, uid: string)
    requires EpochInv(w) && Gone(w, uid) && (forall k :: 0 <= k < |steps| ==> NoImport(steps[k])) && Returns(w, steps, m, uid)
    ensures CreatedLate(w, steps, m, uid)
  {
    var at := Run(w, steps[..m]);
    assert steps[..m + 1][..m] == steps[..m];
    RunEpochInv(w, steps[..m]);
    RunLateAdds(w, steps[..m], uid);
    hide EpochInv, Next, Gone, Run;
    RunOne(w, steps, m);
    Reappearance(at, steps[m], uid);
  }

  lemma RunOne(w: World, steps: seq<Step>, m: nat)
    requires m < |steps|
    ensures Run(w, steps[..m + 1]) == Next(Run(w, steps[..m]), steps[m])
  {
    assert steps[..m + 1][..m] == steps[..m];
  }

  lemma {:induction false} SomeReturn(w: World, steps: seq<Step>, uid: string)
    requires uid !in w.file.accounts && uid in Run(w, steps).file.accounts
    ensures exists m :: 0 <= m < |steps| && Returns(w, steps, m, uid)
  {
    hide Next;
    if steps != [] {
      var n := |steps| - 1;
      var before := steps[..n];
      assert steps[..n + 1] == steps;
      if uid in Run(w, before).file.accounts {
        SomeReturn(w, before, uid);
        var m :| 0 <= m < n && Returns(w, before, m, uid);
        assert before[..m] == steps[..m] && before[..m + 1] == steps[..m + 1];
        hide Run;
        assert Returns(w, steps, m, uid);
      } else {
        assert Returns(w, steps, n, uid);
      }
    }
  }

  /**
   Deleted stays deleted, over every interleaving: after a deletion is committed, whatever step brings the
   account back is the save of an instance that itself added the account after that commit, since its last
   start and at the file's current epoch, which is not older than the deletion. Without such a step the
   account stays gone.
   */
  lemma DeletedStaysDeleted(file: StateFile, n: nat, before: seq<Step>, i: nat, uid: string, after: seq<Step>)
    requires forall k :: 0 <= k < |before| ==> NoImport(before[k])
    requires forall k :: 0 <= k < |after| ==> NoImport(after[k])
    requires var w := Run(Init(file, n), before);
             i < n && IntentOf(w.pools[i].intents, uid).deleted && SaveResult(w.pools[i], w.file).Some?
    ensures var w := Run(Init(file, n), before);
            var w' := Next(w, Save(i));
            && EpochOf(w.file, uid) < EpochOf(w'.file, uid)
            && (uid in Run(w', after).file.accounts ==> exists m :: 0 <= m < |after| && Returns(w', after, m, uid))
            && (forall m :: 0 <= m < |after| && Returns(w', after, m, uid) ==> CreatedLate(w', after, m, uid))
  {
    var w := Run(Init(file, n), before);
    var w' := Next(w, Save(i));
    InitEpochInv(file, n);
    RunEpochInv(Init(file, n), before);
    DeletionGone(w, i, uid);
    NextEpochInv(w, Save(i));
    assert uid !in w'.file.accounts;
    hide EpochInv, Next, Run, Gone;
    if uid in Run(w', after).file.accounts {
      SomeReturn(w', after, uid);
    }
    forall m | 0 <= m < |after| && Returns(w', after, m, uid)
      ensures CreatedLate(w', after, m, uid)
    {
      ReturnsLate(w', after, m, uid);
    }
  }
}
