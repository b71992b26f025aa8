/** Conservation laws over every interleaving of several instances on one state file. */
module SharedLaws {
  import opened Wrappers
  import opened StateMerge
  import opened PoolState
  import opened SharedState

  // ---- Bookkeeping of a run, for one account ----

  /** What happened to an account at one instance: successes, errors and consumed credits. */
  datatype Count = Count(success: nat, errors: nat, consumed: nat)

  const ZERO := Count(0, 0, 0)

  function Plus(a: Count, b: Count): Count {
    Count(a.success + b.success, a.errors + b.errors, a.consumed + b.consumed)
  }

  /** pending counts what an instance has not saved yet; flushed what it had when it last saved. */
  datatype Ledger = Ledger(pending: seq<Count>, flushed: seq<Count>)

  function Effect(inst: Instance, op: Op, uid: string): Count {
    if uid !in inst.live then ZERO
    else
      match op
      case NoteSuccess(u, now, ema) => if u == uid then Count(1, 0, 0) else ZERO
      case NoteError(u, now, rest) => if u == uid then Count(0, 1, 0) else ZERO
      case NoteModelCost(u, consumed) => if u == uid then Count(0, 0, consumed) else ZERO
      case Assign(u, credits, expiring, rest, models, fields, marked) => ZERO
      case Add(u) => ZERO
      case Remove(u) => ZERO
      case Import(s, now) => ZERO
  }

  /** A restart and an import lose what was pending; a committed save moves it to the file. */
  function Record(l: Ledger, w: World, step: Step, uid: string): (l': Ledger)
    requires |l.pending| == |l.flushed| == |w.pools|
    ensures |l'.pending| == |l'.flushed| == |w.pools|
  {
    if step.i >= |w.pools| then l
    else
      match step
      case Act(i, op) => l.(pending := l.pending[i := if op.Import? then ZERO else Plus(l.pending[i], Effect(w.pools[i], op, uid))])
      case Start(i, now) => l.(pending := l.pending[i := ZERO])
      case Save(i) =>
        if SaveResult(w.pools[i], w.file).None? then l
        else Ledger(l.pending[i := ZERO], l.flushed[i := Plus(l.flushed[i], l.pending[i])])
  }

  function LedgerOf(w: World, steps: seq<Step>, uid: string): (l: Ledger)
    ensures |l.pending| == |l.flushed| == |w.pools|
  {
    if steps == [] then Ledger(seq(|w.pools|, _ => ZERO), seq(|w.pools|, _ => ZERO))
    else
      var before := steps[..|steps| - 1];
      Record(LedgerOf(w, before, uid), Run(w, before), steps[|steps| - 1], uid)
  }

  function Total(counts: seq<Count>): Count {
    if counts == [] then ZERO else Plus(Total(counts[..|counts| - 1]), counts[|counts| - 1])
  }

  lemma {:induction false} TotalUpdate(counts: seq<Count>, i: nat, more: Count)
    requires i < |counts|
    ensures Total(counts[i := Plus(counts[i], more)]) == Plus(Total(counts), more)
  {
    var n := |counts| - 1;
    var updated := counts[i := Plus(counts[i], more)];
    if i < n {
      TotalUpdate(counts[..n], i, more);
      assert updated[..n] == counts[..n][i := Plus(counts[i], more)];
    } else {
      assert updated[..n] == counts[..n];
    }
  }

  lemma {:induction false} TotalZero(n: nat)
    ensures Total(seq(n, _ => ZERO)) == ZERO
  {
    if n > 0 {
      TotalZero(n - 1);
      assert seq(n, _ => ZERO)[..n - 1] == seq(n - 1, _ => ZERO);
    }
  }

  // ---- Counters ----

  /** The account is neither deleted nor imported. */
  predicate Keeps(step: Step, uid: string) {
    NoImport(step) && !(step.Act? && step.op == Op.Remove(uid))
  }

  /** One instance's share: its view is ahead of its baseline by exactly what is pending. */
  ghost predicate InStep(inst: Instance, file: StateFile, pending: Count, uid: string) {
    var intent := IntentOf(inst.intents, uid);
    && EpochOf(inst.base, uid) <= EpochOf(file, uid)
    && !intent.deleted && !intent.importedCounters
    && (intent.created ==> intent.createdEpoch == EpochOf(file, uid))
    && (uid in inst.live ==>
          && uid in inst.base.accounts
          && inst.live[uid].successCount == inst.base.accounts[uid].successCount + pending.success
          && inst.live[uid].errTotal == Errors(inst.base.accounts[uid]) + pending.errors
          && inst.live[uid].errCount == 0 && inst.live[uid].errTotal >= 0)
    && (uid !in inst.live ==> pending.success == 0 && pending.errors == 0)
  }

  ghost predicate Counted(w: World, l: Ledger, uid: string, start: Account) {
    && |l.pending| == |l.flushed| == |w.pools|
    && uid in w.file.accounts
    && w.file.accounts[uid].successCount == start.successCount + Total(l.flushed).success
    && Errors(w.file.accounts[uid]) == Errors(start) + Total(l.flushed).errors
    && w.file.accounts[uid].errTotal >= 0 && w.file.accounts[uid].errCount >= 0
    && forall i :: 0 <= i < |w.pools| ==> InStep(w.pools[i], w.file, l.pending[i], uid)
  }

  /** A counting operation: the live account advances by the effect, and only marks are added to its intent. */
  predicate Advances(inst: Instance, after: Instance, effect: Count, uid: string) {
    && after.base == inst.base
    && OnlyMarks(IntentOf(inst.intents, uid), IntentOf(after.intents, uid))
    && (uid in inst.live <==> uid in after.live)
    && (uid in inst.live ==>
          && after.live[uid].successCount == inst.live[uid].successCount + effect.success
          && after.live[uid].errTotal == inst.live[uid].errTotal + effect.errors
          && after.live[uid].errCount == inst.live[uid].errCount)
    && (uid !in inst.live ==> effect.success == 0 && effect.errors == 0)
  }

  predicate OnlyMarks(before: Intent, after: Intent) {
    after == before.(fields := after.fields, models := after.models, credits := after.credits, creditsExpiring := after.creditsExpiring)
  }

  lemma SuccessAdvances(inst: Instance, op: Op, file: StateFile)
    requires op.NoteSuccess?
    ensures Advances(inst, Local(inst, op, file), Effect(inst, op, op.uid), op.uid)
  {
  }

  lemma ErrorAdvances(inst: Instance, op: Op, file: StateFile)
    requires op.NoteError?
    ensures Advances(inst, Local(inst, op, file), Effect(inst, op, op.uid), op.uid)
  {
  }

  lemma CostAdvances(inst: Instance, op: Op, file: StateFile)
    requires op.NoteModelCost?
    ensures Advances(inst, Local(inst, op, file), Effect(inst, op, op.uid), op.uid)
  {
  }

  lemma AssignAdvances(inst: Instance, op: Op, file: StateFile)
    requires op.Assign?
    ensures Advances(inst, Local(inst, op, file), Effect(inst, op, op.uid), op.uid)
  {
  }

  lemma AdvanceInStep(inst: Instance, after: Instance, file: StateFile, pending: Count, effect: Count, uid: string)
    requires InStep(inst, file, pending, uid) && Advances(inst, after, effect, uid)
    ensures InStep(after, file, Plus(pending, effect), uid)
  {
    hide IntentOf, EpochOf, Errors;
  }

  lemma AddInStep(inst: Instance, file: StateFile, pending: Count, uid: string)
    requires InStep(inst, file, pending, uid) && uid in file.accounts
    ensures InStep(Added(inst, uid, file), file, pending, uid)
  {
  }

  lemma NoEffect(inst: Instance, op: Op, pending: Count, uid: string)
    requires !Concerns(op, uid) || op.Add?
    ensures Plus(pending, Effect(inst, op, uid)) == pending
  {
  }

  lemma LocalInStep(inst: Instance, op: Op, file: StateFile, pending: Count, uid: string)
    requires InStep(inst, file, pending, uid) && uid in file.accounts && !op.Import? && op != Op.Remove(uid)
    ensures InStep(Local(inst, op, file), file, Plus(pending, Effect(inst, op, uid)), uid)
  {
    var after, effect := Local(inst, op, file), Effect(inst, op, uid);
    if !Concerns(op, uid) {
      NoEffect(inst, op, pending, uid);
      LocalFrame(inst, op, file, uid);
      hide Local, Effect, SameFor, InStep;
      FrameInStep(inst, after, file, pending, uid);
    } else if op.Add? {
      NoEffect(inst, op, pending, uid);
      AddInStep(inst, file, pending, uid);
      hide Added, InStep, Effect;
    } else {
      hide Local, Effect, Advances, InStep;
      if op.NoteSuccess? {
        SuccessAdvances(inst, op, file);
      } else if op.NoteError? {
        ErrorAdvances(inst, op, file);
      } else if op.NoteModelCost? {
        CostAdvances(inst, op, file);
      } else {
        AssignAdvances(inst, op, file);
      }
      AdvanceInStep(inst, after, file, pending, effect, uid);
    }
  }

  lemma FrameInStep(a: Instance, b: Instance, file: StateFile, pending: Count, uid: string)
    requires InStep(a, file, pending, uid) && SameFor(a, b, uid)
    ensures InStep(b, file, pending, uid)
  {
  }

  /** A save with the account live adds exactly what is pending; otherwise it leaves the account alone. */
  lemma SaveAdds(inst: Instance, file: StateFile, pending: Count, uid: string)
    requires InStep(inst, file, pending, uid) && uid in file.accounts && SaveResult(inst, file).Some?
    requires file.accounts[uid].errTotal >= 0 && file.accounts[uid].errCount >= 0
    ensures var merged := SaveResult(inst, file).value;
            && uid in merged.accounts
            && EpochOf(merged, uid) == EpochOf(file, uid)
            && merged.accounts[uid].successCount == file.accounts[uid].successCount + pending.success
            && Errors(merged.accounts[uid]) == Errors(file.accounts[uid]) + pending.errors
            && merged.accounts[uid].errTotal >= 0 && merged.accounts[uid].errCount >= 0
    ensures uid in inst.live ==>
              MergeAccount(inst.base.accounts[uid], inst.live[uid], file.accounts[uid], IntentOf(inst.intents, uid)) == Some(SaveResult(inst, file).value.accounts[uid])
    ensures uid !in inst.live ==> SaveResult(inst, file).value.accounts[uid] == file.accounts[uid]
  {
    SaveByUid(inst, file, uid);
    var merged := SaveResult(inst, file).value;
    var intent := IntentOf(inst.intents, uid);
    hide SaveResult, MergeAccount;
    assert EpochOf(merged, uid) == EpochOf(file, uid);
    assert AfterDeletion(file, EpochOf(inst.base, uid), intent, uid) == Some(file.accounts[uid]);
    if uid in inst.live {
      var m := MergeAccount(inst.base.accounts[uid], inst.live[uid], file.accounts[uid], intent);
      assert m.Some? && Get(merged.accounts, uid) == m;
      MergeCounts(inst.base.accounts[uid], inst.live[uid], file.accounts[uid], intent);
    }
  }

  lemma MergeCounts(base: Account, current: Account, latest: Account, intent: Intent)
    requires current.successCount >= base.successCount && current.errTotal >= Errors(base) && current.errCount == 0
    requires !intent.importedCounters && latest.errTotal >= 0 && latest.errCount >= 0
    requires MergeAccount(base, current, latest, intent).Some?
    ensures var m := MergeAccount(base, current, latest, intent).value;
            && m.successCount == latest.successCount + (current.successCount - base.successCount)
            && m.errTotal == Errors(m) == Errors(latest) + (current.errTotal - Errors(base))
            && m.errCount in {0, latest.errCount}
  {
    hide MergeFields, MergeCredits, MergeModels;
  }

  lemma SavedInStep(inst: Instance, file: StateFile, pending: Count, uid: string)
    requires InStep(inst, file, pending, uid) && uid in file.accounts && SaveResult(inst, file).Some?
    requires file.accounts[uid].errTotal >= 0 && file.accounts[uid].errCount >= 0
    ensures InStep(AfterSave(inst, SaveResult(inst, file).value), SaveResult(inst, file).value, ZERO, uid)
  {
    SaveAdds(inst, file, pending, uid);
    hide SaveResult, MergeAccount;
  }

  lemma OtherInStep(inst: Instance, file: StateFile, merged: StateFile, pending: Count, uid: string)
    requires InStep(inst, file, pending, uid) && EpochOf(merged, uid) == EpochOf(file, uid)
    ensures InStep(inst, merged, pending, uid)
  {
  }

  lemma LoadedInStep(file: StateFile, now: int, uid: string)
    requires uid in file.accounts && file.accounts[uid].errTotal >= 0 && file.accounts[uid].errCount >= 0
    ensures InStep(Loaded(file, now), file, ZERO, uid)
  {
  }

  lemma CountedStep(w: World, l: Ledger, step: Step, uid: string, start: Account)
    requires Counted(w, l, uid, start) && Keeps(step, uid) && step.i < |w.pools|
    ensures Counted(Next(w, step), Record(l, w, step, uid), uid, start)
  {
    var i := step.i;
    var inst := w.pools[i];
    assert InStep(inst, w.file, l.pending[i], uid);
    hide Local, Effect, SaveResult, Loaded, AfterSave, InStep, Errors, Total;
    match step
    case Act(_, op) =>
      LocalInStep(inst, op, w.file, l.pending[i], uid);
    case Start(_, now) =>
      LoadedInStep(w.file, now, uid);
    case Save(_) =>
      if SaveResult(inst, w.file).Some? {
        var merged := SaveResult(inst, w.file).value;
        SaveAdds(inst, w.file, l.pending[i], uid);
        SavedInStep(inst, w.file, l.pending[i], uid);
        TotalUpdate(l.flushed, i, l.pending[i]);
        hide MergeAccount;
        forall k | 0 <= k < |w.pools| && k != i
          ensures InStep(w.pools[k], merged, l.pending[k], uid)
        {
          OtherInStep(w.pools[k], w.file, merged, l.pending[k], uid);
        }
      }
  }

  predicate Healthy(a: Account) {
    a.errTotal >= 0 && a.errCount >= 0
  }

  lemma StoppedInStep(file: StateFile, uid: string)
    ensures InStep(STOPPED, file, ZERO, uid)
  {
  }

  lemma InitCounted(file: StateFile, n: nat, uid: string)
    requires uid in file.accounts && Healthy(file.accounts[uid])
    ensures Counted(Init(file, n), LedgerOf(Init(file, n), [], uid), uid, file.accounts[uid])
  {
    TotalZero(n);
    StoppedInStep(file, uid);
    hide InStep, Total, Errors;
  }

  lemma {:induction false} RunCounted(file: StateFile, n: nat, steps: seq<Step>, uid: string)
    requires uid in file.accounts && Healthy(file.accounts[uid])
    requires forall k :: 0 <= k < |steps| ==> Keeps(steps[k], uid)
    ensures Counted(Run(Init(file, n), steps), LedgerOf(Init(file, n), steps, uid), uid, file.accounts[uid])
  {
    hide Counted, Next, Record, Keeps, Healthy;
    if steps == [] {
      InitCounted(file, n, uid);
    } else {
      var m := |steps| - 1;
      RunCounted(file, n, steps[..m], uid);
      var w, l := Run(Init(file, n), steps[..m]), LedgerOf(Init(file, n), steps[..m], uid);
      if steps[m].i < |w.pools| {
        CountedStep(w, l, steps[m], uid, file.accounts[uid]);
      } else {
        OutOfRange(w, l, steps[m], uid);
      }
    }
  }

  lemma OutOfRange(w: World, l: Ledger, step: Step, uid: string)
    requires step.i >= |w.pools| && |l.pending| == |l.flushed| == |w.pools|
    ensures Next(w, step) == w && Record(l, w, step, uid) == l
  {
  }

  /**
   Counters are conserved: whatever n instances do and in whatever order they save, while the account
   is neither deleted nor imported the file holds its first value plus every increment made before the
   instance's last save. No instance ever falls below its baseline, so the merge never resets a counter.
   */
  lemma CountersConserved(file: StateFile, n: nat, steps: seq<Step>, uid: string)
    requires uid in file.accounts && Healthy(file.accounts[uid])
    requires forall k :: 0 <= k < |steps| ==> Keeps(steps[k], uid)
    ensures var w, flushed := Run(Init(file, n), steps), Total(LedgerOf(Init(file, n), steps, uid).flushed);
            && uid in w.file.accounts
            && w.file.accounts[uid].successCount == file.accounts[uid].successCount + flushed.success
            && Errors(w.file.accounts[uid]) == Errors(file.accounts[uid]) + flushed.errors
            && forall i :: 0 <= i < n && uid in w.pools[i].live ==> NeverResets(w.pools[i], uid)
  {
    RunCounted(file, n, steps, uid);
    hide Run, LedgerOf, Total, Errors, Keeps, Healthy;
    var w, l := Run(Init(file, n), steps), LedgerOf(Init(file, n), steps, uid);
    forall i | 0 <= i < n && uid in w.pools[i].live
      ensures NeverResets(w.pools[i], uid)
    {
      assert InStep(w.pools[i], w.file, l.pending[i], uid);
    }
  }

  predicate NeverResets(inst: Instance, uid: string)
    requires uid in inst.live
  {
    && uid in inst.base.accounts
    && inst.live[uid].successCount >= inst.base.accounts[uid].successCount
    && inst.live[uid].errTotal >= Errors(inst.base.accounts[uid])
  }

  // ---- Credits ----

  /** The operation does not assign the account's balance. */
  predicate Spares(inst: Instance, op: Op, uid: string) {
    op.Assign? && op.uid == uid && uid in inst.live ==> op.credits == inst.live[uid].credits && Credits !in op.fields
  }

  predicate Unassigned(w: World, steps: seq<Step>, uid: string) {
    steps == [] ||
    (var before, last := steps[..|steps| - 1], steps[|steps| - 1];
     && Unassigned(w, before, uid)
     && (last.Act? && last.i < |w.pools| ==> Spares(Run(w, before).pools[last.i], last.op, uid)))
  }

  /** The balance of one instance's view, as far as the merge can see it. */
  ghost predicate Billed(inst: Instance, pending: Count, uid: string) {
    var intent := IntentOf(inst.intents, uid);
    && Credits !in intent.fields
    && intent.credits + pending.consumed == 0
    && (uid in inst.live ==> inst.live[uid].credits >= 0)
    && (uid in inst.live && uid in inst.base.accounts && pending.consumed == 0 ==> inst.live[uid].credits == inst.base.accounts[uid].credits)
    && (uid !in inst.live ==> pending.consumed == 0)
  }

  ghost predicate Balanced(w: World, l: Ledger, uid: string, start: int) {
    && |l.pending| == |l.flushed| == |w.pools|
    && uid in w.file.accounts
    && w.file.accounts[uid].credits == Max(0, start - Total(l.flushed).consumed)
    && forall i :: 0 <= i < |w.pools| ==> Billed(w.pools[i], l.pending[i], uid)
  }

  lemma FrameBilled(a: Instance, b: Instance, pending: Count, uid: string)
    requires Billed(a, pending, uid) && SameFor(a, b, uid)
    ensures Billed(b, pending, uid)
  {
  }

  lemma AddBilled(inst: Instance, file: StateFile, pending: Count, uid: string)
    requires Billed(inst, pending, uid)
    ensures Billed(Added(inst, uid, file), pending, uid)
  {
  }

  lemma LocalBilled(inst: Instance, op: Op, file: StateFile, pending: Count, uid: string)
    requires Billed(inst, pending, uid) && Spares(inst, op, uid) && !op.Import? && op != Op.Remove(uid)
    ensures Billed(Local(inst, op, file), Plus(pending, Effect(inst, op, uid)), uid)
  {
    hide Effect, Billed;
    if !Concerns(op, uid) {
      NoEffect(inst, op, pending, uid);
      LocalFrame(inst, op, file, uid);
      hide Local, SameFor;
      FrameBilled(inst, Local(inst, op, file), pending, uid);
    } else if op.Add? {
      NoEffect(inst, op, pending, uid);
      AddBilled(inst, file, pending, uid);
    } else if op.NoteModelCost? {
      CostBilled(inst, op, file, pending, uid);
    } else {
      OtherBilled(inst, op, file, pending, uid);
    }
  }

  lemma CostBilled(inst: Instance, op: Op, file: StateFile, pending: Count, uid: string)
    requires Billed(inst, pending, uid) && op.NoteModelCost? && op.uid == uid
    ensures Billed(Local(inst, op, file), Plus(pending, Effect(inst, op, uid)), uid)
  {
    var after := Local(inst, op, file);
    if uid in inst.live {
      assert IntentOf(after.intents, uid).credits == IntentOf(inst.intents, uid).credits - op.consumed;
      assert op.consumed == 0 ==> after.live[uid].credits == inst.live[uid].credits;
    }
  }

  lemma OtherBilled(inst: Instance, op: Op, file: StateFile, pending: Count, uid: string)
    requires (op.NoteSuccess? || op.NoteError? || op.Assign?) && op.uid == uid
    requires Billed(inst, pending, uid) && Spares(inst, op, uid)
    ensures Billed(Local(inst, op, file), Plus(pending, Effect(inst, op, uid)), uid)
  {
    var after := Local(inst, op, file);
    assert Effect(inst, op, uid).consumed == 0;
    if uid in inst.live {
      assert after.live[uid].credits == inst.live[uid].credits;
      assert IntentOf(after.intents, uid).credits == IntentOf(inst.intents, uid).credits;
    }
  }

  lemma SaveBills(inst: Instance, file: StateFile, pending: Count, uid: string)
    requires InStep(inst, file, pending, uid) && Billed(inst, pending, uid) && uid in file.accounts && SaveResult(inst, file).Some?
    requires Healthy(file.accounts[uid]) && file.accounts[uid].credits >= 0
    ensures var merged := SaveResult(inst, file).value;
            && uid in merged.accounts
            && merged.accounts[uid].credits == Max(0, file.accounts[uid].credits - pending.consumed)
            && Billed(AfterSave(inst, merged), ZERO, uid)
  {
    SaveAdds(inst, file, pending, uid);
    var merged := SaveResult(inst, file).value;
    hide SaveResult, MergeAccount;
    if uid in inst.live {
      MergeBills(inst.base.accounts[uid], inst.live[uid], file.accounts[uid], IntentOf(inst.intents, uid), pending.consumed);
    }
  }

  lemma MergeBills(base: Account, current: Account, latest: Account, intent: Intent, consumed: nat)
    requires Credits !in intent.fields && intent.credits + consumed == 0 && latest.credits >= 0
    requires consumed == 0 ==> current.credits == base.credits
    requires MergeAccount(base, current, latest, intent).Some?
    ensures MergeAccount(base, current, latest, intent).value.credits == Max(0, latest.credits - consumed)
  {
    hide MergeFields, MergeModels, MergedCounter;
  }

  lemma LoadedBilled(file: StateFile, now: int, uid: string)
    requires uid in file.accounts && file.accounts[uid].credits >= 0
    ensures Billed(Loaded(file, now), ZERO, uid)
  {
  }

  lemma StoppedBilled(uid: string)
    ensures Billed(STOPPED, ZERO, uid)
  {
  }

  lemma BalancedAct(w: World, l: Ledger, i: nat, after: Instance, pending: Count, uid: string, start: int)
    requires Balanced(w, l, uid, start) && i < |w.pools| && Billed(after, pending, uid)
    ensures Balanced(w.(pools := w.pools[i := after]), l.(pending := l.pending[i := pending]), uid, start)
  {
    hide Billed, Total;
  }

  lemma BalancedSave(w: World, l: Ledger, i: nat, uid: string, start: int)
    requires Balanced(w, l, uid, start) && i < |w.pools| && start >= 0
    requires InStep(w.pools[i], w.file, l.pending[i], uid) && Healthy(w.file.accounts[uid])
    requires SaveResult(w.pools[i], w.file).Some?
    ensures var merged := SaveResult(w.pools[i], w.file).value;
            Balanced(World(merged, w.pools[i := AfterSave(w.pools[i], merged)]),
                     Ledger(l.pending[i := ZERO], l.flushed[i := Plus(l.flushed[i], l.pending[i])]), uid, start)
  {
    SaveBills(w.pools[i], w.file, l.pending[i], uid);
    TotalUpdate(l.flushed, i, l.pending[i]);
    hide Billed, Total, InStep, SaveResult, AfterSave, Healthy;
  }

  lemma CountedAt(w: World, l: Ledger, uid: string, start: Account, i: nat)
    requires Counted(w, l, uid, start) && i < |w.pools|
    ensures InStep(w.pools[i], w.file, l.pending[i], uid) && Healthy(w.file.accounts[uid])
  {
    hide InStep, Total, Errors;
  }

  lemma BalancedAt(w: World, l: Ledger, uid: string, start: int, i: nat)
    requires Balanced(w, l, uid, start) && i < |w.pools|
    ensures Billed(w.pools[i], l.pending[i], uid) && w.file.accounts[uid].credits >= 0
  {
    hide Billed, Total;
  }

  lemma BalancedStep(w: World, l: Ledger, step: Step, uid: string, start: Account)
    requires Counted(w, l, uid, start) && Balanced(w, l, uid, start.credits) && start.credits >= 0
    requires Keeps(step, uid) && step.i < |w.pools| && (step.Act? ==> Spares(w.pools[step.i], step.op, uid))
    ensures Balanced(Next(w, step), Record(l, w, step, uid), uid, start.credits)
  {
    var i := step.i;
    CountedAt(w, l, uid, start, i);
    BalancedAt(w, l, uid, start.credits, i);
    hide InStep, Billed, Spares, Counted, Balanced, Healthy, Next, Record;
    match step
    case Act(_, op) => BalancedOp(w, l, i, op, uid, start.credits);
    case Start(_, now) => BalancedStart(w, l, i, now, uid, start.credits);
    case Save(_) => BalancedCommit(w, l, i, uid, start.credits);
  }

  lemma BalancedOp(w: World, l: Ledger, i: nat, op: Op, uid: string, start: int)
    requires Balanced(w, l, uid, start) && i < |w.pools| && InStep(w.pools[i], w.file, l.pending[i], uid)
    requires Keeps(Act(i, op), uid) && Spares(w.pools[i], op, uid)
    ensures Balanced(Next(w, Act(i, op)), Record(l, w, Act(i, op), uid), uid, start)
  {
    BalancedAt(w, l, uid, start, i);
    hide Local, Effect, InStep, Billed, Spares, Balanced, Next, Record;
    LocalBilled(w.pools[i], op, w.file, l.pending[i], uid);
    BalancedAct(w, l, i, Local(w.pools[i], op, w.file), Plus(l.pending[i], Effect(w.pools[i], op, uid)), uid, start);
    OpRecorded(w, l, i, op, uid);
  }

  lemma OpRecorded(w: World, l: Ledger, i: nat, op: Op, uid: string)
    requires |l.pending| == |l.flushed| == |w.pools| && i < |w.pools| && !op.Import?
    ensures Next(w, Act(i, op)) == w.(pools := w.pools[i := Local(w.pools[i], op, w.file)])
    ensures Record(l, w, Act(i, op), uid) == l.(pending := l.pending[i := Plus(l.pending[i], Effect(w.pools[i], op, uid))])
  {
    hide Local, Effect;
  }

  lemma BalancedStart(w: World, l: Ledger, i: nat, now: int, uid: string, start: int)
    requires Balanced(w, l, uid, start) && i < |w.pools|
    ensures Balanced(Next(w, Start(i, now)), Record(l, w, Start(i, now), uid), uid, start)
  {
    BalancedAt(w, l, uid, start, i);
    LoadedBilled(w.file, now, uid);
    hide Loaded, Billed, Balanced;
    BalancedAct(w, l, i, Loaded(w.file, now), ZERO, uid, start);
  }

  lemma BalancedCommit(w: World, l: Ledger, i: nat, uid: string, start: int)
    requires Balanced(w, l, uid, start) && i < |w.pools| && start >= 0
    requires InStep(w.pools[i], w.file, l.pending[i], uid) && Healthy(w.file.accounts[uid])
    ensures Balanced(Next(w, Save(i)), Record(l, w, Save(i), uid), uid, start)
  {
    hide SaveResult, AfterSave, InStep, Healthy, Balanced;
    if SaveResult(w.pools[i], w.file).Some? {
      BalancedSave(w, l, i, uid, start);
    }
  }

  lemma {:induction false} RunBalanced(file: StateFile, n: nat, steps: seq<Step>, uid: string)
    requires uid in file.accounts && Healthy(file.accounts[uid]) && file.accounts[uid].credits >= 0
    requires forall k :: 0 <= k < |steps| ==> Keeps(steps[k], uid)
    requires Unassigned(Init(file, n), steps, uid)
    ensures Balanced(Run(Init(file, n), steps), LedgerOf(Init(file, n), steps, uid), uid, file.accounts[uid].credits)
  {
    hide Counted, Balanced, Next, Record, Keeps, Healthy, Spares;
    if steps == [] {
      InitBalanced(file, n, uid);
    } else {
      var m := |steps| - 1;
      RunBalanced(file, n, steps[..m], uid);
      RunCounted(file, n, steps[..m], uid);
      var w, l := Run(Init(file, n), steps[..m]), LedgerOf(Init(file, n), steps[..m], uid);
      if steps[m].i < |w.pools| {
        BalancedStep(w, l, steps[m], uid, file.accounts[uid]);
      } else {
        OutOfRange(w, l, steps[m], uid);
      }
    }
  }

  lemma InitBalanced(file: StateFile, n: nat, uid: string)
    requires uid in file.accounts && file.accounts[uid].credits >= 0
    ensures Balanced(Init(file, n), LedgerOf(Init(file, n), [], uid), uid, file.accounts[uid].credits)
  {
    TotalZero(n);
    StoppedBilled(uid);
    hide Billed, Total;
  }

  /**
   Credit consumption is order-free: without explicit assignments the file's balance is the first one
   less everything consumed and saved, clamped at zero, even where an instance's own view hit zero before.
   */
  lemma CreditsConserved(file: StateFile, n: nat, steps: seq<Step>, uid: string)
    requires uid in file.accounts && Healthy(file.accounts[uid]) && file.accounts[uid].credits >= 0
    requires forall k :: 0 <= k < |steps| ==> Keeps(steps[k], uid)
    requires Unassigned(Init(file, n), steps, uid)
    ensures var w, flushed := Run(Init(file, n), steps), Total(LedgerOf(Init(file, n), steps, uid).flushed);
            uid in w.file.accounts && w.file.accounts[uid].credits == Max(0, file.accounts[uid].credits - flushed.consumed)
  {
    RunBalanced(file, n, steps, uid);
    hide Run, LedgerOf, Total, Keeps, Healthy, Unassigned;
  }
}
