/**
 Importing one snapshot into several instances of one state file. A process starts, may restore the
 snapshot, and then counts, synchronises its accounts and saves, as often as it likes and in any
 interleaving with the others; processes that do not restore run beside it.
 */
module SharedSnapshot {
  import opened Wrappers
  import opened StateMerge
  import opened PoolState
  import opened SharedState
  import opened SharedLaws

  /** The first file, the snapshot and the account in question. */
  datatype Case = Case(file: StateFile, snapshot: StateFile, uid: string)

  function SuccessIn(file: StateFile, uid: string): int {
    if uid in file.accounts then file.accounts[uid].successCount else 0
  }

  function ErrorsIn(file: StateFile, uid: string): int {
    if uid in file.accounts then Errors(file.accounts[uid]) else 0
  }

  /** The deletion epoch that file and snapshot agree on in the end. */
  function Top(c: Case): nat {
    KnownEpoch(EpochOf(c.snapshot, c.uid), EpochOf(c.file, c.uid))
  }

  /** The snapshot has the account, and is not older than the deletion of an account that the file lacks. */
  predicate Restorable(c: Case) {
    && c.uid in c.snapshot.accounts
    && c.snapshot.accounts[c.uid].successCount >= 0 && Healthy(c.snapshot.accounts[c.uid])
    && (c.uid in c.file.accounts ==> Healthy(c.file.accounts[c.uid]))
    && (c.uid in c.file.accounts || EpochOf(c.file, c.uid) <= EpochOf(c.snapshot, c.uid))
  }

  // ---- The life of a process ----

  datatype Phase = Stopped | Running | Recovered

  function PhaseOf(steps: seq<Step>, i: nat): Phase {
    if steps == [] then Stopped
    else
      var before, last := PhaseOf(steps[..|steps| - 1], i), steps[|steps| - 1];
      if last.i != i then before
      else if last.Start? then Running
      else if last.Act? && last.op.Import? then Recovered
      else before
  }

  /**
   A process acts once it has started, never removes the account and restores no other snapshot. If the
   file lacks the account, a process restores once, and before it synchronises the account.
   */
  predicate Allowed(step: Step, phase: Phase, c: Case) {
    step.Act? ==>
      && phase != Stopped
      && step.op != Op.Remove(c.uid)
      && (step.op.Import? ==> step.op.snapshot == c.snapshot && (c.uid in c.file.accounts || phase == Running))
      && (step.op == Op.Add(c.uid) ==> c.uid in c.file.accounts || phase == Recovered)
  }

  predicate Orderly(steps: seq<Step>, c: Case) {
    forall k :: 0 <= k < |steps| ==> Allowed(steps[k], PhaseOf(steps[..k], steps[k].i), c)
  }

  // ---- When the snapshot takes effect ----

  /** The instance holds the account and has not saved since it restored it. */
  predicate Imports(inst: Instance, uid: string) {
    uid in inst.live && IntentOf(inst.intents, uid).importedCounters
  }

  /** The step commits a save that carries the snapshot's counters as a floor. */
  predicate Floors(w: World, step: Step, uid: string) {
    && step.Save? && step.i < |w.pools| && Imports(w.pools[step.i], uid)
    && SaveResult(w.pools[step.i], w.file).Some?
  }

  predicate Floored(w: World, steps: seq<Step>, uid: string) {
    steps != [] &&
    (var before, last := steps[..|steps| - 1], steps[|steps| - 1];
     Floored(w, before, uid) || Floors(Run(w, before), last, uid))
  }

  /** What was saved before the snapshot took effect. */
  function Early(w: World, steps: seq<Step>, uid: string): Count {
    if Floored(w, steps, uid) then Early(w, steps[..|steps| - 1], uid)
    else Total(LedgerOf(w, steps, uid).flushed)
  }

  // ---- The invariant ----

  /** One instance: its view is ahead of its baseline by what is pending, and its epochs and intents fit the case. */
  ghost predicate Tracked(inst: Instance, file: StateFile, pending: Count, phase: Phase, c: Case)
    requires Restorable(c)
  {
    var uid, intent, own, s := c.uid, IntentOf(inst.intents, c.uid), EpochOf(inst.base, c.uid), c.snapshot.accounts[c.uid];
    && (own == 0 || own == EpochOf(c.file, uid) || own == Top(c)) && !intent.deleted
    && (intent.created ==> intent.createdEpoch == Top(c) == KnownEpoch(own, EpochOf(file, uid)))
    && (intent.importedCounters ==> intent.importedSuccess == s.successCount && intent.importedErrors == Errors(s))
    && (uid in inst.live ==> Ahead(inst, pending, uid))
    && (uid !in inst.live ==> pending.success == 0 && pending.errors == 0)
    && (phase == Stopped ==> uid !in inst.live && uid !in inst.base.accounts && !intent.created && !intent.importedCounters)
    && (phase != Stopped ==> own == EpochOf(c.file, uid) || own == Top(c))
    && (phase != Stopped && uid in c.file.accounts ==> uid in inst.live)
    && (phase == Recovered ==> uid in inst.live && own == Top(c))
    && (phase == Running && uid !in file.accounts ==> uid !in inst.live && uid !in inst.base.accounts)
    && (phase == Recovered && uid !in file.accounts ==>
          && intent.created && intent.importedCounters && uid in inst.base.accounts
          && inst.base.accounts[uid].successCount == s.successCount && Errors(inst.base.accounts[uid]) == Errors(s))
  }

  ghost predicate Ahead(inst: Instance, pending: Count, uid: string)
    requires uid in inst.live
  {
    && uid in inst.base.accounts
    && inst.live[uid].successCount == inst.base.accounts[uid].successCount + pending.success
    && inst.live[uid].errTotal == Errors(inst.base.accounts[uid]) + pending.errors
    && inst.live[uid].errCount == 0 && inst.live[uid].errTotal >= 0
  }

  /** The file between its first state and the highest epoch. */
  ghost predicate FileFits(file: StateFile, c: Case) {
    && (EpochOf(file, c.uid) == EpochOf(c.file, c.uid) || EpochOf(file, c.uid) == Top(c))
    && (c.uid in c.file.accounts ==> c.uid in file.accounts)
    && (c.uid in file.accounts ==> Healthy(file.accounts[c.uid]))
  }

  /** The file's counters: the first ones, raised to the snapshot's when it took effect, plus all that was saved. */
  ghost predicate Sums(file: StateFile, c: Case, floored: bool, early: Count, flushed: Count)
    requires Restorable(c)
  {
    var s := c.snapshot.accounts[c.uid];
    if floored then
      && c.uid in file.accounts
      && SuccessIn(file, c.uid) == Max(SuccessIn(c.file, c.uid) + early.success, s.successCount) + (flushed.success - early.success)
      && ErrorsIn(file, c.uid) == Max(ErrorsIn(c.file, c.uid) + early.errors, Errors(s)) + (flushed.errors - early.errors)
      && flushed.success >= early.success && flushed.errors >= early.errors
    else
      && (c.uid in file.accounts <==> c.uid in c.file.accounts)
      && early == flushed
      && SuccessIn(file, c.uid) == SuccessIn(c.file, c.uid) + flushed.success
      && ErrorsIn(file, c.uid) == ErrorsIn(c.file, c.uid) + flushed.errors
  }

  ghost predicate AllTracked(w: World, l: Ledger, steps: seq<Step>, c: Case)
    requires Restorable(c)
  {
    && |l.pending| == |l.flushed| == |w.pools|
    && forall i :: 0 <= i < |w.pools| ==> Tracked(w.pools[i], w.file, l.pending[i], PhaseOf(steps, i), c)
  }

  // ---- Each operation ----

  lemma FrameTracked(a: Instance, b: Instance, file: StateFile, pending: Count, phase: Phase, c: Case)
    requires Restorable(c) && Tracked(a, file, pending, phase, c) && SameFor(a, b, c.uid)
    ensures Tracked(b, file, pending, phase, c)
  {
  }

  lemma AdvanceTracked(inst: Instance, after: Instance, file: StateFile, pending: Count, effect: Count, phase: Phase, c: Case)
    requires Restorable(c) && Tracked(inst, file, pending, phase, c) && Advances(inst, after, effect, c.uid)
    ensures Tracked(after, file, Plus(pending, effect), phase, c)
  {
    hide IntentOf, EpochOf, Errors, Top, Restorable;
  }

  lemma AddTracked(inst: Instance, file: StateFile, pending: Count, phase: Phase, c: Case)
    requires Restorable(c) && FileFits(file, c) && Tracked(inst, file, pending, phase, c)
    requires phase != Stopped && (c.uid in c.file.accounts || phase == Recovered)
    ensures Tracked(Added(inst, c.uid, file), file, pending, phase, c)
  {
    assert c.uid in inst.live;
  }

  lemma ImportTracked(inst: Instance, file: StateFile, now: int, pending: Count, phase: Phase, c: Case)
    requires Restorable(c) && FileFits(file, c) && Tracked(inst, file, pending, phase, c)
    requires phase != Stopped && (c.uid in c.file.accounts || phase == Running)
    ensures Tracked(Imported(inst, c.snapshot, now), file, ZERO, Recovered, c)
  {
    ImportTakes(inst, c.snapshot, now, c.uid);
    hide Imported, IntentOf, EpochOf, Errors, Ahead;
  }

  /** What an import leaves of one account: counters, intent and epoch. */
  lemma ImportTakes(inst: Instance, s: StateFile, now: int, uid: string)
    requires uid in s.accounts && Healthy(s.accounts[uid])
    ensures var after, a := Imported(inst, s, now), s.accounts[uid];
            var intent := IntentOf(after.intents, uid);
            && uid in after.live && Ahead(after, ZERO, uid)
            && after.base.accounts[uid].successCount == a.successCount && Errors(after.base.accounts[uid]) == Errors(a)
            && intent.importedCounters && intent.importedSuccess == a.successCount && intent.importedErrors == Errors(a)
            && !intent.deleted && intent.created == (uid !in inst.base.accounts)
            && (intent.created ==> intent.createdEpoch == EpochOf(s, uid))
            && EpochOf(after.base, uid) == KnownEpoch(EpochOf(s, uid), EpochOf(inst.base, uid))
  {
    ImportedAt(inst, s, now, uid);
    hide Imported, Restored, EpochOf, IntentOf;
  }

  lemma StartTracked(file: StateFile, now: int, c: Case)
    requires Restorable(c) && FileFits(file, c)
    ensures Tracked(Loaded(file, now), file, ZERO, Running, c)
  {
  }

  lemma LocalTracked(inst: Instance, op: Op, i: nat, file: StateFile, pending: Count, phase: Phase, c: Case)
    requires Restorable(c) && FileFits(file, c) && Tracked(inst, file, pending, phase, c) && Allowed(Act(i, op), phase, c)
    ensures var after := Local(inst, op, file);
            if op.Import? then Tracked(after, file, ZERO, Recovered, c)
            else Tracked(after, file, Plus(pending, Effect(inst, op, c.uid)), phase, c)
  {
    var after, effect := Local(inst, op, file), Effect(inst, op, c.uid);
    hide Tracked, FileFits, Advances, Restorable;
    if op.Import? {
      ImportTracked(inst, file, op.now, pending, phase, c);
    } else if !Concerns(op, c.uid) {
      NoEffect(inst, op, pending, c.uid);
      LocalFrame(inst, op, file, c.uid);
      hide Local, Effect, SameFor;
      FrameTracked(inst, after, file, pending, phase, c);
    } else if op.Add? {
      NoEffect(inst, op, pending, c.uid);
      AddTracked(inst, file, pending, phase, c);
    } else {
      hide Local, Effect;
      if op.NoteSuccess? {
        SuccessAdvances(inst, op, file);
      } else if op.NoteError? {
        ErrorAdvances(inst, op, file);
      } else if op.NoteModelCost? {
        CostAdvances(inst, op, file);
      } else {
        AssignAdvances(inst, op, file);
      }
      AdvanceTracked(inst, after, file, pending, effect, phase, c);
    }
  }

  /** Only an account that an instance restored can be missing from the file; a save then writes it. */
  lemma SaveTracked(inst: Instance, file: StateFile, pending: Count, phase: Phase, c: Case)
    requires Restorable(c) && FileFits(file, c) && Tracked(inst, file, pending, phase, c) && SaveResult(inst, file).Some?
    ensures var merged, imported := SaveResult(inst, file).value, IntentOf(inst.intents, c.uid).importedCounters;
            var s := c.snapshot.accounts[c.uid];
            && EpochOf(merged, c.uid) == KnownEpoch(EpochOf(inst.base, c.uid), EpochOf(file, c.uid))
            && FileFits(merged, c)
            && (c.uid !in inst.live ==> Get(merged.accounts, c.uid) == Get(file.accounts, c.uid))
            && (c.uid in inst.live ==>
                  && c.uid in merged.accounts && (imported || c.uid in file.accounts)
                  && SuccessIn(merged, c.uid) == (if imported then Max(SuccessIn(file, c.uid), s.successCount) else SuccessIn(file, c.uid)) + pending.success
                  && ErrorsIn(merged, c.uid) == (if imported then Max(ErrorsIn(file, c.uid), Errors(s)) else ErrorsIn(file, c.uid)) + pending.errors)
  {
    SaveByUid(inst, file, c.uid);
    var intent := IntentOf(inst.intents, c.uid);
    hide SaveResult, MergeAccount;
    assert AfterDeletion(file, EpochOf(inst.base, c.uid), intent, c.uid) == Get(file.accounts, c.uid);
    if c.uid in inst.live && c.uid in file.accounts {
      FlooredCounts(inst.base.accounts[c.uid], inst.live[c.uid], file.accounts[c.uid], intent);
    } else if c.uid in inst.live {
      assert Get(SaveResult(inst, file).value.accounts, c.uid) == Some(inst.live[c.uid]);
    } else {
      assert Get(SaveResult(inst, file).value.accounts, c.uid) == Get(file.accounts, c.uid);
    }
  }

  lemma FlooredCounts(base: Account, current: Account, latest: Account, intent: Intent)
    requires current.successCount >= base.successCount && current.errTotal >= Errors(base) && current.errCount == 0
    requires Healthy(latest) && (intent.importedCounters ==> intent.importedErrors >= 0)
    requires MergeAccount(base, current, latest, intent).Some?
    ensures var m := MergeAccount(base, current, latest, intent).value;
            && m.successCount == LatestSuccess(latest, intent) + (current.successCount - base.successCount)
            && Errors(m) == LatestErrors(latest, intent) + (current.errTotal - Errors(base))
            && Healthy(m)
  {
    hide MergeFields, MergeCredits, MergeModels;
  }

  lemma SavedTracked(inst: Instance, file: StateFile, pending: Count, phase: Phase, c: Case)
    requires Restorable(c) && FileFits(file, c) && Tracked(inst, file, pending, phase, c) && SaveResult(inst, file).Some?
    ensures Tracked(AfterSave(inst, SaveResult(inst, file).value), SaveResult(inst, file).value, ZERO, phase, c)
  {
    SaveTracked(inst, file, pending, phase, c);
    SavedShape(inst, SaveResult(inst, file).value, c.uid);
    hide SaveResult, AfterSave, IntentOf, EpochOf, Errors, Restorable, SuccessIn, ErrorsIn, Max;
  }

  /** What a save leaves of one account at the instance: nothing pending, no intent, the file's epoch. */
  lemma SavedShape(inst: Instance, merged: StateFile, uid: string)
    ensures var after := AfterSave(inst, merged);
            && after.live == inst.live && after.base.accounts == inst.live
            && EpochOf(after.base, uid) == EpochOf(merged, uid) && IntentOf(after.intents, uid) == NO_INTENT
            && (uid in inst.live && inst.live[uid].errCount == 0 && inst.live[uid].errTotal >= 0 ==> Ahead(after, ZERO, uid))
  {
  }

  lemma OtherTracked(other: Instance, file: StateFile, merged: StateFile, pending: Count, phase: Phase, c: Case)
    requires Restorable(c) && Tracked(other, file, pending, phase, c)
    requires FileFits(file, c) && FileFits(merged, c) && EpochOf(file, c.uid) <= EpochOf(merged, c.uid) <= Top(c)
    requires c.uid in file.accounts ==> c.uid in merged.accounts
    ensures Tracked(other, merged, pending, phase, c)
  {
  }

  // ---- The whole world ----

  ghost predicate Tallied(w: World, l: Ledger, steps: seq<Step>, c: Case, floored: bool, early: Count)
    requires Restorable(c)
  {
    FileFits(w.file, c) && AllTracked(w, l, steps, c) && Sums(w.file, c, floored, early, Total(l.flushed))
  }

  lemma PhaseAfter(steps: seq<Step>, step: Step, i: nat)
    ensures PhaseOf(steps + [step], i) ==
            if step.i != i then PhaseOf(steps, i)
            else if step.Start? then Running
            else if step.Act? && step.op.Import? then Recovered
            else PhaseOf(steps, i)
  {
    assert (steps + [step])[..|steps|] == steps;
  }

  /** One instance moves, the file stays. */
  lemma MoveTallied(w: World, l: Ledger, steps: seq<Step>, step: Step, after: Instance, pending: Count, c: Case, floored: bool, early: Count)
    requires Restorable(c) && Tallied(w, l, steps, c, floored, early) && step.i < |w.pools|
    requires Tracked(after, w.file, pending, PhaseOf(steps + [step], step.i), c)
    ensures Tallied(w.(pools := w.pools[step.i := after]), l.(pending := l.pending[step.i := pending]), steps + [step], c, floored, early)
  {
    hide Tracked, PhaseOf, FileFits, Sums, Total, Restorable;
    forall k | 0 <= k < |w.pools|
      ensures k != step.i ==> PhaseOf(steps + [step], k) == PhaseOf(steps, k)
    {
      PhaseAfter(steps, step, k);
    }
  }

  lemma SaveTallied(w: World, l: Ledger, steps: seq<Step>, i: nat, c: Case, floored: bool, early: Count)
    requires Restorable(c) && Tallied(w, l, steps, c, floored, early) && i < |w.pools| && SaveResult(w.pools[i], w.file).Some?
    ensures Tallied(Next(w, Save(i)), Record(l, w, Save(i), c.uid), steps + [Save(i)], c,
                    floored || Floors(w, Save(i), c.uid),
                    if floored || Floors(w, Save(i), c.uid) then early else Total(Record(l, w, Save(i), c.uid).flushed))
  {
    var inst, merged := w.pools[i], SaveResult(w.pools[i], w.file).value;
    var phase := PhaseOf(steps, i);
    assert Tracked(inst, w.file, l.pending[i], phase, c);
    SaveTracked(inst, w.file, l.pending[i], phase, c);
    SavedTracked(inst, w.file, l.pending[i], phase, c);
    TotalUpdate(l.flushed, i, l.pending[i]);
    FlushSums(w.file, merged, inst, l.pending[i], phase, c, floored, early, Total(l.flushed));
    var w', l' := Next(w, Save(i)), Record(l, w, Save(i), c.uid);
    forall k | 0 <= k < |w.pools|
      ensures Tracked(w'.pools[k], w'.file, l'.pending[k], PhaseOf(steps + [Save(i)], k), c)
    {
      PhaseAfter(steps, Save(i), k);
      assert Tracked(w.pools[k], w.file, l.pending[k], PhaseOf(steps, k), c);
      hide Tracked, SaveResult, AfterSave, FileFits, Sums, Total, PhaseOf;
      if k != i {
        SaveRange(inst, w.file, merged, l.pending[i], phase, c);
        OtherTracked(w.pools[k], w.file, merged, l.pending[k], PhaseOf(steps, k), c);
      }
    }
    hide Tracked, SaveResult, AfterSave, FileFits, Sums, Total, PhaseOf;
  }

  lemma SaveRange(inst: Instance, file: StateFile, merged: StateFile, pending: Count, phase: Phase, c: Case)
    requires Restorable(c) && FileFits(file, c) && Tracked(inst, file, pending, phase, c)
    requires SaveResult(inst, file) == Some(merged)
    ensures EpochOf(file, c.uid) <= EpochOf(merged, c.uid) <= Top(c)
    ensures c.uid in file.accounts ==> c.uid in merged.accounts
  {
    SaveTracked(inst, file, pending, phase, c);
    hide SaveResult;
    assert c.uid in file.accounts <==> Get(file.accounts, c.uid).Some?;
    assert c.uid in merged.accounts <==> Get(merged.accounts, c.uid).Some?;
  }

  /** One counter of Sums, at a save with this much pending. */
  lemma FlushOne(first: int, floor: int, early: nat, flushed: nat, pending: nat, value: int, floored: bool, imported: bool)
    requires if floored then value == Max(first + early, floor) + (flushed - early) && flushed >= early else value == first + flushed && early == flushed
    ensures var next := (if imported then Max(value, floor) else value) + pending;
            if floored || imported then next == Max(first + early, floor) + (flushed + pending - early) else next == first + (flushed + pending)
  {
  }

  /** SaveTracked without its cases: a save adds what is pending, above the snapshot's floor if it carries one. */
  lemma SaveCounts(inst: Instance, file: StateFile, merged: StateFile, pending: Count, phase: Phase, c: Case)
    requires Restorable(c) && FileFits(file, c) && Tracked(inst, file, pending, phase, c) && SaveResult(inst, file) == Some(merged)
    ensures var s := c.snapshot.accounts[c.uid];
            && SuccessIn(merged, c.uid) == (if Imports(inst, c.uid) then Max(SuccessIn(file, c.uid), s.successCount) else SuccessIn(file, c.uid)) + pending.success
            && ErrorsIn(merged, c.uid) == (if Imports(inst, c.uid) then Max(ErrorsIn(file, c.uid), Errors(s)) else ErrorsIn(file, c.uid)) + pending.errors
            && (c.uid in merged.accounts <==> c.uid in file.accounts || Imports(inst, c.uid))
  {
    SaveTracked(inst, file, pending, phase, c);
    assert c.uid !in inst.live ==> pending.success == 0 && pending.errors == 0;
    hide SaveResult, FileFits, Restorable, Top, Tracked, Max, Errors;
    assert c.uid in file.accounts <==> Get(file.accounts, c.uid).Some?;
    assert c.uid in merged.accounts <==> Get(merged.accounts, c.uid).Some?;
    if c.uid !in inst.live {
      SameIn(file, merged, c.uid);
    }
  }

  lemma SameIn(file: StateFile, merged: StateFile, uid: string)
    requires Get(merged.accounts, uid) == Get(file.accounts, uid)
    ensures SuccessIn(merged, uid) == SuccessIn(file, uid) && ErrorsIn(merged, uid) == ErrorsIn(file, uid)
  {
  }

  /** A save adds what is pending, and the first one with a floor raises the counters to the snapshot's. */
  lemma FlushSums(file: StateFile, merged: StateFile, inst: Instance, pending: Count, phase: Phase, c: Case, floored: bool, early: Count, flushed: Count)
    requires Restorable(c) && FileFits(file, c) && Tracked(inst, file, pending, phase, c)
    requires SaveResult(inst, file) == Some(merged) && Sums(file, c, floored, early, flushed)
    ensures var floors := floored || Imports(inst, c.uid);
            Sums(merged, c, floors, if floors then early else Plus(flushed, pending), Plus(flushed, pending))
  {
    hide SaveResult, FileFits, Top, Tracked, Max, Errors, Imports, SuccessIn, ErrorsIn, Get;
    var s := c.snapshot.accounts[c.uid];
    hide Restorable;
    SaveCounts(inst, file, merged, pending, phase, c);
    FlushOne(SuccessIn(c.file, c.uid), s.successCount, early.success, flushed.success, pending.success, SuccessIn(file, c.uid), floored, Imports(inst, c.uid));
    FlushOne(ErrorsIn(c.file, c.uid), Errors(s), early.errors, flushed.errors, pending.errors, ErrorsIn(file, c.uid), floored, Imports(inst, c.uid));
  }

  /** A step of a process that does not exist. */
  lemma NoProcess(w: World, l: Ledger, steps: seq<Step>, step: Step, c: Case, floored: bool, early: Count)
    requires Restorable(c) && Tallied(w, l, steps, c, floored, early) && step.i >= |w.pools|
    ensures Tallied(w, l, steps + [step], c, floored, early)
    ensures !floored ==> early == Total(l.flushed)
  {
    hide Tracked, PhaseOf, FileFits, Total, Restorable;
    forall k | 0 <= k < |w.pools|
      ensures PhaseOf(steps + [step], k) == PhaseOf(steps, k)
    {
      PhaseAfter(steps, step, k);
    }
  }

  lemma TalliedStep(w: World, l: Ledger, steps: seq<Step>, step: Step, c: Case, floored: bool, early: Count)
    requires Restorable(c) && Tallied(w, l, steps, c, floored, early) && step.i < |w.pools|
    requires Allowed(step, PhaseOf(steps, step.i), c)
    ensures var l', floors := Record(l, w, step, c.uid), floored || Floors(w, step, c.uid);
            Tallied(Next(w, step), l', steps + [step], c, floors, if floors then early else Total(l'.flushed))
  {
    var i := step.i;
    assert Tracked(w.pools[i], w.file, l.pending[i], PhaseOf(steps, i), c);
    PhaseAfter(steps, step, i);
    Unfloored(w, l, c, floored, early);
    match step
    case Act(_, op) =>
      LocalTracked(w.pools[i], op, i, w.file, l.pending[i], PhaseOf(steps, i), c);
      hide Tracked, Local, Effect, PhaseOf, Tallied, Restorable;
      var pending := if op.Import? then ZERO else Plus(l.pending[i], Effect(w.pools[i], op, c.uid));
      MoveTallied(w, l, steps, step, Local(w.pools[i], op, w.file), pending, c, floored, early);
    case Start(_, now) =>
      StartTracked(w.file, now, c);
      hide Tracked, Loaded, PhaseOf, Tallied, Restorable;
      MoveTallied(w, l, steps, step, Loaded(w.file, now), ZERO, c, floored, early);
    case Save(_) =>
      hide Tracked, PhaseOf, Restorable;
      if SaveResult(w.pools[i], w.file).Some? {
        SaveTallied(w, l, steps, i, c, floored, early);
      } else {
        MoveTallied(w, l, steps, step, w.pools[i], l.pending[i], c, floored, early);
      }
  }

  lemma Unfloored(w: World, l: Ledger, c: Case, floored: bool, early: Count)
    requires Restorable(c) && Sums(w.file, c, floored, early, Total(l.flushed))
    ensures !floored ==> early == Total(l.flushed)
  {
  }

  lemma InitTallied(c: Case, n: nat)
    requires Restorable(c)
    ensures Tallied(Init(c.file, n), LedgerOf(Init(c.file, n), [], c.uid), [], c, false, ZERO)
  {
    StoppedTracked(c);
    TotalZero(n);
    var w, l := Init(c.file, n), LedgerOf(Init(c.file, n), [], c.uid);
    assert AllTracked(w, l, [], c) by {
      hide Tracked;
    }
    hide AllTracked, Total;
  }

  lemma StoppedTracked(c: Case)
    requires Restorable(c)
    ensures Tracked(STOPPED, c.file, ZERO, Stopped, c)
  {
  }

  lemma {:induction false} RunTallied(c: Case, n: nat, steps: seq<Step>)
    requires Restorable(c) && Orderly(steps, c)
    ensures var w := Init(c.file, n);
            Tallied(Run(w, steps), LedgerOf(w, steps, c.uid), steps, c, Floored(w, steps, c.uid), Early(w, steps, c.uid))
  {
    hide Tallied, Next, Record, Allowed, Restorable, Floors, Total, PhaseOf;
    var start := Init(c.file, n);
    if steps == [] {
      InitTallied(c, n);
      TotalZero(n);
    } else {
      var m := |steps| - 1;
      var before := steps[..m];
      assert Orderly(before, c) by {
        forall k | 0 <= k < m
          ensures Allowed(before[k], PhaseOf(before[..k], before[k].i), c)
        {
          assert before[..k] == steps[..k];
        }
      }
      RunTallied(c, n, before);
      var w, l := Run(start, before), LedgerOf(start, before, c.uid);
      assert steps == before + [steps[m]];
      assert Allowed(steps[m], PhaseOf(before, steps[m].i), c);
      if steps[m].i < |w.pools| {
        TalliedStep(w, l, before, steps[m], c, Floored(start, before, c.uid), Early(start, before, c.uid));
      } else {
        OutOfRange(w, l, steps[m], c.uid);
        NoProcess(w, l, before, steps[m], c, Floored(start, before, c.uid), Early(start, before, c.uid));
        NoFloor(w, steps[m], c.uid);
      }
    }
  }

  lemma NoFloor(w: World, step: Step, uid: string)
    requires step.i >= |w.pools|
    ensures !Floors(w, step, uid)
  {
  }

  /**
   Snapshots, over every interleaving: however many processes restore one snapshot, and whatever they and
   others count and save before and after, its counters enter the file once, as a floor under what the
   file held when the first of them saved; every increment saved is added once.
   */
  lemma SnapshotCounted(c: Case, n: nat, steps: seq<Step>)
    requires Restorable(c) && Orderly(steps, c)
    ensures var start := Init(c.file, n);
            var w, flushed, early := Run(start, steps), Total(LedgerOf(start, steps, c.uid).flushed), Early(start, steps, c.uid);
            && Sums(w.file, c, Floored(start, steps, c.uid), early, flushed)
            && EpochOf(c.file, c.uid) <= EpochOf(w.file, c.uid) <= Top(c)
  {
    RunTallied(c, n, steps);
    hide Run, LedgerOf, Floored, Early, Sums, Total;
  }

  // ---- Every process restores before it counts ----

  predicate Counts(step: Step, uid: string) {
    step.Act? && (step.op.NoteSuccess? || step.op.NoteError?) && step.op.uid == uid
  }

  predicate RestoreFirst(steps: seq<Step>, uid: string) {
    forall k :: 0 <= k < |steps| ==> Counts(steps[k], uid) ==> PhaseOf(steps[..k], steps[k].i) == Recovered
  }

  /** While no save has carried the snapshot's floor, every increment waits at an instance that will. */
  ghost predicate Covered(inst: Instance, pending: Count, phase: Phase, uid: string) {
    if phase == Recovered then IntentOf(inst.intents, uid).importedCounters else pending.success == 0 && pending.errors == 0
  }

  ghost predicate AllCovered(w: World, l: Ledger, steps: seq<Step>, uid: string) {
    && |l.pending| == |l.flushed| == |w.pools|
    && Total(l.flushed).success == 0 && Total(l.flushed).errors == 0
    && forall i :: 0 <= i < |w.pools| ==> Covered(w.pools[i], l.pending[i], PhaseOf(steps, i), uid)
  }

  lemma LocalCovered(inst: Instance, op: Op, i: nat, file: StateFile, pending: Count, phase: Phase, c: Case)
    requires Restorable(c) && Covered(inst, pending, phase, c.uid) && Allowed(Act(i, op), phase, c)
    requires Counts(Act(i, op), c.uid) ==> phase == Recovered
    ensures var after := Local(inst, op, file);
            if op.Import? then Covered(after, ZERO, Recovered, c.uid)
            else Covered(after, Plus(pending, Effect(inst, op, c.uid)), phase, c.uid)
  {
    var after, effect := Local(inst, op, file), Effect(inst, op, c.uid);
    if op.Import? {
      ImportedAt(inst, c.snapshot, op.now, c.uid);
      hide Imported;
    } else if !Concerns(op, c.uid) {
      NoEffect(inst, op, pending, c.uid);
      LocalFrame(inst, op, file, c.uid);
      hide Local, Effect;
    } else if op.Add? {
      NoEffect(inst, op, pending, c.uid);
    } else {
      hide Local;
      if op.NoteSuccess? {
        SuccessAdvances(inst, op, file);
      } else if op.NoteError? {
        ErrorAdvances(inst, op, file);
      } else if op.NoteModelCost? {
        CostAdvances(inst, op, file);
      } else {
        AssignAdvances(inst, op, file);
      }
    }
  }

  lemma CoveredStep(w: World, l: Ledger, steps: seq<Step>, step: Step, c: Case)
    requires Restorable(c) && AllCovered(w, l, steps, c.uid) && AllTracked(w, l, steps, c)
    requires step.i < |w.pools| ==> Allowed(step, PhaseOf(steps, step.i), c)
    requires Counts(step, c.uid) ==> PhaseOf(steps, step.i) == Recovered
    requires !Floors(w, step, c.uid)
    ensures AllCovered(Next(w, step), Record(l, w, step, c.uid), steps + [step], c.uid)
  {
    var w', l', i := Next(w, step), Record(l, w, step, c.uid), step.i;
    if i < |w.pools| {
      assert Covered(w.pools[i], l.pending[i], PhaseOf(steps, i), c.uid);
      assert Tracked(w.pools[i], w.file, l.pending[i], PhaseOf(steps, i), c);
      if step.Act? {
        LocalCovered(w.pools[i], step.op, i, w.file, l.pending[i], PhaseOf(steps, i), c);
      }
      TotalUpdate(l.flushed, i, l.pending[i]);
    }
    hide Local, Effect, SaveResult, PhaseOf, Total, Allowed, Restorable;
    forall k | 0 <= k < |w.pools|
      ensures Covered(w'.pools[k], l'.pending[k], PhaseOf(steps + [step], k), c.uid)
    {
      PhaseAfter(steps, step, k);
      assert Covered(w.pools[k], l.pending[k], PhaseOf(steps, k), c.uid);
    }
  }

  lemma {:induction false} RunCovered(c: Case, n: nat, steps: seq<Step>)
    requires Restorable(c) && Orderly(steps, c) && RestoreFirst(steps, c.uid)
    ensures var w := Init(c.file, n);
            && (!Floored(w, steps, c.uid) ==> AllCovered(Run(w, steps), LedgerOf(w, steps, c.uid), steps, c.uid))
            && Early(w, steps, c.uid).success == 0 && Early(w, steps, c.uid).errors == 0
  {
    hide Tallied, Tracked, Covered, Next, Record, Allowed, Restorable, Floors, Total, PhaseOf, Counts;
    var start := Init(c.file, n);
    if steps == [] {
      InitCovered(c, n);
      InitEarly(c, n);
    } else {
      var m := |steps| - 1;
      var before := steps[..m];
      PrefixOrderly(steps, c, m);
      RunCovered(c, n, before);
      if !Floored(start, before, c.uid) {
        RunTallied(c, n, before);
        var w, l := Run(start, before), LedgerOf(start, before, c.uid);
        TalliedAll(w, l, before, c, Early(start, before, c.uid));
        assert Allowed(steps[m], PhaseOf(before, steps[m].i), c);
        if !Floors(w, steps[m], c.uid) {
          CoveredStep(w, l, before, steps[m], c);
          assert steps == before + [steps[m]];
        }
      }
    }
  }

  lemma TalliedAll(w: World, l: Ledger, steps: seq<Step>, c: Case, early: Count)
    requires Restorable(c) && Tallied(w, l, steps, c, false, early)
    ensures AllTracked(w, l, steps, c)
  {
  }

  lemma PrefixOrderly(steps: seq<Step>, c: Case, m: nat)
    requires Orderly(steps, c) && m <= |steps|
    ensures Orderly(steps[..m], c)
    ensures RestoreFirst(steps, c.uid) ==> RestoreFirst(steps[..m], c.uid)
  {
    hide PhaseOf, Allowed, Counts;
    assert forall k :: 0 <= k < m ==> steps[..m][..k] == steps[..k] && steps[..m][k] == steps[k];
  }

  lemma InitCovered(c: Case, n: nat)
    ensures AllCovered(Init(c.file, n), LedgerOf(Init(c.file, n), [], c.uid), [], c.uid)
  {
    TotalZero(n);
    hide Total;
  }

  lemma InitEarly(c: Case, n: nat)
    ensures Early(Init(c.file, n), [], c.uid) == ZERO
  {
    TotalZero(n);
    assert !Floored(Init(c.file, n), [], c.uid);
    assert LedgerOf(Init(c.file, n), [], c.uid).flushed == seq(n, _ => ZERO);
    hide Total;
  }

  /**
   A snapshot counts once: if every process restores it before its own increments, then in whatever order
   and however often they save, the file ends at the larger of its first value and the snapshot's, plus
   all increments saved. An account missing from the file starts at zero and is created by the first save.
   */
  lemma SnapshotImportedOnce(c: Case, n: nat, steps: seq<Step>)
    requires Restorable(c) && Orderly(steps, c) && RestoreFirst(steps, c.uid)
    ensures var start := Init(c.file, n);
            var w, flushed, s := Run(start, steps), Total(LedgerOf(start, steps, c.uid).flushed), c.snapshot.accounts[c.uid];
            if Floored(start, steps, c.uid) then
              && c.uid in w.file.accounts
              && SuccessIn(w.file, c.uid) == Max(SuccessIn(c.file, c.uid), s.successCount) + flushed.success
              && ErrorsIn(w.file, c.uid) == Max(ErrorsIn(c.file, c.uid), Errors(s)) + flushed.errors
            else
              && (c.uid in w.file.accounts <==> c.uid in c.file.accounts)
              && SuccessIn(w.file, c.uid) == SuccessIn(c.file, c.uid) && ErrorsIn(w.file, c.uid) == ErrorsIn(c.file, c.uid)
              && flushed.success == 0 && flushed.errors == 0
  {
    RunTallied(c, n, steps);
    RunCovered(c, n, steps);
    hide Run, LedgerOf, Floored, Early, Total, Restorable, Orderly, RestoreFirst, FileFits, AllTracked;
  }

  // ---- Why the order matters for an account the file lacks ----

  /** A process that restores at its start brings a missing account back exactly if no later deletion is on file. */
  lemma RestoredExactly(file: StateFile, s: StateFile, started: int, now: int, uid: string)
    requires uid !in file.accounts && uid in s.accounts
    requires SaveResult(Imported(Loaded(file, started), s, now), file).Some?
    ensures uid in SaveResult(Imported(Loaded(file, started), s, now), file).value.accounts <==> EpochOf(file, uid) <= EpochOf(s, uid)
  {
    var inst := Imported(Loaded(file, started), s, now);
    ImportedAt(Loaded(file, started), s, now, uid);
    hide Imported, SaveResult, Loaded;
    SaveByUid(inst, file, uid);
  }

  /** A process that synchronised the account, or restored it before, cannot bring it back by restoring now. */
  lemma RestoredTooLate(inst: Instance, file: StateFile, s: StateFile, now: int, uid: string)
    requires uid !in file.accounts && uid in s.accounts && uid in inst.base.accounts
    requires SaveResult(Imported(inst, s, now), file).Some?
    ensures uid !in SaveResult(Imported(inst, s, now), file).value.accounts
  {
    hide Imported, SaveResult, Restored, ImportedBase, EpochOf, IntentOf, MergeAccount;
    var after := Imported(inst, s, now);
    assert !IntentOf(after.intents, uid).created && !IntentOf(after.intents, uid).deleted && uid in after.base.accounts by {
      ImportedAt(inst, s, now, uid);
    }
    SaveByUid(after, file, uid);
    assert AfterDeletion(file, EpochOf(after.base, uid), IntentOf(after.intents, uid), uid).None?;
  }
}
