/**
 The asynchronous Redis mirror (internal/redisstore/redisstore.go) as a state machine.

 Every submitted write is a goroutine that walks through the phases of Phase, one atomic
 step at a time, interleaved with the steps of every other goroutine. Submission, the
 completion signal and Close run under the write mutex and are atomic in the program;
 class Upstash gives those three in the program's own imperative form.
 */
module OrderedMirror {
  import opened Wrappers

  /** What a write does to its key. */
  datatype Op = Put(value: string) | Delete

  /** Where a write goroutine stands. A slot of the semaphore is held from Running to Signalled. */
  datatype Phase = Waiting | Queued | Running | Ran | Signalled | Released | Finished

  function Rank(phase: Phase): nat {
    match phase
    case Waiting => 0
    case Queued => 1
    case Running => 2
    case Ran => 3
    case Signalled => 4
    case Released => 5
    case Finished => 6
  }

  /** One submitted write; previous is the write whose completion channel it waits for. */
  datatype Job = Job(key: string, op: Op, previous: Option<nat>, phase: Phase, ok: bool)

  datatype State = State(
    jobs: seq<Job>,
    tails: map<string, nat>,
    closed: bool,
    held: int,
    pending: int,
    capacity: nat,
    log: seq<nat>,
    store: map<string, string>)

  datatype Step =
    | Submit(key: string, op: Op)
    | Proceed(i: nat)
    | Acquire(i: nat)
    | Execute(i: nat, ok: bool)
    | Signal(i: nat)
    | Release(i: nat)
    | Finish(i: nat)
    | Close

  function Init(capacity: nat): State {
    State([], map[], false, 0, 0, capacity, [], map[])
  }

  function Move(s: State, i: nat, phase: Phase): State
    requires i < |s.jobs|
  {
    s.(jobs := s.jobs[i := s.jobs[i].(phase := phase)])
  }

  predicate At(s: State, i: nat, phase: Phase) {
    i < |s.jobs| && s.jobs[i].phase == phase
  }

  predicate Enabled(s: State, step: Step) {
    match step
    case Submit(_, _) => true
    case Proceed(i) =>
      At(s, i, Waiting)
      && (s.jobs[i].previous.Some? ==>
            s.jobs[i].previous.value < |s.jobs|
            && Rank(s.jobs[s.jobs[i].previous.value].phase) >= Rank(Signalled))
    case Acquire(i) => At(s, i, Queued) && s.held < s.capacity
    case Execute(i, _) => At(s, i, Running)
    case Signal(i) => At(s, i, Ran)
    case Release(i) => At(s, i, Signalled)
    case Finish(i) => At(s, i, Released)
    case Close => true
  }

  function SubmitTo(s: State, key: string, op: Op): State {
    if s.closed then s
    else
      var n := |s.jobs|;
      var previous := if key != "" && key in s.tails then Some(s.tails[key]) else None;
      s.(jobs := s.jobs + [Job(key, op, previous, Waiting, false)],
         tails := if key == "" then s.tails else s.tails[key := n],
         pending := s.pending + 1)
  }

  function Effect(store: map<string, string>, key: string, op: Op): map<string, string> {
    match op
    case Put(value) => store[key := value]
    case Delete => store - {key}
  }

  function SignalFrom(s: State, i: nat): State
    requires i < |s.jobs|
  {
    var key := s.jobs[i].key;
    Move(s, i, Signalled).(
      tails := if key in s.tails && s.tails[key] == i then s.tails - {key} else s.tails)
  }

  function Apply(s: State, step: Step): State
    requires Enabled(s, step)
  {
    match step
    case Submit(key, op) => SubmitTo(s, key, op)
    case Proceed(i) => Move(s, i, Queued)
    case Acquire(i) => Move(s, i, Running).(held := s.held + 1)
    case Execute(i, ok) =>
      s.(jobs := s.jobs[i := s.jobs[i].(phase := Ran, ok := ok)],
         log := s.log + [i],
         store := if ok then Effect(s.store, s.jobs[i].key, s.jobs[i].op) else s.store)
    case Signal(i) => SignalFrom(s, i)
    case Release(i) => Move(s, i, Released).(held := s.held - 1)
    case Finish(i) => Move(s, i, Finished).(pending := s.pending - 1)
    case Close => s.(closed := true)
  }

  predicate ValidRun(s: State, steps: seq<Step>)
    decreases |steps|
  {
    steps == [] || (Enabled(s, steps[0]) && ValidRun(Apply(s, steps[0]), steps[1..]))
  }

  function Run(s: State, steps: seq<Step>): State
    requires ValidRun(s, steps)
    decreases |steps|
  {
    if steps == [] then s else Run(Apply(s, steps[0]), steps[1..])
  }

  // ---- Counting the jobs in a band of phases ----

  function InBand(job: Job, lo: nat, hi: nat): nat {
    if lo <= Rank(job.phase) <= hi then 1 else 0
  }

  function CountBand(jobs: seq<Job>, lo: nat, hi: nat): nat {
    if jobs == [] then 0 else InBand(jobs[0], lo, hi) + CountBand(jobs[1..], lo, hi)
  }

  lemma {:induction false} CountUpdate(jobs: seq<Job>, i: nat, job: Job, lo: nat, hi: nat)
    requires i < |jobs|
    ensures CountBand(jobs[i := job], lo, hi)
         == CountBand(jobs, lo, hi) - InBand(jobs[i], lo, hi) + InBand(job, lo, hi)
  {
    if i == 0 {
      assert jobs[0 := job][1..] == jobs[1..];
    } else {
      assert jobs[i := job][1..] == jobs[1..][i - 1 := job];
      CountUpdate(jobs[1..], i - 1, job, lo, hi);
    }
  }

  lemma {:induction false} CountAppend(jobs: seq<Job>, job: Job, lo: nat, hi: nat)
    ensures CountBand(jobs + [job], lo, hi) == CountBand(jobs, lo, hi) + InBand(job, lo, hi)
  {
    if jobs == [] {
      assert jobs + [job] == [job];
    } else {
      assert (jobs + [job])[1..] == jobs[1..] + [job];
      CountAppend(jobs[1..], job, lo, hi);
    }
  }

  lemma {:induction false} CountZero(jobs: seq<Job>, lo: nat, hi: nat)
    ensures CountBand(jobs, lo, hi) == 0 <==> forall i :: 0 <= i < |jobs| ==> InBand(jobs[i], lo, hi) == 0
  {
    if jobs != [] {
      CountZero(jobs[1..], lo, hi);
      assert forall i :: 1 <= i < |jobs| ==> jobs[i] == jobs[1..][i - 1];
    }
  }

  // ---- The invariant ----

  ghost predicate Bounded(s: State) {
    && s.held == CountBand(s.jobs, 2, 4)
    && s.held <= s.capacity
    && s.pending == CountBand(s.jobs, 0, 5)
  }

  ghost predicate SameKey(s: State, j: int, i: int) {
    0 <= j < i < |s.jobs| && s.jobs[j].key == s.jobs[i].key != ""
  }

  /** Write i waits for the write of its key submitted just before it, unless all earlier ones have signalled. */
  ghost predicate Linked(s: State, i: int)
    requires 0 <= i < |s.jobs|
  {
    match s.jobs[i].previous
    case Some(p) => SameKey(s, p, i) && forall j :: SameKey(s, j, i) ==> j <= p
    case None => forall j :: SameKey(s, j, i) ==> SignalledAt(s, j)
  }

  ghost predicate SignalledAt(s: State, j: int) {
    0 <= j < |s.jobs| && Rank(s.jobs[j].phase) >= 4
  }

  /** The tail of a key is its last submitted write, and is on record exactly until it signals. */
  ghost predicate Tail(s: State, k: string)
    requires k in s.tails
  {
    var t := s.tails[k];
    && t < |s.jobs| && s.jobs[t].key == k && k != "" && !SignalledAt(s, t)
    && forall i :: t < i < |s.jobs| ==> s.jobs[i].key != k
  }

  ghost predicate Chained(s: State) {
    && (forall i :: 0 <= i < |s.jobs| ==> Linked(s, i))
    && (forall j, i :: SameKey(s, j, i) && Rank(s.jobs[i].phase) >= 1 ==> SignalledAt(s, j))
    && (forall k :: k in s.tails ==> Tail(s, k))
    && (forall i :: 0 <= i < |s.jobs| && s.jobs[i].key != "" && s.jobs[i].key !in s.tails ==> SignalledAt(s, i))
  }

  predicate Executed(job: Job) {
    Rank(job.phase) >= 3
  }

  /** The log lists exactly the executed writes, once each, in submission order per key. */
  ghost predicate Logged(s: State) {
    && (forall i: nat :: i in s.log <==> i < |s.jobs| && Executed(s.jobs[i]))
    && (forall a, b :: 0 <= a < b < |s.log| ==>
          s.log[a] != s.log[b] && !SameKey(s, s.log[b], s.log[a]))
  }

  function Outcome(key: string, op: Op): Option<string> {
    match op case Put(value) => Some(value) case Delete => None
  }

  function Lookup(store: map<string, string>, key: string): Option<string> {
    if key in store then Some(store[key]) else None
  }

  /** Index i is the latest executed write of its key. */
  ghost predicate Latest(s: State, i: int) {
    && 0 <= i < |s.jobs| && s.jobs[i].key != "" && Executed(s.jobs[i])
    && forall j :: SameKey(s, i, j) ==> !Executed(s.jobs[j])
  }

  ghost predicate Mirrored(s: State) {
    forall i :: Latest(s, i) && s.jobs[i].ok ==>
      Lookup(s.store, s.jobs[i].key) == Outcome(s.jobs[i].key, s.jobs[i].op)
  }

  ghost predicate Inv(s: State) {
    Bounded(s) && Chained(s) && Logged(s) && Mirrored(s)
  }

  lemma BoundedStep(s: State, step: Step)
    requires Bounded(s) && Enabled(s, step)
    ensures Bounded(Apply(s, step))
  {
    hide CountBand;
    match step
    case Submit(key, op) =>
      if !s.closed {
        var job := Apply(s, step).jobs[|s.jobs|];
        CountAppend(s.jobs, job, 2, 4);
        CountAppend(s.jobs, job, 0, 5);
      }
    case Close =>
    case _ =>
      var i := step.i;
      var job := Apply(s, step).jobs[i];
      CountUpdate(s.jobs, i, job, 2, 4);
      CountUpdate(s.jobs, i, job, 0, 5);
  }

  lemma ChainedSubmit(s: State, key: string, op: Op)
    requires Chained(s) && !s.closed
    ensures Chained(SubmitTo(s, key, op))
  {
    var t := SubmitTo(s, key, op);
    assert forall i :: 0 <= i < |s.jobs| ==> t.jobs[i] == s.jobs[i];
    assert forall j, i :: i < |s.jobs| ==> (SameKey(t, j, i) <==> SameKey(s, j, i));
    forall j | SameKey(t, j, |s.jobs|)
      ensures key in s.tails ==> j <= s.tails[key]
      ensures key !in s.tails ==> SignalledAt(s, j)
    {
      if key in s.tails {
        assert Tail(s, key);
      }
    }
    forall i | 0 <= i < |s.jobs|
      ensures Linked(t, i)
    {
      assert Linked(s, i);
    }
  }

  /** Moving write i one phase on keeps the chains, unless it leaves Waiting too early or signals. */
  lemma ChainedMove(s: State, t: State, i: nat, job: Job)
    requires Chained(s) && i < |s.jobs|
    requires t.jobs == s.jobs[i := job]
    requires job.key == s.jobs[i].key && job.previous == s.jobs[i].previous
    requires Rank(job.phase) == Rank(s.jobs[i].phase) + 1
    requires job.phase == Queued ==> forall j :: SameKey(s, j, i) ==> SignalledAt(s, j)
    requires t.tails == if job.phase == Signalled && job.key in s.tails && s.tails[job.key] == i
                        then s.tails - {job.key} else s.tails
    ensures Chained(t)
  {
    LinksMove(s, t, i, job);
    TailsMove(s, t, i, job);
    hide Linked, SameKey, SignalledAt, Tail;
  }

  lemma LinksMove(s: State, t: State, i: nat, job: Job)
    requires Chained(s) && i < |s.jobs|
    requires t.jobs == s.jobs[i := job]
    requires job.key == s.jobs[i].key && job.previous == s.jobs[i].previous
    requires Rank(job.phase) == Rank(s.jobs[i].phase) + 1
    requires job.phase == Queued ==> forall j :: SameKey(s, j, i) ==> SignalledAt(s, j)
    ensures forall m :: 0 <= m < |t.jobs| ==> Linked(t, m)
    ensures forall j, m :: SameKey(t, j, m) && Rank(t.jobs[m].phase) >= 1 ==> SignalledAt(t, j)
  {
    assert forall j, m :: SameKey(t, j, m) <==> SameKey(s, j, m);
    assert forall m :: SignalledAt(s, m) ==> SignalledAt(t, m);
    hide SameKey, SignalledAt, Tail;
    forall m | 0 <= m < |s.jobs|
      ensures Linked(t, m)
    {
      assert Linked(s, m);
    }
  }

  lemma TailsMove(s: State, t: State, i: nat, job: Job)
    requires Chained(s) && i < |s.jobs|
    requires t.jobs == s.jobs[i := job]
    requires job.key == s.jobs[i].key && job.previous == s.jobs[i].previous
    requires Rank(job.phase) == Rank(s.jobs[i].phase) + 1
    requires t.tails == if job.phase == Signalled && job.key in s.tails && s.tails[job.key] == i
                        then s.tails - {job.key} else s.tails
    ensures forall k :: k in t.tails ==> Tail(t, k)
    ensures forall m :: 0 <= m < |t.jobs| && t.jobs[m].key != "" && t.jobs[m].key !in t.tails ==> SignalledAt(t, m)
  {
    hide Linked;
    assert forall m :: SignalledAt(s, m) ==> SignalledAt(t, m);
    if job.phase == Signalled && job.key != "" {
      if job.key in s.tails && s.tails[job.key] == i {
        forall m | 0 <= m < |s.jobs| && s.jobs[m].key == job.key
          ensures SignalledAt(t, m)
        {
          assert m == i || SameKey(s, m, i);
        }
      } else if job.key in s.tails {
        assert i < s.tails[job.key];
      }
    }
  }

  lemma ProceedReady(s: State, i: nat)
    requires Chained(s) && Enabled(s, Proceed(i))
    ensures forall j :: SameKey(s, j, i) ==> SignalledAt(s, j)
  {
    assert Linked(s, i);
    if s.jobs[i].previous.Some? {
      var p := s.jobs[i].previous.value;
      forall j | SameKey(s, j, i)
        ensures SignalledAt(s, j)
      {
        assert j == p || SameKey(s, j, p);
      }
    }
  }

  lemma ChainedStep(s: State, step: Step)
    requires Chained(s) && Enabled(s, step)
    ensures Chained(Apply(s, step))
  {
    match step
    case Submit(key, op) =>
      if !s.closed {
        ChainedSubmit(s, key, op);
      }
    case Close =>
      var t := Apply(s, step);
      assert forall j, i :: SameKey(t, j, i) <==> SameKey(s, j, i);
      assert forall m :: SignalledAt(s, m) <==> SignalledAt(t, m);
      forall m | 0 <= m < |s.jobs|
        ensures Linked(t, m)
      {
        assert Linked(s, m);
      }
    case _ =>
      var i := step.i;
      if step.Proceed? {
        ProceedReady(s, i);
      }
      ChainedMove(s, Apply(s, step), i, Apply(s, step).jobs[i]);
  }

  /** Every step but Execute leaves the executed writes and what they wrote alone. */
  ghost predicate SameHistory(s: State, t: State) {
    && t.log == s.log && t.store == s.store && |s.jobs| <= |t.jobs|
    && (forall i :: 0 <= i < |s.jobs| ==>
          && t.jobs[i].key == s.jobs[i].key && t.jobs[i].op == s.jobs[i].op && t.jobs[i].ok == s.jobs[i].ok
          && Executed(t.jobs[i]) == Executed(s.jobs[i]))
    && (forall i :: |s.jobs| <= i < |t.jobs| ==> !Executed(t.jobs[i]))
  }

  lemma QuietStep(s: State, step: Step)
    requires Enabled(s, step) && !step.Execute?
    ensures SameHistory(s, Apply(s, step))
  {
  }

  lemma LoggedQuiet(s: State, t: State)
    requires Logged(s) && SameHistory(s, t)
    ensures Logged(t)
  {
    assert forall a :: 0 <= a < |s.log| ==> s.log[a] in s.log;
    assert forall j, i :: i < |s.jobs| ==> (SameKey(t, j, i) <==> SameKey(s, j, i));
  }

  lemma LoggedExecute(s: State, i: nat, ok: bool)
    requires Chained(s) && Logged(s) && Enabled(s, Execute(i, ok))
    ensures Logged(Apply(s, Execute(i, ok)))
  {
    var t := Apply(s, Execute(i, ok));
    assert i !in s.log;
    assert forall m: nat :: m in t.log <==> m in s.log || m == i;
    assert forall j, m :: SameKey(t, j, m) <==> SameKey(s, j, m);
    forall a | 0 <= a < |s.log|
      ensures s.log[a] != i && !SameKey(s, i, s.log[a])
    {
      assert s.log[a] in s.log;
    }
  }

  /** A write executed after the latest one of some key belongs to another key. */
  lemma OtherKey(s: State, i: nat, ok: bool, latest: int)
    requires Chained(s) && Enabled(s, Execute(i, ok)) && latest != i
    requires Latest(Apply(s, Execute(i, ok)), latest)
    ensures Latest(s, latest) && s.jobs[latest].key != s.jobs[i].key
  {
    var t := Apply(s, Execute(i, ok));
    assert forall j :: SameKey(s, latest, j) ==> SameKey(t, latest, j);
    assert !SameKey(t, latest, i);
    assert !SameKey(s, i, latest);
  }

  lemma MirroredExecute(s: State, i: nat, ok: bool, latest: int)
    requires Chained(s) && Mirrored(s) && Enabled(s, Execute(i, ok))
    requires Latest(Apply(s, Execute(i, ok)), latest) && Apply(s, Execute(i, ok)).jobs[latest].ok
    ensures var t := Apply(s, Execute(i, ok));
            Lookup(t.store, t.jobs[latest].key) == Outcome(t.jobs[latest].key, t.jobs[latest].op)
  {
    hide Chained, SameKey;
    if latest != i {
      OtherKey(s, i, ok, latest);
    }
  }

  lemma MirroredQuiet(s: State, t: State)
    requires Mirrored(s) && SameHistory(s, t)
    ensures Mirrored(t)
  {
    forall i | Latest(t, i) && t.jobs[i].ok
      ensures Lookup(t.store, t.jobs[i].key) == Outcome(t.jobs[i].key, t.jobs[i].op)
    {
      assert forall j :: SameKey(s, i, j) ==> SameKey(t, i, j);
      assert Latest(s, i);
    }
  }

  lemma StepInv(s: State, step: Step)
    requires Inv(s) && Enabled(s, step)
    ensures Inv(Apply(s, step))
  {
    BoundedStep(s, step);
    ChainedStep(s, step);
    var t := Apply(s, step);
    if step.Execute? {
      LoggedExecute(s, step.i, step.ok);
      forall i | Latest(t, i) && t.jobs[i].ok
        ensures Lookup(t.store, t.jobs[i].key) == Outcome(t.jobs[i].key, t.jobs[i].op)
      {
        MirroredExecute(s, step.i, step.ok, i);
      }
    } else {
      QuietStep(s, step);
      LoggedQuiet(s, t);
      MirroredQuiet(s, t);
    }
  }

  lemma {:induction false} RunInv(s: State, steps: seq<Step>)
    requires Inv(s) && ValidRun(s, steps)
    ensures Inv(Run(s, steps))
    decreases |steps|
  {
    if steps != [] {
      StepInv(s, steps[0]);
      RunInv(Apply(s, steps[0]), steps[1..]);
    }
  }

  // ---- What the mirror promises, over every interleaving ----

  ghost predicate Reachable(s: State) {
    exists capacity: nat, steps :: Start(capacity, steps, s)
  }

  ghost predicate Start(capacity: nat, steps: seq<Step>, s: State) {
    capacity > 0 && ValidRun(Init(capacity), steps) && Run(Init(capacity), steps) == s
  }

  lemma {:induction false} CapacityFixed(s: State, steps: seq<Step>)
    requires ValidRun(s, steps)
    ensures Run(s, steps).capacity == s.capacity
    decreases |steps|
  {
    if steps != [] {
      CapacityFixed(Apply(s, steps[0]), steps[1..]);
    }
  }

  lemma ReachableInv(s: State)
    requires Reachable(s)
    ensures Inv(s) && s.capacity > 0
  {
    var capacity: nat, steps :| Start(capacity, steps, s);
    RunInv(Init(capacity), steps);
    CapacityFixed(Init(capacity), steps);
  }

  /** Writes of one key execute in submission order, never skip one and never overlap. */
  lemma PerKeyOrder(s: State, j: nat, i: nat)
    requires Reachable(s) && SameKey(s, j, i)
    ensures i in s.log ==> j in s.log
    ensures forall a, b :: 0 <= a < |s.log| && 0 <= b < |s.log| && s.log[a] == j && s.log[b] == i ==> a < b
    ensures Rank(s.jobs[i].phase) >= 1 ==> Rank(s.jobs[j].phase) >= 4
  {
    ReachableInv(s);
    forall a, b | 0 <= a < |s.log| && 0 <= b < |s.log| && s.log[a] == j && s.log[b] == i
      ensures a < b
    {
      assert s.log[a] != s.log[b];
      assert !(b < a);
    }
  }

  /** Each write executes at most once, and the running ones never exceed the semaphore. */
  lemma BoundedConcurrency(s: State)
    requires Reachable(s)
    ensures CountBand(s.jobs, 2, 4) <= s.capacity
    ensures forall a, b :: 0 <= a < b < |s.log| ==> s.log[a] != s.log[b]
  {
    ReachableInv(s);
  }

  predicate JobStep(step: Step) {
    !step.Submit? && !step.Close?
  }

  /** As long as a submitted write has not finished, some goroutine can move. */
  lemma NoDeadlock(s: State) returns (step: Step)
    requires Reachable(s) && exists i :: 0 <= i < |s.jobs| && s.jobs[i].phase != Finished
    ensures JobStep(step) && Enabled(s, step)
  {
    ReachableInv(s);
    var first :| 0 <= first < |s.jobs| && s.jobs[first].phase != Finished;
    step := Mover(s, first);
  }

  lemma Mover(s: State, pick: nat) returns (step: Step)
    requires Inv(s) && s.capacity > 0
    requires pick < |s.jobs| && s.jobs[pick].phase != Finished
    ensures JobStep(step) && Enabled(s, step)
  {
    if busy :| 0 <= busy < |s.jobs| && 2 <= Rank(s.jobs[busy].phase) <= 5 {
      match s.jobs[busy].phase
      case Running => step := Execute(busy, true);
      case Ran => step := Signal(busy);
      case Signalled => step := Release(busy);
      case Released => step := Finish(busy);
      case Waiting => assert false;
      case Queued => assert false;
      case Finished => assert false;
    } else {
      CountZero(s.jobs, 2, 4);
      var first := FirstUnfinished(s, pick);
      assert Rank(s.jobs[first].phase) <= 1;
      step := IdleMover(s, first);
    }
  }

  lemma IdleMover(s: State, first: nat) returns (step: Step)
    requires Chained(s) && s.held < s.capacity
    requires first < |s.jobs| && Rank(s.jobs[first].phase) <= 1
    requires forall j :: 0 <= j < first ==> s.jobs[j].phase == Finished
    ensures JobStep(step) && Enabled(s, step)
  {
    step := if s.jobs[first].phase == Queued then Acquire(first) else Proceed(first);
    assert Linked(s, first);
    if s.jobs[first].previous.Some? {
      assert SameKey(s, s.jobs[first].previous.value, first);
    }
  }

  lemma {:induction false} FirstUnfinished(s: State, pick: nat) returns (first: nat)
    requires pick < |s.jobs| && s.jobs[pick].phase != Finished
    ensures first <= pick && s.jobs[first].phase != Finished
    ensures forall j :: 0 <= j < first ==> s.jobs[j].phase == Finished
  {
    if j: nat :| j < pick && s.jobs[j].phase != Finished {
      first := FirstUnfinished(s, j);
    } else {
      first := pick;
    }
  }

  /** Steps the submitted writes still have to take. */
  function Remaining(jobs: seq<Job>): nat {
    if jobs == [] then 0 else 6 - Rank(jobs[0].phase) + Remaining(jobs[1..])
  }

  lemma {:induction false} RemainingUpdate(jobs: seq<Job>, i: nat, job: Job)
    requires i < |jobs|
    ensures Remaining(jobs[i := job]) == Remaining(jobs) + Rank(jobs[i].phase) - Rank(job.phase)
  {
    if i == 0 {
      assert jobs[0 := job][1..] == jobs[1..];
    } else {
      assert jobs[i := job][1..] == jobs[1..][i - 1 := job];
      RemainingUpdate(jobs[1..], i - 1, job);
    }
  }

  /** Every goroutine step uses up one unit of remaining work, so draining always terminates. */
  lemma StepsConsumeWork(s: State, step: Step)
    requires JobStep(step) && Enabled(s, step)
    ensures Remaining(Apply(s, step).jobs) == Remaining(s.jobs) - 1
  {
    RemainingUpdate(s.jobs, step.i, Apply(s, step).jobs[step.i]);
  }

  /** Whatever the goroutines do first, they can all be run to the end in Remaining(s.jobs) steps. */
  lemma {:induction false} Drains(s: State) returns (steps: seq<Step>)
    requires Inv(s) && s.capacity > 0
    ensures ValidRun(s, steps) && |steps| == Remaining(s.jobs)
    ensures forall step :: step in steps ==> JobStep(step)
    ensures Run(s, steps).pending == 0
    decreases Remaining(s.jobs)
  {
    if pick: nat :| pick < |s.jobs| && s.jobs[pick].phase != Finished {
      var step := Mover(s, pick);
      StepsConsumeWork(s, step);
      StepInv(s, step);
      var rest := Drains(Apply(s, step));
      steps := [step] + rest;
      assert steps[1..] == rest;
    } else {
      CountZero(s.jobs, 0, 5);
      NothingRemains(s.jobs);
      steps := [];
    }
  }

  lemma {:induction false} NothingRemains(jobs: seq<Job>)
    requires forall i :: 0 <= i < |jobs| ==> jobs[i].phase == Finished
    ensures Remaining(jobs) == 0
  {
    if jobs != [] {
      NothingRemains(jobs[1..]);
    }
  }

  /** When Close has seen the wait group at zero, every submitted write has executed exactly once. */
  lemma CloseDrained(s: State)
    requires Reachable(s) && s.pending == 0
    ensures forall i: nat :: i < |s.jobs| <==> i in s.log
    ensures s.held == 0
  {
    ReachableInv(s);
    CountZero(s.jobs, 0, 5);
    CountZero(s.jobs, 2, 4);
  }

  /** A write submitted after Close is dropped: nothing ever joins the submitted writes again. */
  lemma {:induction false} ClosedForever(s: State, steps: seq<Step>)
    requires s.closed && ValidRun(s, steps)
    ensures Run(s, steps).closed && |Run(s, steps).jobs| == |s.jobs|
    ensures forall i :: 0 <= i < |s.jobs| ==>
              Run(s, steps).jobs[i].key == s.jobs[i].key && Run(s, steps).jobs[i].op == s.jobs[i].op
    decreases |steps|
  {
    if steps != [] {
      ClosedForever(Apply(s, steps[0]), steps[1..]);
    }
  }

  /** After a drained Close each key holds the outcome of its last submitted write, if that write succeeded. */
  lemma FinalValue(s: State, last: nat)
    requires Reachable(s) && s.pending == 0
    requires last < |s.jobs| && s.jobs[last].key != "" && s.jobs[last].ok
    requires forall j :: last < j < |s.jobs| ==> s.jobs[j].key != s.jobs[last].key
    ensures Lookup(s.store, s.jobs[last].key) == Outcome(s.jobs[last].key, s.jobs[last].op)
  {
    ReachableInv(s);
    CountZero(s.jobs, 0, 5);
    assert InBand(s.jobs[last], 0, 5) == 0;
    assert Latest(s, last);
  }

  // ---- The mutex-guarded sections in imperative form ----

  class Upstash {
    var jobs: seq<Job>
    var tails: map<string, nat>
    var done: bool
    var slots: int
    var pending: int
    const capacity: nat
    ghost var log: seq<nat>
    ghost var store: map<string, string>

    ghost function View(): State
      reads this
    {
      State(jobs, tails, done, slots, pending, capacity, log, store)
    }

    constructor (capacity: nat)
      ensures View() == Init(capacity)
    {
      this.capacity := capacity;
      jobs, tails, done, slots, pending := [], map[], false, 0, 0;
      log, store := [], map[];
    }

    /** Registers a write behind the previous write of its key, unless the store is closed. */
    method GoWriteKey(key: string, op: Op) returns (accepted: bool)
      modifies this
      ensures View() == Apply(old(View()), Submit(key, op))
      ensures accepted == !old(done)
      ensures !accepted ==> jobs == old(jobs) && tails == old(tails) && pending == old(pending)
      ensures accepted ==>
                && |jobs| == |old(jobs)| + 1 && jobs[..|old(jobs)|] == old(jobs) && pending == old(pending) + 1
                && jobs[|old(jobs)|].key == key && jobs[|old(jobs)|].op == op && jobs[|old(jobs)|].phase == Waiting
                && jobs[|old(jobs)|].previous == (if key != "" && key in old(tails) then Some(old(tails)[key]) else None)
                && (key != "" ==> key in tails && tails[key] == |old(jobs)|)
    {
      if done {
        return false;
      }
      var previous: Option<nat> := None;
      if key != "" {
        if key in tails {
          previous := Some(tails[key]);
        }
        tails := tails[key := |jobs|];
      }
      pending := pending + 1;
      jobs := jobs + [Job(key, op, previous, Waiting, false)];
      return true;
    }

    /** Closes the completion channel of write i and forgets the tail if i still is the tail. */
    method SignalCompletion(i: nat)
      requires Enabled(View(), Signal(i))
      modifies this
      ensures View() == Apply(old(View()), Signal(i))
      ensures |jobs| == |old(jobs)| && jobs[i].phase == Signalled && forall j :: 0 <= j < |jobs| && j != i ==> jobs[j] == old(jobs)[j]
      ensures forall k :: k in tails <==> k in old(tails) && !(k == old(jobs)[i].key && old(tails)[k] == i)
      ensures forall k :: k in tails ==> tails[k] == old(tails)[k]
    {
      var key := jobs[i].key;
      if key in tails && tails[key] == i {
        tails := tails - {key};
      }
      jobs := jobs[i := jobs[i].(phase := Signalled)];
    }

    method MarkClosed()
      modifies this
      ensures View() == Apply(old(View()), Close)
      ensures done && jobs == old(jobs) && tails == old(tails) && pending == old(pending) && slots == old(slots)
    {
      done := true;
    }
  }
}
