/** How threads that add and remove handles get the pool's vectors to themselves: pending_writer, the wake-up event,
    pending_writer_lock and wait_lock, with a program counter for each thread.
 */
module PoolHandshake {
  datatype Option<T> = None | Some(value: T)

  /** Where a thread in add_handle() or remove_handle() is: it has locked pending_writer_lock, set pending_writer,
      signalled the event and is waiting for wait_lock, got it, reset the event, cleared pending_writer; and last it has
      let go of pending_writer_lock and has so many workers left to start. */
  datatype Writer = Idle | Locked | Flagged | Signalled | Exclusive | Reset | Cleared | Working(todo: nat)

  /** Where a worker is: about to look at pending_writer, in need of pending_writer_lock, holding it, asleep in the
      condition variable, about to take wait_lock, holding it shared in WaitForMultipleObjects(), in a callback, or
      gone. */
  datatype Worker = Top | Wanting | Checking | Asleep | Ready | Holding | Calling | Gone

  datatype Owner = Nobody | ByWriter(i: nat) | ByWorker(j: nat)

  /** `flag` is pending_writer and `event` says whether spin_workers is signalled; `lock` is pending_writer_lock, `excl`
      the writer that has wait_lock. The shared holders of wait_lock are the workers at Holding. The constructor does
      not set pending_writer: `settled` says that a writer has. */
  datatype State = State(
    flag: bool, event: bool, lock: Owner, excl: Option<nat>, settled: bool, writers: seq<Writer>, workers: seq<Worker>)

  datatype Step =
    | Begin(i: nat)
    | SetFlag(i: nat)
    | SetEvent(i: nat)
    | Acquire(i: nat)
    | ResetEvent(i: nat)
    | ClearFlag(i: nat)
    | Unlock(i: nat, todo: nat)
    | Start(i: nat)
    | Done(i: nat)
    | Look(j: nat)
    | Lock(j: nat)
    | Check(j: nat)
    | Take(j: nat)
    | Woken(j: nat)
    | Fired(j: nat)
    | Leave(j: nat)
    | Return(j: nat)

  predicate At(s: State, i: nat, w: Writer) {
    i < |s.writers| && s.writers[i] == w
  }

  predicate In(s: State, j: nat, k: Worker) {
    j < |s.workers| && s.workers[j] == k
  }

  predicate Enabled(s: State, a: Step) {
    match a
    case Begin(i) => At(s, i, Idle) && s.lock == Nobody
    case SetFlag(i) => At(s, i, Locked)
    case SetEvent(i) => At(s, i, Flagged)
    case Acquire(i) =>
      At(s, i, Signalled) && s.excl == None && forall j :: 0 <= j < |s.workers| ==> s.workers[j] != Holding
    case ResetEvent(i) => At(s, i, Exclusive)
    case ClearFlag(i) => At(s, i, Reset)
    case Unlock(i, _) => At(s, i, Cleared)
    case Start(i) => i < |s.writers| && s.writers[i].Working? && s.writers[i].todo > 0
    case Done(i) => At(s, i, Working(0))
    case Look(j) => In(s, j, Top)
    case Lock(j) => In(s, j, Wanting) && s.lock == Nobody
    case Check(j) => In(s, j, Checking)
    case Take(j) => In(s, j, Ready) && s.excl == None
    case Woken(j) => In(s, j, Holding) && s.event
    case Fired(j) => In(s, j, Holding)
    case Leave(j) => In(s, j, Holding)
    case Return(j) => In(s, j, Calling)
  }

  function Write(s: State, i: nat, w: Writer): State
    requires i < |s.writers|
  {
    s.(writers := s.writers[i := w])
  }

  function Work(s: State, j: nat, k: Worker): State
    requires j < |s.workers|
  {
    s.(workers := s.workers[j := k])
  }

  function Next(s: State, a: Step): State
    requires Enabled(s, a)
  {
    match a
    case Begin(i) => Write(s, i, Locked).(lock := ByWriter(i))
    case SetFlag(i) => Write(s, i, Flagged).(flag := true)
    case SetEvent(i) => Write(s, i, Signalled).(event := true)
    case Acquire(i) => Write(s, i, Exclusive).(excl := Some(i))
    case ResetEvent(i) => Write(s, i, Reset).(event := false)
    case ClearFlag(i) => Write(s, i, Cleared).(flag := false, settled := true)
    case Unlock(i, todo) => Write(s, i, Working(todo)).(lock := Nobody)
    case Start(i) => Write(s, i, Working(s.writers[i].todo - 1)).(workers := s.workers + [Top])
    case Done(i) => Write(s, i, Idle).(excl := None)
    case Look(j) => Work(s, j, if s.flag then Wanting else Ready)
    case Lock(j) => Work(s, j, Checking).(lock := ByWorker(j))
    case Check(j) => Work(s, j, if s.flag then Asleep else Ready).(lock := Nobody)
    case Take(j) => Work(s, j, Holding)
    case Woken(j) => Work(s, j, Top)
    case Fired(j) => Work(s, j, Calling)
    case Leave(j) => Work(s, j, Gone)
    case Return(j) => Work(s, j, Top)
  }

  // ---------------------------------------------------------------- the invariant

  predicate HasLock(w: Writer) {
    !w.Idle? && !w.Working?
  }

  predicate HasExcl(w: Writer) {
    w.Exclusive? || w.Reset? || w.Cleared? || w.Working?
  }

  /** The writer at these places is announced. */
  predicate Announced(w: Writer) {
    w.Flagged? || w.Signalled? || w.Exclusive? || w.Reset?
  }

  ghost predicate Locks(s: State) {
    && (forall i :: 0 <= i < |s.writers| ==> (HasLock(s.writers[i]) <==> s.lock == ByWriter(i)))
    && (s.lock.ByWriter? ==> s.lock.i < |s.writers|)
    && (forall j :: 0 <= j < |s.workers| ==> (s.workers[j] == Checking <==> s.lock == ByWorker(j)))
    && (s.lock.ByWorker? ==> s.lock.j < |s.workers|)
    && (forall i :: 0 <= i < |s.writers| ==> (HasExcl(s.writers[i]) <==> s.excl == Some(i)))
    && (s.excl.Some? ==> s.excl.value < |s.writers| && forall j :: 0 <= j < |s.workers| ==> s.workers[j] != Holding)
  }

  ghost predicate Pending(s: State) {
    s.lock.ByWriter? && s.lock.i < |s.writers| && Announced(s.writers[s.lock.i])
  }

  ghost predicate Flags(s: State) {
    && (Pending(s) ==> s.flag)
    && (s.settled && s.flag ==> Pending(s))
    && (s.event <==>
          && s.lock.ByWriter? && s.lock.i < |s.writers|
          && (s.writers[s.lock.i].Signalled? || s.writers[s.lock.i].Exclusive?))
    && (s.workers != [] ==> s.settled)
    && (forall i :: 0 <= i < |s.writers| && (s.writers[i].Cleared? || s.writers[i].Working?) ==> s.settled)
    && (forall j :: 0 <= j < |s.workers| ==> s.workers[j] != Asleep)
  }

  ghost predicate Inv(s: State) {
    Locks(s) && Flags(s)
  }

  predicate ByWorkerStep(a: Step) {
    a.Look? || a.Lock? || a.Check? || a.Take? || a.Woken? || a.Fired? || a.Leave? || a.Return?
  }

  lemma LocksWorker(s: State, a: Step)
    requires Inv(s) && Enabled(s, a) && ByWorkerStep(a)
    ensures Locks(Next(s, a))
  {
  }

  lemma LocksEnter(s: State, a: Step)
    requires Inv(s) && Enabled(s, a) && (a.Begin? || a.SetFlag? || a.SetEvent? || a.Acquire?)
    ensures Locks(Next(s, a))
  {
  }

  lemma LocksLeave(s: State, a: Step)
    requires Inv(s) && Enabled(s, a) && !ByWorkerStep(a) && !(a.Begin? || a.SetFlag? || a.SetEvent? || a.Acquire?)
    ensures Locks(Next(s, a))
  {
  }

  lemma FlagsWorker(s: State, a: Step)
    requires Inv(s) && Enabled(s, a) && ByWorkerStep(a)
    ensures Flags(Next(s, a))
  {
  }

  lemma FlagsWriter(s: State, a: Step)
    requires Inv(s) && Enabled(s, a) && !ByWorkerStep(a)
    ensures Flags(Next(s, a))
  {
  }

  lemma InvStep(s: State, a: Step)
    requires Inv(s) && Enabled(s, a)
    ensures Inv(Next(s, a))
  {
    if ByWorkerStep(a) {
      LocksWorker(s, a);
      FlagsWorker(s, a);
    } else {
      if a.Begin? || a.SetFlag? || a.SetEvent? || a.Acquire? { LocksEnter(s, a); } else { LocksLeave(s, a); }
      FlagsWriter(s, a);
    }
  }

  // ---------------------------------------------------------------- every run

  /** No thread has started; pending_writer has some value or other. */
  ghost predicate Init(s: State) {
    && !s.event && s.lock == Nobody && s.excl == None && !s.settled && s.workers == []
    && forall i :: 0 <= i < |s.writers| ==> s.writers[i] == Idle
  }

  ghost predicate Runs(s: State, steps: seq<Step>, s': State)
    decreases |steps|
  {
    if steps == [] then s == s' else Enabled(s, steps[0]) && Runs(Next(s, steps[0]), steps[1..], s')
  }

  lemma {:induction false} InvRun(s: State, steps: seq<Step>, s': State)
    requires Inv(s) && Runs(s, steps, s')
    ensures Inv(s')
    decreases |steps|
  {
    if steps != [] {
      InvStep(s, steps[0]);
      InvRun(Next(s, steps[0]), steps[1..], s');
    }
  }

  ghost predicate Reachable(s: State) {
    exists s0, steps :: Init(s0) && Runs(s0, steps, s)
  }

  lemma ReachableInv(s: State)
    requires Reachable(s)
    ensures Inv(s)
  {
    var s0, steps :| Init(s0) && Runs(s0, steps, s);
    InvRun(s0, steps, s);
  }

  /** A worker sees pending_writer set only while a writer holds pending_writer_lock; so the condition it waits for with
      that lock in hand holds at once, and it never sleeps. No worker depends on pending_writer_cv being notified. */
  lemma WorkersNeverSleep(s: State, j: nat)
    requires Reachable(s) && j < |s.workers|
    ensures s.flag ==> s.lock.ByWriter?
    ensures s.workers[j] == Checking ==> !s.flag
    ensures s.workers[j] != Asleep
  {
    ReachableInv(s);
  }

  /** While a writer works on the vectors no worker reads them and no other writer works. */
  lemma Exclusion(s: State, i: nat)
    requires Reachable(s) && i < |s.writers| && HasExcl(s.writers[i])
    ensures forall j :: 0 <= j < |s.workers| ==> s.workers[j] != Holding
    ensures forall k :: 0 <= k < |s.writers| && HasExcl(s.writers[k]) ==> k == i
  {
    ReachableInv(s);
    assert s.excl == Some(i);
  }

  // ---------------------------------------------------------------- the writer gets in

  /** How many more steps a worker can make before it runs into pending_writer_lock. */
  function Rank(k: Worker): nat {
    match k
    case Ready => 4
    case Holding => 3
    case Calling => 2
    case Top => 1
    case _ => 0
  }

  function RankSum(ks: seq<Worker>): nat {
    if ks == [] then 0 else RankSum(ks[..|ks| - 1]) + Rank(ks[|ks| - 1])
  }

  lemma {:induction false} RankUpdate(ks: seq<Worker>, j: nat, k: Worker)
    requires j < |ks|
    ensures RankSum(ks[j := k]) == RankSum(ks) - Rank(ks[j]) + Rank(k)
  {
    var n := |ks| - 1;
    if j == n {
      assert ks[j := k][..n] == ks[..n];
    } else {
      assert ks[j := k][..n] == ks[..n][j := k];
      RankUpdate(ks[..n], j, k);
    }
  }

  lemma RankAppend(ks: seq<Worker>, k: Worker)
    ensures RankSum(ks + [k]) == RankSum(ks) + Rank(k)
  {
    assert (ks + [k])[..|ks|] == ks;
  }

  /** What is left to the writer that has wait_lock already. */
  function Left(s: State): nat {
    if s.excl.Some? && s.excl.value < |s.writers| && s.writers[s.excl.value].Working?
    then 2 * s.writers[s.excl.value].todo + 1
    else 0
  }

  function Measure(s: State): nat {
    RankSum(s.workers) + Left(s)
  }

  lemma NearerWorker(s: State, i: nat, a: Step)
    requires Inv(s) && At(s, i, Signalled) && Enabled(s, a) && ByWorkerStep(a)
    ensures At(Next(s, a), i, Signalled) && Measure(Next(s, a)) < Measure(s)
  {
    assert s.lock == ByWriter(i) && s.flag;
    match a
    case Look(j) => RankUpdate(s.workers, j, Wanting);
    case Lock(_) =>
    case Check(_) =>
    case Take(j) => RankUpdate(s.workers, j, Holding);
    case Woken(j) => RankUpdate(s.workers, j, Top);
    case Fired(j) => RankUpdate(s.workers, j, Calling);
    case Leave(j) => RankUpdate(s.workers, j, Gone);
    case Return(j) => RankUpdate(s.workers, j, Top);
  }

  lemma NearerWriter(s: State, i: nat, a: Step)
    requires Inv(s) && At(s, i, Signalled) && Enabled(s, a) && !ByWorkerStep(a) && a != Acquire(i)
    ensures At(Next(s, a), i, Signalled) && Measure(Next(s, a)) < Measure(s)
  {
    assert s.lock == ByWriter(i);
    if a.Start? {
      RankAppend(s.workers, Top);
    }
  }

  /** With a writer waiting, every step of any thread brings it nearer, workers that start meanwhile included. */
  lemma Nearer(s: State, i: nat, a: Step)
    requires Inv(s) && At(s, i, Signalled) && Enabled(s, a) && a != Acquire(i)
    ensures At(Next(s, a), i, Signalled) && Measure(Next(s, a)) < Measure(s)
  {
    if ByWorkerStep(a) {
      NearerWorker(s, i, a);
    } else {
      NearerWriter(s, i, a);
    }
  }

  ghost predicate Without(steps: seq<Step>, i: nat) {
    forall k :: 0 <= k < |steps| ==> steps[k] != Acquire(i)
  }

  /** However the threads are scheduled, a writer that waits for wait_lock is kept waiting for a bounded number of
      steps. */
  lemma {:induction false} BoundedWait(s: State, i: nat, steps: seq<Step>, s': State)
    requires Inv(s) && At(s, i, Signalled) && Runs(s, steps, s') && Without(steps, i)
    ensures At(s', i, Signalled) && |steps| + Measure(s') <= Measure(s)
    decreases |steps|
  {
    if steps != [] {
      Nearer(s, i, steps[0]);
      InvStep(s, steps[0]);
      assert forall k :: 0 <= k < |steps[1..]| ==> steps[1..][k] == steps[k + 1];
      BoundedWait(Next(s, steps[0]), i, steps[1..], s');
    }
  }

  /** And it is never stuck: it can go on, or the writer that has wait_lock can, or a worker that has it; and every
      worker that has it can let go of it. */
  lemma NotStuck(s: State, i: nat)
    requires Reachable(s) && At(s, i, Signalled)
    ensures || Enabled(s, Acquire(i))
            || (&& s.excl.Some? && s.excl.value != i
                && (Enabled(s, Start(s.excl.value)) || Enabled(s, Done(s.excl.value))))
            || (exists j :: 0 <= j < |s.workers| && s.workers[j] == Holding && Enabled(s, Woken(j)))
    ensures forall j :: 0 <= j < |s.workers| && s.workers[j] == Holding ==> Enabled(s, Woken(j))
  {
    ReachableInv(s);
    assert s.lock == ByWriter(i) && s.event;
    if s.excl.Some? {
      var k := s.excl.value;
      assert HasExcl(s.writers[k]);
      assert s.writers[k].Working?;
    } else if j :| 0 <= j < |s.workers| && s.workers[j] == Holding {
      assert Enabled(s, Woken(j));
    }
  }

  /** How often worker j takes wait_lock. */
  function Takes(steps: seq<Step>, j: nat): nat {
    if steps == [] then 0 else (if steps[0] == Take(j) then 1 else 0) + Takes(steps[1..], j)
  }

  /** A worker gets hold of wait_lock at most once more while a writer waits for it, and only if it was past the check
      already. */
  lemma {:induction false} TakesOnce(s: State, i: nat, steps: seq<Step>, s': State, j: nat)
    requires Inv(s) && At(s, i, Signalled) && Runs(s, steps, s') && Without(steps, i)
    ensures Takes(steps, j) <= if In(s, j, Ready) then 1 else 0
    decreases |steps|
  {
    if steps != [] {
      Nearer(s, i, steps[0]);
      InvStep(s, steps[0]);
      assert s.lock == ByWriter(i);
      assert forall k :: 0 <= k < |steps[1..]| ==> steps[1..][k] == steps[k + 1];
      TakesOnce(Next(s, steps[0]), i, steps[1..], s', j);
    }
  }
}
