/** The handshake never locks up: from every state that the threads can get into, the calls under way can be finished,
    with every worker back in its wait; and from there any thread can get the vectors to itself again.
 */
module PoolProgress {
  import opened PoolHandshake

  predicate Waiting(k: Worker) {
    k == Holding || k == Gone
  }

  /** No call is under way, and every worker that has not left waits for its handles. */
  ghost predicate AtRest(s: State) {
    && (forall i :: 0 <= i < |s.writers| ==> s.writers[i] == Idle)
    && (forall j :: 0 <= j < |s.workers| ==> Waiting(s.workers[j]))
  }

  /** The steps that finish what is under way: no call begins, no handle fires and no worker leaves. */
  predicate Finishes(a: Step) {
    !a.Begin? && !a.Fired? && !a.Leave?
  }

  /** The workers that have left are the same ones. */
  ghost predicate NoneLeft(s: State, t: State) {
    && |s.writers| == |t.writers| && |s.workers| <= |t.workers|
    && forall j :: 0 <= j < |t.workers| ==> (t.workers[j] == Gone <==> In(s, j, Gone))
  }

  // ---------------------------------------------------------------- what is left to do

  function Sum(xs: seq<nat>): nat {
    if xs == [] then 0 else Sum(xs[..|xs| - 1]) + xs[|xs| - 1]
  }

  lemma {:induction false} SumUpdate(xs: seq<nat>, i: nat, x: nat)
    requires i < |xs|
    ensures Sum(xs[i := x]) == Sum(xs) - xs[i] + x
  {
    var n := |xs| - 1;
    if i == n {
      assert xs[i := x][..n] == xs[..n];
    } else {
      assert xs[i := x][..n] == xs[..n][i := x];
      SumUpdate(xs[..n], i, x);
    }
  }

  /** The steps left to a call. */
  function Toll(w: Writer): nat {
    match w
    case Idle => 0
    case Working(todo) => 1 + todo
    case Cleared => 2
    case Reset => 3
    case Exclusive => 4
    case Signalled => 5
    case Flagged => 6
    case Locked => 7
  }

  function Tolls(ws: seq<Writer>): seq<nat> {
    seq(|ws|, i requires 0 <= i < |ws| => Toll(ws[i]))
  }

  /** The steps from a worker's place to its wait. */
  function Way(k: Worker): nat {
    match k
    case Ready => 1
    case Top => 2
    case Checking => 2
    case Wanting => 3
    case Calling => 3
    case _ => 0
  }

  function Ways(ks: seq<Worker>): seq<nat> {
    seq(|ks|, j requires 0 <= j < |ks| => Way(ks[j]))
  }

  function Held(ks: seq<Worker>): seq<nat> {
    seq(|ks|, j requires 0 <= j < |ks| => if ks[j] == Holding then 1 else 0)
  }

  ghost predicate Busy(s: State) {
    exists i :: 0 <= i < |s.writers| && s.writers[i] != Idle
  }

  /** While calls are under way, the workers to be woken; after that, their way back. */
  ghost function Workers(s: State): nat {
    if Busy(s) then Sum(Held(s.workers)) else Sum(Ways(s.workers))
  }

  ghost predicate Less(s: State, t: State) {
    Sum(Tolls(t.writers)) < Sum(Tolls(s.writers))
    || (Sum(Tolls(t.writers)) == Sum(Tolls(s.writers)) && Workers(t) < Workers(s))
  }

  // ---------------------------------------------------------------- one step nearer

  lemma CallStep(s: State, i: nat, a: Step)
    requires Enabled(s, a) && Finishes(a) && !ByWorkerStep(a) && i < |s.writers| == |Next(s, a).writers|
    requires Next(s, a).writers == s.writers[i := Next(s, a).writers[i]]
    requires Toll(Next(s, a).writers[i]) < Toll(s.writers[i])
    ensures Less(s, Next(s, a)) && NoneLeft(s, Next(s, a))
  {
    var w := Next(s, a).writers[i];
    assert Tolls(s.writers[i := w]) == Tolls(s.writers)[i := Toll(w)];
    SumUpdate(Tolls(s.writers), i, Toll(w));
  }

  /** A thread that has let go of pending_writer_lock starts its workers and is done. */
  lemma WorkingGoes(s: State, i: nat) returns (a: Step)
    requires i < |s.writers| && s.writers[i].Working?
    ensures Finishes(a) && Enabled(s, a) && Less(s, Next(s, a)) && NoneLeft(s, Next(s, a))
  {
    a := if s.writers[i].todo > 0 then Start(i) else Done(i);
    CallStep(s, i, a);
  }

  lemma Wakes(s: State, j: nat)
    requires Busy(s) && In(s, j, Holding) && s.event
    ensures Less(s, Next(s, Woken(j))) && NoneLeft(s, Next(s, Woken(j)))
  {
    assert Held(s.workers[j := Top]) == Held(s.workers)[j := 0];
    SumUpdate(Held(s.workers), j, 0);
    assert Busy(Next(s, Woken(j)));
  }

  /** A thread that has pending_writer_lock goes on, or waits for a worker that can be woken. */
  lemma LockedGoes(s: State, i: nat) returns (a: Step)
    requires Inv(s) && i < |s.writers| && HasLock(s.writers[i]) && s.excl in {None, Some(i)}
    ensures Finishes(a) && Enabled(s, a) && Less(s, Next(s, a)) && NoneLeft(s, Next(s, a))
  {
    assert s.lock == ByWriter(i);
    if s.writers[i] == Signalled && exists j :: 0 <= j < |s.workers| && s.workers[j] == Holding {
      var j :| 0 <= j < |s.workers| && s.workers[j] == Holding;
      a := Woken(j);
      Wakes(s, j);
    } else {
      a := match s.writers[i]
        case Locked => SetFlag(i)
        case Flagged => SetEvent(i)
        case Signalled => Acquire(i)
        case Exclusive => ResetEvent(i)
        case Reset => ClearFlag(i)
        case Cleared => Unlock(i, 0)
        case _ => SetFlag(i);
      CallStep(s, i, a);
    }
  }

  lemma BusyGoes(s: State) returns (a: Step)
    requires Inv(s) && Busy(s)
    ensures Finishes(a) && Enabled(s, a) && Less(s, Next(s, a)) && NoneLeft(s, Next(s, a))
  {
    if i :| 0 <= i < |s.writers| && s.writers[i].Working? {
      a := WorkingGoes(s, i);
    } else {
      var i :| 0 <= i < |s.writers| && s.writers[i] != Idle;
      assert s.lock == ByWriter(i);
      assert s.excl.Some? ==> HasExcl(s.writers[s.excl.value]);
      a := LockedGoes(s, i);
    }
  }

  /** A worker comes nearer to its wait. */
  lemma Nears(s: State, j: nat, a: Step)
    requires !Busy(s) && Enabled(s, a) && Finishes(a) && ByWorkerStep(a) && j < |s.workers|
    requires Next(s, a).writers == s.writers && |Next(s, a).workers| == |s.workers|
    requires Next(s, a).workers == s.workers[j := Next(s, a).workers[j]]
    requires Way(Next(s, a).workers[j]) < Way(s.workers[j]) && Next(s, a).workers[j] != Gone
    ensures Less(s, Next(s, a)) && NoneLeft(s, Next(s, a))
  {
    var k := Next(s, a).workers[j];
    assert Ways(s.workers[j := k]) == Ways(s.workers)[j := Way(k)];
    SumUpdate(Ways(s.workers), j, Way(k));
  }

  lemma NobodyWrites(s: State)
    requires Inv(s) && !Busy(s)
    ensures !s.lock.ByWriter? && s.excl == None && (s.workers != [] ==> !s.flag)
  {
  }

  lemma WorkersGo(s: State, j: nat) returns (a: Step)
    requires Inv(s) && !Busy(s) && j < |s.workers| && !Waiting(s.workers[j])
    ensures Finishes(a) && Enabled(s, a) && Less(s, Next(s, a)) && NoneLeft(s, Next(s, a))
  {
    NobodyWrites(s);
    if s.workers[j] == Wanting && s.lock.ByWorker? {
      a := Check(s.lock.j);
      Nears(s, s.lock.j, a);
    } else {
      a := match s.workers[j]
        case Top => Look(j)
        case Wanting => Lock(j)
        case Checking => Check(j)
        case Ready => Take(j)
        case _ => Return(j);
      Nears(s, j, a);
    }
  }

  lemma NextStep(s: State) returns (a: Step)
    requires Inv(s) && !AtRest(s)
    ensures Finishes(a) && Enabled(s, a) && Less(s, Next(s, a)) && NoneLeft(s, Next(s, a))
  {
    if Busy(s) {
      a := BusyGoes(s);
    } else {
      var j :| 0 <= j < |s.workers| && !Waiting(s.workers[j]);
      a := WorkersGo(s, j);
    }
  }

  // ---------------------------------------------------------------- to rest

  ghost predicate Finishing(s: State, steps: seq<Step>, t: State) {
    Runs(s, steps, t) && NoneLeft(s, t) && forall i :: 0 <= i < |steps| ==> Finishes(steps[i])
  }

  lemma AndThen(s: State, a: Step, more: seq<Step>, t: State)
    requires Finishes(a) && Enabled(s, a) && NoneLeft(s, Next(s, a)) && Finishing(Next(s, a), more, t)
    ensures Finishing(s, [a] + more, t)
  {
    assert ([a] + more)[1..] == more;
  }

  lemma {:induction false} Finish(s: State) returns (steps: seq<Step>, t: State)
    requires Inv(s)
    ensures Finishing(s, steps, t) && AtRest(t)
    decreases Sum(Tolls(s.writers)), Workers(s)
  {
    if AtRest(s) {
      steps, t := [], s;
    } else {
      var a := NextStep(s);
      InvStep(s, a);
      var more;
      more, t := Finish(Next(s, a));
      steps := [a] + more;
      AndThen(s, a, more, t);
    }
  }

  /** From every reachable state the calls under way can be finished without any further call, handle or exit: every
      thread is out of add_handle() and remove_handle() and the workers are all in their waits, those started on the way
      included, and except for those that had left. */
  lemma NoDeadlock(s: State) returns (steps: seq<Step>, t: State)
    requires Reachable(s)
    ensures Finishing(s, steps, t) && AtRest(t)
  {
    ReachableInv(s);
    steps, t := Finish(s);
  }

  // ---------------------------------------------------------------- the next call

  /** Thread i is on its way to wait_lock and all others are idle. */
  ghost predicate Entering(s: State, i: nat) {
    && i < |s.writers| && (s.writers[i] == Locked || s.writers[i] == Flagged || s.writers[i] == Signalled)
    && forall k :: 0 <= k < |s.writers| && k != i ==> s.writers[k] == Idle
  }

  lemma EnterStep(s: State, i: nat) returns (a: Step)
    requires Inv(s) && Entering(s, i)
    ensures Finishes(a) && Enabled(s, a) && Less(s, Next(s, a)) && NoneLeft(s, Next(s, a))
    ensures At(Next(s, a), i, Exclusive) || Entering(Next(s, a), i)
  {
    assert s.excl.Some? ==> HasExcl(s.writers[s.excl.value]);
    a := LockedGoes(s, i);
    OnlyHis(s, i, a);
  }

  lemma OnlyHis(s: State, i: nat, a: Step)
    requires Inv(s) && Entering(s, i) && Enabled(s, a) && Finishes(a)
    ensures At(Next(s, a), i, Exclusive) || Entering(Next(s, a), i)
  {
  }

  lemma {:induction false} Enter(s: State, i: nat) returns (steps: seq<Step>, t: State)
    requires Inv(s) && Entering(s, i)
    ensures Finishing(s, steps, t) && At(t, i, Exclusive)
    decreases Sum(Tolls(s.writers)), Workers(s)
  {
    var a := EnterStep(s, i);
    InvStep(s, a);
    var more;
    if At(Next(s, a), i, Exclusive) {
      more, t := [], Next(s, a);
    } else {
      more, t := Enter(Next(s, a), i);
    }
    steps := [a] + more;
    AndThen(s, a, more, t);
  }

  /** From there any thread can call add_handle() or remove_handle() and get the vectors to itself. */
  lemma NextCallGetsIn(s: State, i: nat) returns (steps: seq<Step>, t: State)
    requires Reachable(s) && AtRest(s) && i < |s.writers|
    ensures Enabled(s, Begin(i)) && Finishing(Next(s, Begin(i)), steps, t) && At(t, i, Exclusive)
  {
    ReachableInv(s);
    assert s.lock == Nobody;
    InvStep(s, Begin(i));
    steps, t := Enter(Next(s, Begin(i)), i);
  }
}
