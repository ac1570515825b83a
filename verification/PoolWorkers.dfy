/** The worker population of the pool over every run of additions, removals and exits, and the pool's operations in
    place. The writer lock makes each of these one step.
 */
module PoolWorkers {
  import opened HandlePool
  import opened Multiples

  type Workers = map<nat, nat>

  /** `workers` has the base index of each active worker; the next one to start is number `spawned`. */
  datatype State = State(table: Table, workers: Workers, spawned: nat)

  datatype Step =
    | Add(handle: Handle, callback: Callback)
    | Remove(handle: Handle)
    | Exit(worker: nat)

  function At(workers: Workers, base: nat): set<nat> {
    set w | w in workers && workers[w] == base
  }

  /** k new workers for the block at `base`. */
  function Spawn(s: State, base: nat, k: nat): State {
    if k == 0 then s
    else
      var r := Spawn(s, base, k - 1);
      r.(workers := r.workers[r.spawned := base], spawned := r.spawned + 1)
  }

  /** The count of workers to start, which is a size_t in the source and must not go below 0. */
  function ToSpawn(s: State, base: nat, t: nat): int {
    t - |At(s.workers, base)|
  }

  predicate Enabled(s: State, a: Step) {
    match a
    case Add(h, c) => h.Event? && c.User?
    case Remove(h) => h.Event?
    case Exit(w) => w in s.workers && |s.table.handles| <= s.workers[w]
  }

  function Next(s: State, a: Step, m: nat, t: nat): State
    requires m > 0 && |s.table.handles| == |s.table.callbacks|
  {
    match a
    case Add(h, c) =>
      var n := |s.table.handles|;
      var s' := s.(table := Added(s.table, h, c, m));
      if Base(n, m) && ToSpawn(s, n, t) >= 0 then Spawn(s', n, ToSpawn(s, n, t)) else s'
    case Remove(h) => s.(table := Removed(s.table, h))
    case Exit(w) => s.(workers := s.workers - {w})
  }

  ghost predicate Inv(s: State, m: nat, t: nat)
    requires m > 1
  {
    && Layout(s.table, m)
    && (forall w :: w in s.workers ==> w < s.spawned && Base(s.workers[w], m))
    && (forall b: nat :: |At(s.workers, b)| <= t)
    && (forall b: nat :: Base(b, m) && b < |s.table.handles| ==> |At(s.workers, b)| == t)
  }

  /** One more worker at `base`. */
  lemma OneMore(workers: Workers, w: nat, base: nat)
    requires w !in workers
    ensures var r := workers[w := base];
            && At(r, base) == At(workers, base) + {w} && |At(r, base)| == |At(workers, base)| + 1
            && forall b :: b != base ==> At(r, b) == At(workers, b)
  {
    var r := workers[w := base];
    assert At(r, base) == At(workers, base) + {w};
    forall b | b != base ensures At(r, b) == At(workers, b) {
    }
  }

  lemma {:induction false} SpawnExactly(s: State, base: nat, k: nat)
    requires forall w :: w in s.workers ==> w < s.spawned
    ensures var r := Spawn(s, base, k);
            && r.table == s.table && r.spawned == s.spawned + k
            && (forall w :: w in r.workers ==> w < r.spawned && (w in s.workers || r.workers[w] == base))
            && (forall w :: w in s.workers ==> w in r.workers && r.workers[w] == s.workers[w])
            && (forall b :: b != base ==> At(r.workers, b) == At(s.workers, b))
            && |At(r.workers, base)| == |At(s.workers, base)| + k
  {
    if k > 0 {
      SpawnExactly(s, base, k - 1);
      var q := Spawn(s, base, k - 1);
      OneMore(q.workers, q.spawned, base);
    }
  }

  /** Adding a handle adds at most the block that starts at the old size. */
  lemma AddedBlocks(t: Table, h: Handle, c: Callback, m: nat, b: nat)
    requires m > 1 && Base(b, m)
    ensures b < |Added(t, h, c, m).handles| <==> b < |t.handles| || b == |t.handles|
  {
    var n := |t.handles|;
    if Base(n, m) {
      if b == n + 1 {
        Inside(n, 1, m);
      }
    }
  }

  lemma SpawnKeeps(s: State, r: State, base: nat, m: nat, t: nat)
    requires m > 1 && |At(s.workers, base)| <= t && Base(base, m)
    requires forall w :: w in s.workers ==> w < s.spawned && Base(s.workers[w], m)
    requires r == Spawn(s, base, t - |At(s.workers, base)|)
    ensures forall w :: w in r.workers ==> w < r.spawned && Base(r.workers[w], m)
    ensures r.table == s.table && |At(r.workers, base)| == t
    ensures forall b: nat :: b != base ==> |At(r.workers, b)| == |At(s.workers, b)|
  {
    SpawnExactly(s, base, t - |At(s.workers, base)|);
  }

  /** A handle that goes into a block that exists. */
  lemma AddInside(s: State, u: State, h: Handle, c: Callback, m: nat, t: nat)
    requires m > 1 && Inv(s, m, t) && h.Event? && c.User? && !Base(|s.table.handles|, m)
    requires u == s.(table := Added(s.table, h, c, m))
    ensures Inv(u, m, t)
  {
    AddedExactly(s.table, h, c, m);
    forall b: nat | Base(b, m) && b < |u.table.handles| ensures |At(u.workers, b)| == t {
      AddedBlocks(s.table, h, c, m, b);
    }
  }

  /** A handle that starts a block. */
  lemma AddBlock(s: State, u: State, r: State, h: Handle, c: Callback, m: nat, t: nat)
    requires m > 1 && Inv(s, m, t) && h.Event? && c.User? && Base(|s.table.handles|, m)
    requires u == s.(table := Added(s.table, h, c, m))
    requires ToSpawn(s, |s.table.handles|, t) >= 0
    requires r == Spawn(u, |s.table.handles|, ToSpawn(s, |s.table.handles|, t))
    ensures Inv(r, m, t)
  {
    AddedExactly(s.table, h, c, m);
    SpawnKeeps(u, r, |s.table.handles|, m, t);
    forall b: nat | Base(b, m) && b < |r.table.handles| ensures |At(r.workers, b)| == t {
      AddedBlocks(s.table, h, c, m, b);
    }
  }

  lemma AddKeeps(s: State, a: Step, m: nat, t: nat)
    requires m > 1 && Inv(s, m, t) && Enabled(s, a) && a.Add?
    ensures Inv(Next(s, a, m, t), m, t)
  {
    var u := s.(table := Added(s.table, a.handle, a.callback, m));
    assert ToSpawn(s, |s.table.handles|, t) >= 0;
    if Base(|s.table.handles|, m) {
      AddBlock(s, u, Next(s, a, m, t), a.handle, a.callback, m, t);
    } else {
      AddInside(s, u, a.handle, a.callback, m, t);
    }
  }

  lemma RemovedShrinks(t: Table, h: Handle)
    requires |t.handles| == |t.callbacks|
    ensures |Removed(t, h).handles| <= |t.handles|
  {
  }

  lemma RemoveKeeps(s: State, a: Step, m: nat, t: nat)
    requires m > 1 && Inv(s, m, t) && Enabled(s, a) && a.Remove?
    ensures Inv(Next(s, a, m, t), m, t)
  {
    RemovedExactly(s.table, a.handle, m);
    RemovedShrinks(s.table, a.handle);
  }

  lemma ExitKeeps(s: State, a: Step, m: nat, t: nat)
    requires m > 1 && Inv(s, m, t) && Enabled(s, a) && a.Exit?
    ensures Inv(Next(s, a, m, t), m, t)
  {
    var r := Next(s, a, m, t);
    forall b: nat ensures |At(r.workers, b)| <= |At(s.workers, b)| {
      assert At(r.workers, b) == At(s.workers, b) - {a.worker};
    }
    forall b: nat | b != s.workers[a.worker] ensures At(r.workers, b) == At(s.workers, b) {
    }
  }

  lemma StepKeeps(s: State, a: Step, m: nat, t: nat)
    requires m > 1 && Inv(s, m, t) && Enabled(s, a)
    ensures Inv(Next(s, a, m, t), m, t)
  {
    match a
    case Add(_, _) => AddKeeps(s, a, m, t);
    case Remove(_) => RemoveKeeps(s, a, m, t);
    case Exit(_) => ExitKeeps(s, a, m, t);
  }

  // ---------------------------------------------------------------- every run

  function Init(): State {
    State(Table([], []), map[], 0)
  }

  ghost predicate Runs(s: State, steps: seq<Step>, s': State, m: nat, t: nat)
    requires m > 1
    decreases |steps|
  {
    if steps == [] then s == s'
    else
      && |s.table.handles| == |s.table.callbacks| && Enabled(s, steps[0])
      && Runs(Next(s, steps[0], m, t), steps[1..], s', m, t)
  }

  lemma {:induction false} RunKeeps(s: State, steps: seq<Step>, s': State, m: nat, t: nat)
    requires m > 1 && Inv(s, m, t) && Runs(s, steps, s', m, t)
    ensures Inv(s', m, t)
    decreases |steps|
  {
    if steps != [] {
      StepKeeps(s, steps[0], m, t);
      RunKeeps(Next(s, steps[0], m, t), steps[1..], s', m, t);
    }
  }

  lemma InitInv(m: nat, t: nat)
    requires m > 1
    ensures Inv(Init(), m, t)
  {
    forall b: nat ensures |At(Init().workers, b)| <= t {
      assert At(Init().workers, b) == {};
    }
  }

  /** In every run, each block that exists has `t` workers and each base index never more, also when a block goes and
      comes back before its workers have noticed; so the count of workers to start never goes below 0, and every
      registered handle is in the range of exactly `t` workers. */
  lemma Population(steps: seq<Step>, s: State, m: nat, t: nat)
    requires m > 1 && Runs(Init(), steps, s, m, t)
    ensures forall b: nat :: Base(b, m) && b < |s.table.handles| ==> |At(s.workers, b)| == t
    ensures forall b: nat :: |At(s.workers, b)| <= t && ToSpawn(s, b, t) >= 0
    ensures forall i :: 0 <= i < |s.table.handles| ==> |At(s.workers, BaseOf(i, m))| == t
    ensures forall w :: w in s.workers ==> Base(s.workers[w], m)
  {
    InitInv(m, t);
    RunKeeps(Init(), steps, s, m, t);
  }

  /** The workers in the set are those that have been started and have not exited since. */
  ghost predicate Exact(s: State, start: State, steps: seq<Step>) {
    forall w: nat :: w in s.workers <==> (w in start.workers || start.spawned <= w < s.spawned) && Exit(w) !in steps
  }

  lemma StepStarts(s: State, a: Step, m: nat, t: nat)
    requires m > 1 && Inv(s, m, t) && Enabled(s, a)
    ensures var r := Next(s, a, m, t);
            && s.spawned <= r.spawned
            && forall w :: w in r.workers <==> (w in s.workers || s.spawned <= w < r.spawned) && a != Exit(w)
  {
    match a
    case Add(h, c) =>
      var n, u := |s.table.handles|, s.(table := Added(s.table, h, c, m));
      if Base(n, m) {
        SpawnStarts(u, n, ToSpawn(s, n, t));
      }
    case Remove(_) =>
    case Exit(_) =>
  }

  lemma {:induction false} SpawnStarts(s: State, base: nat, k: nat)
    ensures var r := Spawn(s, base, k);
            r.spawned == s.spawned + k && forall w :: w in r.workers <==> w in s.workers || s.spawned <= w < r.spawned
  {
    if k > 0 {
      SpawnStarts(s, base, k - 1);
    }
  }

  lemma {:induction false} RunStarts(s: State, steps: seq<Step>, s': State, m: nat, t: nat)
    requires m > 1 && Inv(s, m, t) && Runs(s, steps, s', m, t)
    ensures s.spawned <= s'.spawned && Exact(s', s, steps)
    decreases |steps|
  {
    if steps != [] {
      var u := Next(s, steps[0], m, t);
      StepKeeps(s, steps[0], m, t);
      StepStarts(s, steps[0], m, t);
      RunStarts(u, steps[1..], s', m, t);
      StartsOn(s, u, s', steps);
    }
  }

  lemma StartsOn(s: State, u: State, s': State, steps: seq<Step>)
    requires steps != [] && s.spawned <= u.spawned <= s'.spawned && Exact(s', u, steps[1..])
    requires forall w :: w in s.workers ==> w < s.spawned
    requires forall w :: w in u.workers <==> (w in s.workers || s.spawned <= w < u.spawned) && steps[0] != Exit(w)
    requires steps[0].Exit? ==> steps[0].worker in s.workers
    ensures Exact(s', s, steps)
  {
    forall w: nat ensures w in s'.workers <==> (w in s.workers || s.spawned <= w < s'.spawned) && Exit(w) !in steps {
      assert Exit(w) in steps <==> steps[0] == Exit(w) || Exit(w) in steps[1..];
    }
  }

  /** The threads that were started, have not exited, and serve the block at `base`. */
  ghost function Serving(s: State, steps: seq<Step>, base: nat): set<nat> {
    set w | w in s.workers && w < s.spawned && Exit(w) !in steps && s.workers[w] == base
  }

  /** Every thread that has been started and has not exited serves one block, each block that exists is served by `t` of
      them, and no base index by more. */
  lemma Served(steps: seq<Step>, s: State, m: nat, t: nat)
    requires m > 1 && Runs(Init(), steps, s, m, t)
    ensures forall w: nat :: w in s.workers <==> w < s.spawned && Exit(w) !in steps
    ensures forall b: nat :: |Serving(s, steps, b)| <= t
    ensures forall b: nat :: Base(b, m) && b < |s.table.handles| ==> |Serving(s, steps, b)| == t
    ensures forall i :: 0 <= i < |s.table.handles| ==> |Serving(s, steps, BaseOf(i, m))| == t
  {
    InitInv(m, t);
    RunStarts(Init(), steps, s, m, t);
    Population(steps, s, m, t);
    forall b: nat ensures Serving(s, steps, b) == At(s.workers, b) {
    }
  }

  /** What a run has registered: the pairs added, without those taken out by the removals. */
  function Effect(reg: multiset<(Handle, Callback)>, t: Table, a: Step): multiset<(Handle, Callback)> {
    match a
    case Add(h, c) => reg + multiset{(h, c)}
    case Remove(h) =>
      var i := Find(t.handles, h);
      if i < |t.handles| && i < |t.callbacks| then reg - multiset{(h, t.callbacks[i])} else reg
    case Exit(_) => reg
  }

  lemma Represents(steps: seq<Step>, s: State, a: Step, m: nat, t: nat)
    requires m > 1 && Runs(Init(), steps, s, m, t) && Enabled(s, a)
    ensures Layout(s.table, m) && Layout(Next(s, a, m, t).table, m)
    ensures Registered(Next(s, a, m, t).table) == Effect(Registered(s.table), s.table, a)
  {
    InitInv(m, t);
    RunKeeps(Init(), steps, s, m, t);
    StepKeeps(s, a, m, t);
    match a
    case Add(h, c) =>
      AddedExactly(s.table, h, c, m);
      var n := |s.table.handles|;
      if Base(n, m) {
        SpawnExactly(s.(table := Added(s.table, h, c, m)), n, ToSpawn(s, n, t));
      }
    case Remove(h) => RemovedExactly(s.table, h, m);
    case Exit(_) =>
  }

  /** How often a handle is registered after a list of steps, if it was k times before: additions count up, removals
      down to 0. */
  function Tally(k: nat, steps: seq<Step>, x: Handle): nat
    decreases |steps|
  {
    if steps == [] then k
    else
      var a := steps[0];
      var k' := if a.Add? && a.handle == x then k + 1 else if a.Remove? && a.handle == x && k > 0 then k - 1 else k;
      Tally(k', steps[1..], x)
  }

  lemma TimesNext(s: State, a: Step, m: nat, t: nat, x: Handle)
    requires m > 1 && Inv(s, m, t) && Enabled(s, a) && x.Event?
    ensures Times(Next(s, a, m, t).table, x) == Tally(Times(s.table, x), [a], x)
  {
    match a
    case Add(h, c) =>
      TimesAdded(s.table, h, c, m, x);
      var n := |s.table.handles|;
      if Base(n, m) {
        SpawnExactly(s.(table := Added(s.table, h, c, m)), n, ToSpawn(s, n, t));
      }
    case Remove(h) => TimesRemoved(s.table, h, m, x);
    case Exit(_) =>
  }

  /** In every run a handle is waited for as often as it has been added and not removed. */
  lemma {:induction false} TallyKept(s: State, steps: seq<Step>, s': State, m: nat, t: nat, x: Handle)
    requires m > 1 && Inv(s, m, t) && Runs(s, steps, s', m, t) && x.Event?
    ensures Times(s'.table, x) == Tally(Times(s.table, x), steps, x)
    decreases |steps|
  {
    if steps != [] {
      var a := steps[0];
      StepKeeps(s, a, m, t);
      TimesNext(s, a, m, t, x);
      TallyKept(Next(s, a, m, t), steps[1..], s', m, t, x);
    }
  }

  function Without(reg: set<(Handle, Callback)>, h: Handle): set<(Handle, Callback)> {
    set e | e in reg && e.0 != h
  }

  /** The registrations after a list of steps: each addition brings its pair, each removal takes out all pairs of its
      handle. No table is needed to tell what they are, as long as no handle is added twice. */
  function Registrations(reg: set<(Handle, Callback)>, steps: seq<Step>): set<(Handle, Callback)>
    decreases |steps|
  {
    if steps == [] then reg
    else Registrations(Applied(reg, steps[0]), steps[1..])
  }

  function Applied(reg: set<(Handle, Callback)>, a: Step): set<(Handle, Callback)> {
    match a
    case Add(h, c) => reg + {(h, c)}
    case Remove(h) => Without(reg, h)
    case Exit(_) => reg
  }

  /** A handle is added only while it is not registered. */
  predicate OnceEach(reg: set<(Handle, Callback)>, steps: seq<Step>)
    decreases |steps|
  {
    steps != [] ==>
      && (steps[0].Add? ==> forall e :: e in reg ==> e.0 != steps[0].handle)
      && OnceEach(Applied(reg, steps[0]), steps[1..])
  }

  /** Each handle has one callback. */
  ghost predicate Single(reg: set<(Handle, Callback)>) {
    forall e, f :: e in reg && f in reg && e.0 == f.0 ==> e == f
  }

  ghost predicate Same(r: multiset<(Handle, Callback)>, reg: set<(Handle, Callback)>) {
    forall e :: r[e] == if e in reg then 1 else 0
  }

  /** The table stands for the set, each pair once and each handle once. */
  ghost predicate StandsFor(t: Table, reg: set<(Handle, Callback)>) {
    Same(Registered(t), reg) && Single(reg)
  }

  lemma AddStands(s: State, a: Step, m: nat, t: nat, reg: set<(Handle, Callback)>)
    requires m > 1 && Inv(s, m, t) && Enabled(s, a) && a.Add? && StandsFor(s.table, reg)
    requires forall e :: e in reg ==> e.0 != a.handle
    ensures StandsFor(Next(s, a, m, t).table, Applied(reg, a))
  {
    AddHere(s, a.handle, a.callback, m, t);
    PutIn(Registered(s.table), reg, (a.handle, a.callback));
  }

  lemma PutIn(r: multiset<(Handle, Callback)>, reg: set<(Handle, Callback)>, e: (Handle, Callback))
    requires Same(r, reg) && e !in reg
    ensures Same(r + multiset{e}, reg + {e})
  {
  }

  lemma TakeOut(r: multiset<(Handle, Callback)>, reg: set<(Handle, Callback)>, e: (Handle, Callback))
    requires Same(r, reg) && Single(reg) && e in reg
    ensures Same(r - multiset{e}, Without(reg, e.0)) && Single(Without(reg, e.0))
  {
    assert Without(reg, e.0) == reg - {e};
  }

  lemma NothingOf(r: multiset<(Handle, Callback)>, reg: set<(Handle, Callback)>, h: Handle)
    requires Same(r, reg) && forall c :: (h, c) !in r
    ensures Without(reg, h) == reg
  {
    forall e | e in reg ensures e.0 != h {
      assert r[e] == 1 && e == (e.0, e.1);
    }
  }

  lemma RemoveStands(t: Table, h: Handle, m: nat, reg: set<(Handle, Callback)>)
    requires m > 1 && Layout(t, m) && h.Event? && StandsFor(t, reg)
    ensures StandsFor(Removed(t, h), Without(reg, h))
  {
    RemovedExactly(t, h, m);
    var i := Find(t.handles, h);
    if i == |t.handles| {
      NothingOf(Registered(t), reg, h);
    } else {
      TakeOut(Registered(t), reg, (h, t.callbacks[i]));
    }
  }

  lemma StepStands(s: State, a: Step, m: nat, t: nat, reg: set<(Handle, Callback)>)
    requires m > 1 && Inv(s, m, t) && Enabled(s, a) && StandsFor(s.table, reg)
    requires a.Add? ==> forall e :: e in reg ==> e.0 != a.handle
    ensures StandsFor(Next(s, a, m, t).table, Applied(reg, a))
  {
    match a
    case Add(_, _) => AddStands(s, a, m, t, reg);
    case Remove(h) => RemoveStands(s.table, h, m, reg);
    case Exit(_) =>
  }

  /** In every run in which no handle is added twice, the table stands for exactly what the steps say is registered. */
  lemma {:induction false} RunStands(
    s: State, steps: seq<Step>, s': State, m: nat, t: nat, reg: set<(Handle, Callback)>)
    requires m > 1 && Inv(s, m, t) && Runs(s, steps, s', m, t) && StandsFor(s.table, reg) && OnceEach(reg, steps)
    ensures StandsFor(s'.table, Registrations(reg, steps))
    decreases |steps|
  {
    if steps != [] {
      StepKeeps(s, steps[0], m, t);
      StepStands(s, steps[0], m, t, reg);
      RunStands(Next(s, steps[0], m, t), steps[1..], s', m, t, Applied(reg, steps[0]));
    }
  }

  // ---------------------------------------------------------------- in place

  class Pool {
    const threadsPerPool: nat
    const maxHandlesPerPool: nat
    var handles: seq<Handle>
    var callbacks: seq<Callback>
    var activeWorkers: Workers
    var spawned: nat

    ghost function Value(): State
      reads this
    {
      State(Table(handles, callbacks), activeWorkers, spawned)
    }

    ghost predicate Valid()
      reads this
    {
      maxHandlesPerPool > 1 && Inv(Value(), maxHandlesPerPool, threadsPerPool)
    }

    /** The constructor's arguments; it throws unless both are at least 1 and the second is less than
        MAXIMUM_WAIT_OBJECTS. */
    constructor (threads: nat, maxHandles: nat)
      requires 1 <= threads && 1 <= maxHandles < 64
      ensures Valid() && Value() == Init()
      ensures threadsPerPool == threads && maxHandlesPerPool == maxHandles + 1
    {
      threadsPerPool, maxHandlesPerPool := threads, maxHandles + 1;
      handles, callbacks, activeWorkers, spawned := [], [], map[], 0;
      new;
      InitInv(maxHandlesPerPool, threadsPerPool);
    }

    /** The loop over active_workers that counts those of one block down from threads_per_pool. */
    method CountDown(base: nat) returns (left: nat)
      requires Valid()
      ensures left == ToSpawn(Value(), base, threadsPerPool)
    {
      left := threadsPerPool;
      var rest := activeWorkers.Keys;
      ghost var seen := {};
      while rest != {}
        invariant rest <= activeWorkers.Keys && seen == At(activeWorkers, base) - rest
        invariant left == threadsPerPool - |seen| && |At(activeWorkers, base)| <= threadsPerPool
        decreases |rest|
      {
        var w :| w in rest;
        rest := rest - {w};
        if activeWorkers[w] == base {
          Seen(seen, w, At(activeWorkers, base));
          seen := seen + {w};
          left := left - 1;
        }
      }
    }

    method AddHandle(h: Handle, c: Callback)
      requires Valid() && h.Event? && c.User?
      modifies this
      ensures Valid()
      ensures Value() == Next(old(Value()), Add(h, c), maxHandlesPerPool, threadsPerPool)
      ensures Registered(Value().table) == Registered(old(Value()).table) + multiset{(h, c)}
    {
      ghost var s := Value();
      AddHere(s, h, c, maxHandlesPerPool, threadsPerPool);
      BaseMod(|handles|, maxHandlesPerPool);
      if |handles| % maxHandlesPerPool == 0 {
        var base := |handles|;
        var k := CountDown(base);
        handles, callbacks := handles + [Spin], callbacks + [Abort];
        handles, callbacks := handles + [h], callbacks + [c];
        assert Value() == s.(table := Added(s.table, h, c, maxHandlesPerPool));
        Start(base, k);
      } else {
        handles, callbacks := handles + [h], callbacks + [c];
        assert Value() == s.(table := Added(s.table, h, c, maxHandlesPerPool));
      }
    }

    /** The loop that starts workers. */
    method Start(base: nat, k: nat)
      modifies this`activeWorkers, this`spawned
      ensures Value() == Spawn(old(Value()), base, k)
    {
      for i := 0 to k
        invariant Value() == Spawn(old(Value()), base, i)
      {
        activeWorkers := activeWorkers[spawned := base];
        spawned := spawned + 1;
      }
    }

    method FindIndex(h: Handle) returns (i: nat)
      ensures i == Find(handles, h)
    {
      i := 0;
      assert handles[0..] == handles;
      while i < |handles| && handles[i] != h
        invariant i <= |handles| && Find(handles, h) == i + Find(handles[i..], h)
      {
        assert handles[i..][1..] == handles[i + 1..];
        i := i + 1;
      }
    }

    /** Drops a lone wake-up event, and then replaces slot i by the last one. */
    method Cut(i: nat)
      requires |handles| == |callbacks| && i < |handles| && i < |Trimmed(Table(handles, callbacks)).handles|
      modifies this`handles, this`callbacks
      ensures Table(handles, callbacks) == Swapped(Trimmed(old(Table(handles, callbacks))), i)
    {
      if handles[|handles| - 1] == Spin {
        handles, callbacks := handles[..|handles| - 1], callbacks[..|callbacks| - 1];
      }
      handles := handles[i := handles[|handles| - 1]][..|handles| - 1];
      callbacks := callbacks[i := callbacks[|callbacks| - 1]][..|callbacks| - 1];
    }

    method RemoveHandle(h: Handle)
      requires Valid() && h.Event?
      modifies this`handles, this`callbacks
      ensures Valid()
      ensures Value() == Next(old(Value()), Remove(h), maxHandlesPerPool, threadsPerPool)
      ensures Registered(Value().table) == Effect(Registered(old(Value()).table), old(Value()).table, Remove(h))
    {
      ghost var r := Next(Value(), Remove(h), maxHandlesPerPool, threadsPerPool);
      RemoveHere(Value(), h, maxHandlesPerPool, threadsPerPool);
      var i := FindIndex(h);
      if i < |handles| {
        Cut(i);
      }
      assert Value() == r;
    }

    /** A worker that finds its block gone. */
    method WorkerExit(w: nat)
      requires Valid() && w in activeWorkers && |handles| <= activeWorkers[w]
      modifies this`activeWorkers
      ensures Valid()
      ensures w !in activeWorkers
      ensures forall x :: x in activeWorkers <==> x in old(activeWorkers) && x != w
      ensures forall x :: x in activeWorkers ==> activeWorkers[x] == old(activeWorkers)[x]
      ensures Value() == Next(old(Value()), Exit(w), maxHandlesPerPool, threadsPerPool)
    {
      StepKeeps(Value(), Exit(w), maxHandlesPerPool, threadsPerPool);
      activeWorkers := activeWorkers - {w};
    }

    /** What a worker calls when WaitForMultipleObjects() returns WAIT_OBJECT_0 + res, if anything. */
    method Woken(w: nat, res: nat) returns (call: bool, c: Callback)
      requires Valid() && w in activeWorkers && activeWorkers[w] < |handles|
      requires res < Span(|handles|, activeWorkers[w], maxHandlesPerPool)
      ensures call <==> handles[activeWorkers[w] + res] != Spin
      ensures call ==> (handles[activeWorkers[w] + res], c) in Registered(Value().table)
      ensures call ==> c != Abort
    {
      var base := activeWorkers[w];
      call, c := 1 <= res, Abort;
      if call {
        c := callbacks[base + res];
        CallsRegistered(Table(handles, callbacks), base, res, maxHandlesPerPool);
      }
    }
  }

  lemma AddHere(s: State, h: Handle, c: Callback, m: nat, t: nat)
    requires m > 1 && Inv(s, m, t) && h.Event? && c.User?
    ensures var r, n, u := Next(s, Add(h, c), m, t), |s.table.handles|, s.(table := Added(s.table, h, c, m));
            && Inv(r, m, t) && Registered(r.table) == Registered(s.table) + multiset{(h, c)}
            && ToSpawn(s, n, t) >= 0
            && r == if Base(n, m) then Spawn(u, n, ToSpawn(s, n, t)) else u
  {
    var n, u := |s.table.handles|, s.(table := Added(s.table, h, c, m));
    AddKeeps(s, Add(h, c), m, t);
    AddedExactly(s.table, h, c, m);
    assert |At(s.workers, n)| <= t;
    SpawnExactly(u, n, ToSpawn(s, n, t));
  }

  lemma RemoveHere(s: State, h: Handle, m: nat, t: nat)
    requires m > 1 && Inv(s, m, t) && h.Event?
    ensures var r := Next(s, Remove(h), m, t);
            && Inv(r, m, t) && r == s.(table := r.table)
            && Registered(r.table) == Effect(Registered(s.table), s.table, Remove(h))
            && var i := Find(s.table.handles, h);
               if i == |s.table.handles| then r == s
               else i < |Trimmed(s.table).handles| && r.table == Swapped(Trimmed(s.table), i)
  {
    RemoveKeeps(s, Remove(h), m, t);
    RemovedExactly(s.table, h, m);
  }

  lemma Seen(a: set<nat>, w: nat, b: set<nat>)
    requires a <= b && w in b && w !in a
    ensures |a + {w}| == |a| + 1 && |a| < |b|
  {
    assert b == (a + {w}) + (b - (a + {w}));
  }
}
