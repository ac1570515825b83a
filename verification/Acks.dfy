/** Acknowledged requests over one connection (GROUP_ALLOCATE, GROUP_JOIN, GROUP_LEAVE, PLAYERINFO): the identifiers,
    the table of pending callbacks, and every interleaving of writing, answering and failing.
 */
module Acks {
  const LIMIT := 0x1_0000_0000

  /** The number of identifiers: the values of a DWORD except 0. */
  const CYCLE := 0xFFFF_FFFF

  type AckId = i: int | 0 < i < LIMIT witness 1

  /** alloc_ack_id() increments a DWORD and steps over 0. */
  function Following(next: AckId): AckId {
    var n := (next + 1) % LIMIT;
    if n == 0 then 1 else n
  }

  /** The identifier of the n-th request. */
  function IdOf(n: nat): AckId {
    n % CYCLE + 1
  }

  lemma FollowingIdOf(n: nat)
    ensures Following(IdOf(n)) == IdOf(n + 1)
  {
    if IdOf(n) == CYCLE {
      assert (n + 1) % CYCLE == 0;
    } else {
      assert (n + 1) % CYCLE == n % CYCLE + 1;
    }
  }

  /** No identifier comes back within 2^32 - 1 requests, and then it does. */
  lemma SameIdExactly(m: nat, n: nat)
    requires m <= n
    ensures IdOf(m) == IdOf(n) <==> (n - m) % CYCLE == 0
    ensures n - m < CYCLE && IdOf(m) == IdOf(n) ==> m == n
  {
  }

  // ---------------------------------------------------------------- the protocol

  /** A request or the answer to it. `serial` tells requests apart where identifiers do not. */
  datatype Request = Request(id: AckId, serial: nat)

  /** `queue` has the requests not completely written, `wire` those written and not yet handled by the other side,
      `back` its answers, none in any particular order, since their priorities differ. `pending` is the table of
      callbacks; `fired` counts the calls made, `failed` has those made because the connection broke. `crashed`: the
      assertion in register_ack() did not hold. */
  datatype State = State(
    next: AckId, count: nat, queue: set<Request>, wire: set<Request>, back: set<Request>,
    pending: map<AckId, nat>, fired: multiset<nat>, failed: set<nat>, crashed: bool)

  datatype Step =
    | Ask
    | Written(r: Request)
    | Answer(r: Request, reply: bool)
    | Acked(r: Request)
    | FailSend(r: Request)
    | FailAck(id: AckId)

  function Init(): State {
    State(1, 0, {}, {}, {}, map[], multiset{}, {}, false)
  }

  predicate Enabled(s: State, a: Step) {
    && !s.crashed
    && match a
       case Ask => true
       case Written(r) => r in s.queue
       case Answer(r, _) => r in s.wire
       case Acked(r) => r in s.back
       case FailSend(r) => r in s.queue
       case FailAck(id) => id in s.pending
  }

  /** The last byte of a request is written and its callback is registered under one lock. */
  function WriteLast(s: State, r: Request): State {
    if r.id in s.pending then s.(crashed := true)
    else s.(queue := s.queue - {r}, wire := s.wire + {r}, pending := s.pending[r.id := r.serial])
  }

  /** handle_ack() */
  function HandleAck(s: State, r: Request): State {
    var t := s.(back := s.back - {r});
    if r.id in s.pending then t.(pending := s.pending - {r.id}, fired := s.fired + multiset{s.pending[r.id]})
    else t
  }

  function Next(s: State, a: Step): State
    requires Enabled(s, a)
  {
    match a
    case Ask => s.(next := Following(s.next), count := s.count + 1, queue := s.queue + {Request(s.next, s.count)})
    case Written(r) => WriteLast(s, r)
    case Answer(r, reply) => s.(wire := s.wire - {r}, back := if reply then s.back + {r} else s.back)
    case Acked(r) => HandleAck(s, r)
    case FailSend(r) =>
      s.(queue := s.queue - {r}, fired := s.fired + multiset{r.serial}, failed := s.failed + {r.serial})
    case FailAck(id) =>
      var m := s.pending[id];
      s.(pending := s.pending - {id}, fired := s.fired + multiset{m}, failed := s.failed + {m})
  }

  // ---------------------------------------------------------------- the invariant

  ghost predicate Numbered(s: State, rs: set<Request>) {
    forall r :: r in rs ==> r.serial < s.count && r.id == IdOf(r.serial)
  }

  ghost predicate Has(rs: set<Request>, m: nat) {
    Request(IdOf(m), m) in rs
  }

  ghost predicate Pending(s: State, m: nat) {
    IdOf(m) in s.pending && s.pending[IdOf(m)] == m
  }

  /** Each request is in one place: not yet written, waiting for its ack, or finished with one call. */
  ghost predicate Placed(s: State, m: nat) {
    && (Has(s.queue, m) ==> !Pending(s, m) && s.fired[m] == 0)
    && (Pending(s, m) ==> s.fired[m] == 0)
    && s.fired[m] <= 1
    && (m < s.count <==> Has(s.queue, m) || Pending(s, m) || s.fired[m] == 1)
  }

  /** What is on the wire, in either direction, has its callback registered, unless the connection broke meanwhile. */
  ghost predicate Awaited(s: State, m: nat) {
    && (m in s.failed ==> s.fired[m] == 1)
    && (Has(s.wire, m) || Has(s.back, m) ==> Pending(s, m) || m in s.failed)
    && !(Has(s.wire, m) && Has(s.back, m))
  }

  ghost predicate Inv(s: State) {
    && s.next == IdOf(s.count)
    && Numbered(s, s.queue) && Numbered(s, s.wire) && Numbered(s, s.back)
    && (forall id :: id in s.pending ==> s.pending[id] < s.count && id == IdOf(s.pending[id]))
    && (forall m: nat :: Placed(s, m) && Awaited(s, m))
  }

  /** No request or answer is outstanding for as long as a whole cycle of identifiers takes. */
  ghost predicate Window(s: State) {
    && (forall r :: r in s.queue || r in s.back ==> s.count - r.serial <= CYCLE)
    && (forall id :: id in s.pending ==> s.count - s.pending[id] <= CYCLE)
  }

  lemma InvAsk(s: State)
    requires Inv(s) && !s.crashed
    ensures Inv(Next(s, Ask))
  {
    var t := Next(s, Ask);
    FollowingIdOf(s.count);
    forall m: nat ensures Placed(t, m) && Awaited(t, m) {
      assert Placed(s, m) && Awaited(s, m);
    }
  }

  lemma SameIdEither(m: nat, n: nat)
    ensures IdOf(m) == IdOf(n) <==> (m - n) % CYCLE == 0
  {
    if m <= n {
      SameIdExactly(m, n);
      assert (m - n) % CYCLE == 0 <==> (n - m) % CYCLE == 0;
    } else {
      SameIdExactly(n, m);
    }
  }

  lemma RegisterHolds(s: State, r: Request)
    requires Inv(s) && Window(s) && Enabled(s, Written(r))
    ensures r.id !in s.pending
  {
    if r.id in s.pending {
      var m := s.pending[r.id];
      assert Placed(s, r.serial) && Pending(s, m);
      SameIdExactly(if m < r.serial then m else r.serial, if m < r.serial then r.serial else m);
    }
  }

  lemma InvWritten(s: State, r: Request)
    requires Inv(s) && Window(s) && Enabled(s, Written(r))
    ensures Inv(Next(s, Written(r))) && !Next(s, Written(r)).crashed
  {
    var t := Next(s, Written(r));
    RegisterHolds(s, r);
    forall m: nat ensures Placed(t, m) && Awaited(t, m) {
      assert Placed(s, m) && Awaited(s, m);
    }
  }

  /** An ack finds the callback of its own request, unless that was called already because the connection broke; then
      it finds none. */
  lemma AckFinds(s: State, r: Request)
    requires Inv(s) && Window(s) && Enabled(s, Acked(r))
    ensures if r.serial in s.failed then r.id !in s.pending
            else r.id in s.pending && s.pending[r.id] == r.serial
  {
    var n := r.serial;
    assert Awaited(s, n) && Placed(s, n);
    if r.id in s.pending {
      var m := s.pending[r.id];
      assert Pending(s, m) && Placed(s, m);
      SameIdExactly(if m < n then m else n, if m < n then n else m);
    }
  }

  lemma InvAcked(s: State, r: Request)
    requires Inv(s) && Window(s) && Enabled(s, Acked(r))
    ensures Inv(Next(s, Acked(r)))
  {
    var t := Next(s, Acked(r));
    AckFinds(s, r);
    forall m: nat ensures Placed(t, m) && Awaited(t, m) {
      assert Placed(s, m) && Awaited(s, m);
    }
  }

  lemma InvAnswer(s: State, a: Step)
    requires Inv(s) && Enabled(s, a) && a.Answer?
    ensures Inv(Next(s, a))
  {
    forall m: nat ensures Placed(Next(s, a), m) && Awaited(Next(s, a), m) {
      assert Placed(s, m) && Awaited(s, m);
    }
  }

  lemma InvFail(s: State, a: Step)
    requires Inv(s) && Enabled(s, a) && (a.FailSend? || a.FailAck?)
    ensures Inv(Next(s, a))
  {
    forall m: nat ensures Placed(Next(s, a), m) && Awaited(Next(s, a), m) {
      assert Placed(s, m) && Awaited(s, m);
    }
  }

  lemma InvStep(s: State, a: Step)
    requires Inv(s) && Window(s) && Enabled(s, a)
    ensures Inv(Next(s, a)) && !Next(s, a).crashed
  {
    match a
    case Ask => InvAsk(s);
    case Written(r) => InvWritten(s, r);
    case Answer(_, _) => InvAnswer(s, a);
    case Acked(r) => InvAcked(s, r);
    case FailSend(_) => InvFail(s, a);
    case FailAck(_) => InvFail(s, a);
  }

  // ---------------------------------------------------------------- every run

  ghost predicate Runs(s: State, steps: seq<Step>, s': State)
    decreases |steps|
  {
    if steps == [] then s == s' else Enabled(s, steps[0]) && Runs(Next(s, steps[0]), steps[1..], s')
  }

  /** A run in whose every state the window holds. */
  ghost predicate RunsWithin(s: State, steps: seq<Step>, s': State)
    decreases |steps|
  {
    Window(s) &&
    if steps == [] then s == s' else Enabled(s, steps[0]) && RunsWithin(Next(s, steps[0]), steps[1..], s')
  }

  lemma {:induction false} InvRun(s: State, steps: seq<Step>, s': State)
    requires Inv(s) && !s.crashed && RunsWithin(s, steps, s')
    ensures Inv(s') && Window(s') && !s'.crashed
    decreases |steps|
  {
    if steps != [] {
      InvStep(s, steps[0]);
      InvRun(Next(s, steps[0]), steps[1..], s');
    }
  }

  lemma InitInv()
    ensures Inv(Init()) && Window(Init())
  {
  }

  // ---------------------------------------------------------------- every run at all

  /** What holds however long a request is outstanding: requests are numbered, each is in one place, and what is on the
      wire has been written. */
  ghost predicate Basic(s: State) {
    && s.next == IdOf(s.count)
    && Numbered(s, s.queue) && Numbered(s, s.wire) && Numbered(s, s.back)
    && (forall id :: id in s.pending ==> s.pending[id] < s.count && id == IdOf(s.pending[id]))
    && (forall m: nat :: Placed(s, m) && OnWire(s, m))
  }

  ghost predicate OnWire(s: State, m: nat) {
    Has(s.wire, m) || Has(s.back, m) ==> !Has(s.queue, m)
  }

  lemma BasicAsk(s: State)
    requires Basic(s) && !s.crashed
    ensures Basic(Next(s, Ask))
  {
    var t := Next(s, Ask);
    FollowingIdOf(s.count);
    forall m: nat ensures Placed(t, m) && OnWire(t, m) {
      assert Placed(s, m) && OnWire(s, m);
    }
  }

  lemma BasicWritten(s: State, r: Request)
    requires Basic(s) && Enabled(s, Written(r))
    ensures Basic(Next(s, Written(r)))
  {
    var t := Next(s, Written(r));
    forall m: nat ensures Placed(t, m) && OnWire(t, m) {
      assert Placed(s, m) && OnWire(s, m);
    }
  }

  lemma BasicAcked(s: State, r: Request)
    requires Basic(s) && Enabled(s, Acked(r))
    ensures Basic(Next(s, Acked(r)))
  {
    var t := Next(s, Acked(r));
    forall m: nat ensures Placed(t, m) && OnWire(t, m) {
      assert Placed(s, m) && OnWire(s, m);
    }
  }

  lemma BasicOther(s: State, a: Step)
    requires Basic(s) && Enabled(s, a) && (a.Answer? || a.FailSend? || a.FailAck?)
    ensures Basic(Next(s, a))
  {
    forall m: nat ensures Placed(Next(s, a), m) && OnWire(Next(s, a), m) {
      assert Placed(s, m) && OnWire(s, m);
    }
  }

  lemma BasicStep(s: State, a: Step)
    requires Basic(s) && Enabled(s, a)
    ensures Basic(Next(s, a))
  {
    match a
    case Ask => BasicAsk(s);
    case Written(r) => BasicWritten(s, r);
    case Acked(r) => BasicAcked(s, r);
    case _ => BasicOther(s, a);
  }

  lemma {:induction false} BasicRun(s: State, steps: seq<Step>, s': State)
    requires Basic(s) && Runs(s, steps, s')
    ensures Basic(s')
    decreases |steps|
  {
    if steps != [] {
      BasicStep(s, steps[0]);
      BasicRun(Next(s, steps[0]), steps[1..], s');
    }
  }

  lemma ReachableBasic(steps: seq<Step>, s: State)
    requires Runs(Init(), steps, s)
    ensures Basic(s)
  {
    BasicRun(Init(), steps, s);
  }

  /** In every run each callback is called at most once, and every request is queued, waiting or called. */
  lemma AtMostOnce(steps: seq<Step>, s: State, m: nat)
    requires Runs(Init(), steps, s)
    ensures s.fired[m] <= 1
    ensures m < s.count <==> Has(s.queue, m) || Pending(s, m) || s.fired[m] == 1
    ensures Pending(s, m) ==> s.fired[m] == 0 && !Has(s.queue, m)
    ensures Has(s.queue, m) ==> s.fired[m] == 0
  {
    ReachableBasic(steps, s);
    assert Placed(s, m);
  }

  /** In every run the assertion in register_ack() fails exactly when a request with the same identifier is waiting for
      its ack, which then is a whole number of cycles older or newer. */
  lemma RegisterExactly(steps: seq<Step>, s: State, r: Request)
    requires Runs(Init(), steps, s) && Enabled(s, Written(r))
    ensures Next(s, Written(r)).crashed <==> exists m: nat :: Pending(s, m) && (m - r.serial) % CYCLE == 0
    ensures !Pending(s, r.serial)
  {
    ReachableBasic(steps, s);
    assert Placed(s, r.serial);
    if r.id in s.pending {
      var m := s.pending[r.id];
      SameIdEither(m, r.serial);
      assert Pending(s, m);
    }
    if m: nat :| Pending(s, m) && (m - r.serial) % CYCLE == 0 {
      SameIdEither(m, r.serial);
    }
  }

  /** In every run an ack is for a request whose callback has been registered, and has been called if it is not
      waiting. The ack calls the callback of its own request exactly when that is waiting, and otherwise that of a
      request a whole number of cycles away, if there is one. */
  lemma AckExactly(steps: seq<Step>, s: State, r: Request)
    requires Runs(Init(), steps, s) && Enabled(s, Acked(r))
    ensures !Has(s.queue, r.serial) && (Pending(s, r.serial) || s.fired[r.serial] == 1)
    ensures Next(s, Acked(r)).fired == s.fired + multiset{r.serial} <==> Pending(s, r.serial)
    ensures Next(s, Acked(r)).fired == s.fired <==> !exists m: nat :: Pending(s, m) && (m - r.serial) % CYCLE == 0
  {
    ReachableBasic(steps, s);
    assert Placed(s, r.serial) && OnWire(s, r.serial);
    AckCalls(s, r);
    if r.id in s.pending {
      var m := s.pending[r.id];
      SameIdEither(m, r.serial);
      assert Pending(s, m);
    }
    if m: nat :| Pending(s, m) && (m - r.serial) % CYCLE == 0 {
      SameIdEither(m, r.serial);
    }
  }

  /** Which callback an ack calls. */
  lemma AckCalls(s: State, r: Request)
    requires r.id == IdOf(r.serial)
    ensures HandleAck(s, r).fired == s.fired <==> r.id !in s.pending
    ensures HandleAck(s, r).fired == s.fired + multiset{r.serial} <==> Pending(s, r.serial)
  {
    var f := HandleAck(s, r).fired;
    assert f == s.fired ==> f[r.serial] != (s.fired + multiset{r.serial})[r.serial];
    if r.id in s.pending {
      var m := s.pending[r.id];
      assert f[m] == s.fired[m] + 1;
      if m != r.serial {
        assert f[r.serial] == s.fired[r.serial];
      }
    }
  }

  /** When the connection breaks, what was not written and what is waiting is called once, and is then neither. */
  lemma FailCalls(steps: seq<Step>, s: State, a: Step)
    requires Runs(Init(), steps, s) && Enabled(s, a) && (a.FailSend? || a.FailAck?)
    ensures var m := if a.FailSend? then a.r.serial else s.pending[a.id];
            && s.fired[m] == 0 && Next(s, a).fired == s.fired + multiset{m}
            && !Has(Next(s, a).queue, m) && !Pending(Next(s, a), m)
    ensures Next(s, a).next == s.next && Next(s, a).wire == s.wire && Next(s, a).back == s.back
  {
    ReachableBasic(steps, s);
    BasicStep(s, a);
    var m := if a.FailSend? then a.r.serial else s.pending[a.id];
    assert Placed(s, m) && Placed(Next(s, a), m);
    assert a.FailAck? ==> Pending(s, m);
  }

  // ---------------------------------------------------------------- runs within the window

  /** As long as nothing is outstanding for a whole cycle the assertion in register_ack() holds. */
  lemma NeverCrashes(steps: seq<Step>, s: State)
    requires RunsWithin(Init(), steps, s)
    ensures !s.crashed && forall r :: Enabled(s, Written(r)) ==> !Next(s, Written(r)).crashed
  {
    InitInv();
    InvRun(Init(), steps, s);
    forall r | Enabled(s, Written(r)) ensures !Next(s, Written(r)).crashed {
      InvWritten(s, r);
    }
  }

  /** ... and an ack finds the callback of its own request waiting, unless that was failed before; then it finds
      none. */
  lemma RegisteredBeforeAck(steps: seq<Step>, s: State, r: Request)
    requires RunsWithin(Init(), steps, s) && Enabled(s, Acked(r))
    ensures if r.serial in s.failed then Next(s, Acked(r)).fired == s.fired
            else Pending(s, r.serial) && Next(s, Acked(r)).fired == s.fired + multiset{r.serial}
  {
    InitInv();
    InvRun(Init(), steps, s);
    AckFinds(s, r);
  }

  lemma {:induction false} UnwrappedWithin(s: State, steps: seq<Step>, s': State)
    requires Inv(s) && !s.crashed && Runs(s, steps, s') && s'.count <= CYCLE
    ensures RunsWithin(s, steps, s') && s.count <= s'.count
    decreases |steps|
  {
    if steps != [] {
      var t := Next(s, steps[0]);
      CountGrows(t, steps[1..], s');
      assert Window(s);
      InvStep(s, steps[0]);
      UnwrappedWithin(t, steps[1..], s');
    }
  }

  /** Before the counter wraps every run is within the window. */
  lemma Unwrapped(steps: seq<Step>, s: State)
    requires Runs(Init(), steps, s) && s.count <= CYCLE
    ensures RunsWithin(Init(), steps, s) && !s.crashed
  {
    InitInv();
    UnwrappedWithin(Init(), steps, s);
    NeverCrashes(steps, s);
  }

  lemma {:induction false} CountGrows(s: State, steps: seq<Step>, s': State)
    requires Runs(s, steps, s')
    ensures s.count <= s'.count
    decreases |steps|
  {
    if steps != [] {
      CountGrows(Next(s, steps[0]), steps[1..], s');
    }
  }

  // ---------------------------------------------------------------- when the window does not hold

  /** The first request waits for its answer, and n more have been made and answered. */
  function Stuck(n: nat): State {
    State(IdOf(n + 1), n + 1, {}, {Request(1, 0)}, {}, map[1 := 0],
          multiset(seq(n, i requires 0 <= i < n => i + 1)), {}, false)
  }

  function Round(n: nat): seq<Step> {
    var r := Request(IdOf(n + 1), n + 1);
    [Ask, Written(r), Answer(r, true), Acked(r)]
  }

  lemma StuckRound(n: nat)
    requires n + 1 < CYCLE
    ensures Runs(Stuck(n), Round(n), Stuck(n + 1))
  {
    var s, r := Stuck(n), Request(IdOf(n + 1), n + 1);
    FollowingIdOf(n + 1);
    var s1 := Next(s, Ask);
    assert s1.queue == {r};
    var s2 := Next(s1, Written(r));
    assert r.id != 1;
    assert s2.queue == {} && s2.wire == {Request(1, 0), r} && s2.pending == map[1 := 0, r.id := n + 1];
    var s3 := Next(s2, Answer(r, true));
    assert s3.wire == {Request(1, 0)} && s3.back == {r};
    var s4 := Next(s3, Acked(r));
    assert s4.pending == map[1 := 0] && s4.back == {};
    var a, b := seq(n, i requires 0 <= i < n => i + 1), seq(n + 1, i requires 0 <= i < n + 1 => i + 1);
    assert b == a + [n + 1];
    assert s4 == Stuck(n + 1);
    var steps := Round(n);
    assert steps[1..] == [Written(r), Answer(r, true), Acked(r)];
    assert steps[1..][1..] == [Answer(r, true), Acked(r)];
    assert steps[1..][1..][1..] == [Acked(r)];
    assert Runs(s4, [], s4) && Runs(s3, [Acked(r)], s4);
    assert Runs(s2, steps[1..][1..], s4);
    assert Runs(s1, steps[1..], s4);
  }

  lemma {:induction false} RunsConcat(s: State, a: seq<Step>, t: State, b: seq<Step>, u: State)
    requires Runs(s, a, t) && Runs(t, b, u)
    ensures Runs(s, a + b, u)
    decreases |a|
  {
    if a == [] {
      assert a + b == b;
    } else {
      assert (a + b)[1..] == a[1..] + b;
      RunsConcat(Next(s, a[0]), a[1..], t, b, u);
    }
  }

  lemma {:induction false} StuckRuns(n: nat) returns (steps: seq<Step>)
    requires n < CYCLE
    ensures Runs(Stuck(0), steps, Stuck(n))
  {
    if n == 0 {
      return [];
    }
    steps := StuckRuns(n - 1);
    StuckRound(n - 1);
    RunsConcat(Stuck(0), steps, Stuck(n - 1), Round(n - 1), Stuck(n));
    steps := steps + Round(n - 1);
  }

  lemma FirstStuck()
    ensures Runs(Init(), [Ask, Written(Request(1, 0))], Stuck(0))
  {
    var r := Request(1, 0);
    var s1 := Next(Init(), Ask);
    assert s1.queue == {r};
    var s2 := Next(s1, Written(r));
    assert s2 == Stuck(0);
    assert [Ask, Written(r)][1..] == [Written(r)] && [Written(r)][1..] == [];
    assert Runs(s2, [], s2) && Runs(s1, [Written(r)], s2);
  }

  /** One unanswered request and 2^32 - 1 answered ones lead to a failing assertion: the counter wraps onto it. */
  lemma AssertionFailsAfterWrap()
    ensures exists steps, s :: Runs(Init(), steps, s) && s.crashed
  {
    var n := CYCLE - 1;
    var steps := StuckRuns(n);
    FirstStuck();
    RunsConcat(Init(), [Ask, Written(Request(1, 0))], Stuck(0), steps, Stuck(n));
    var before := [Ask, Written(Request(1, 0))] + steps;
    var s, r := Stuck(n), Request(1, n + 1);
    var s1 := Next(s, Ask);
    assert r in s1.queue;
    var s2 := Next(s1, Written(r));
    assert [Ask, Written(r)][1..] == [Written(r)] && [Written(r)][1..] == [];
    assert Runs(s2, [], s2) && Runs(s1, [Written(r)], s2);
    assert Runs(s, [Ask, Written(r)], s2);
    RunsConcat(Init(), before, s, [Ask, Written(r)], s2);
  }

  // ---------------------------------------------------------------- the fields of struct Peer

  datatype Option<T> = None | Some(value: T)

  /** The counter and the table of struct Peer; a callback goes by the serial number of its request. */
  class AckTable {
    var nextAckId: AckId
    var pendingAcks: map<AckId, nat>

    /** These are the fields of the protocol state s. */
    ghost predicate Of(s: State)
      reads this
    {
      nextAckId == s.next && pendingAcks == s.pending
    }

    constructor ()
      ensures Of(Init())
    {
      nextAckId, pendingAcks := 1, map[];
    }

    method AllocAckId(ghost s: State) returns (id: AckId)
      requires Of(s) && Enabled(s, Ask)
      modifies this`nextAckId
      ensures Of(Next(s, Ask)) && Next(s, Ask).queue == s.queue + {Request(id, s.count)}
    {
      id := nextAckId;
      var n := (nextAckId + 1) % LIMIT;
      if n == 0 {
        n := n + 1;
      }
      nextAckId := n;
    }

    /** The assertion holds exactly in the steps of the protocol that do not crash. */
    method RegisterAck(ghost s: State, r: Request) returns (holds: bool)
      requires Of(s) && Enabled(s, Written(r))
      modifies this`pendingAcks
      ensures holds <==> !Next(s, Written(r)).crashed
      ensures Of(Next(s, Written(r)))
    {
      holds := r.id !in pendingAcks;
      if holds {
        pendingAcks := pendingAcks[r.id := r.serial];
      }
    }

    /** One turn of the loop of peer_destroy() over the table. */
    method FailOne(ghost s: State) returns (id: AckId, callback: nat)
      requires Of(s) && !s.crashed && pendingAcks != map[]
      modifies this`pendingAcks
      ensures id in old(pendingAcks) && callback == old(pendingAcks)[id]
      ensures pendingAcks == old(pendingAcks) - {id}
      ensures Of(Next(s, FailAck(id))) && Next(s, FailAck(id)).fired == s.fired + multiset{callback}
    {
      id :| id in pendingAcks;
      callback := pendingAcks[id];
      pendingAcks := pendingAcks - {id};
    }

    /** handle_ack(): the callback to call, which is no longer in the table. */
    method TakeAck(ghost s: State, r: Request) returns (callback: Option<nat>)
      requires Of(s) && Enabled(s, Acked(r))
      modifies this`pendingAcks
      ensures Of(Next(s, Acked(r)))
      ensures Next(s, Acked(r)).fired == if callback.Some? then s.fired + multiset{callback.value} else s.fired
    {
      if r.id !in pendingAcks {
        return None;
      }
      callback := Some(pendingAcks[r.id]);
      pendingAcks := pendingAcks - {r.id};
    }
  }
}
