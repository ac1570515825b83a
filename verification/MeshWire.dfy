/** What the session model takes a connection to be, and that a connection is that: a HIGH priority queue, at most one
    greeting held at MEDIUM priority, and a FIFO between sending and handling.
 */
module MeshWire {
  import opened GroupProtocol
  import opened Mesh
  import opened MeshLinks
  import opened MeshSteps
  import MeshSound
  import T = MeshTheorems
  import C = Connection
  import Q = SendQueue

  datatype Pipe<T> = Pipe(out: seq<T>, held: Q.Option<T>, wire: seq<T>)

  /** One move: messages are queued, the greeting is held back, the first of the queue is sent, the greeting is sent if
      the queue is empty, or the first on the wire is handled. */
  ghost predicate Moves<T(!new)>(c: Pipe<T>, c': Pipe<T>) {
    || (exists e :: c' == c.(out := c.out + e))
    || (exists e, m :: c.held.None? && c' == c.(out := c.out + e, held := Q.Some(m)))
    || (c.out != [] && c' == Pipe(c.out[1..], c.held, c.wire + [c.out[0]]))
    || (c.out == [] && c.held.Some? && c' == Pipe([], Q.None, c.wire + [c.held.value]))
    || (c.wire != [] && c' == c.(wire := c.wire[1..]))
  }

  lemma Stays<T(!new)>(c: Pipe<T>)
    ensures Moves(c, c)
  {
    assert c.out + [] == c.out;
  }

  // ---------------------------------------------------------------- the session

  /** The connection from p to q as the session model has it. */
  function Of(s: State, p: PlayerId, q: PlayerId): Pipe<Message> {
    if p in s.nodes then
      Pipe(Out(s.nodes[p], q), if q in s.nodes[p].held then Q.Some(s.nodes[p].held[q]) else Q.None, Wire(s, p, q))
    else Pipe([], Q.None, Wire(s, p, q))
  }

  lemma LocalMoves(s: State, t: State, a: PlayerId, n': Node, from: PlayerId, p: PlayerId, q: PlayerId)
    requires Local(s, t, a, n', from) && n'.held == s.nodes[a].held
    ensures Moves(Of(s, p, q), Of(t, p, q))
  {
    var c, c' := Of(s, p, q), Of(t, p, q);
    if p == a {
      var e := Extra(s.nodes[a], n', q);
      assert Out(n', q) == Out(s.nodes[a], q) + e;
      assert c' == c.(out := c.out + e);
    } else if p == from && q == a {
      assert c' == c.(wire := c.wire[1..]);
    } else {
      Stays(c);
    }
  }

  lemma LinkMoves(s: State, a: Step, t: State, p: PlayerId, q: PlayerId)
    requires LinkedTo(s, a, t)
    ensures Moves(Of(s, p, q), Of(t, p, q))
  {
    var c, c' := Of(s, p, q), Of(t, p, q);
    if p == a.r && q == a.q {
      var n := s.nodes[p];
      var e := Snapshot(n, a.ds, a.cs) + [Welcome(MemberOf(n, p), {})];
      assert (c.out + Snapshot(n, a.ds, a.cs)) + [Welcome(MemberOf(n, p), {})] == c.out + e;
      assert c' == c.(out := c.out + e);
    } else {
      Stays(c);
    }
  }

  lemma LetInMoves(s: State, a: Step, t: State, p: PlayerId, q: PlayerId)
    requires LetInTo(s, a, t) && LinkOk(s, HOST, s.nodes[HOST].next) && LinkOk(s, HOST, HOST)
    ensures Moves(Of(s, p, q), Of(t, p, q))
  {
    var c, c', x := Of(s, p, q), Of(t, p, q), s.nodes[HOST].next;
    if p == HOST && q == x {
      var e, m := Snapshot(s.nodes[HOST], a.ds, a.cs), Welcome(MemberOf(s.nodes[HOST], HOST), s.nodes[HOST].conn - {x});
      assert c.held.None? && c' == c.(out := c.out + e, held := Q.Some(m));
    } else if p == x {
      assert Out(Joiner(), q) == [];
      Stays(c);
    } else {
      Stays(c);
    }
  }

  lemma TransmitMoves(s: State, a: Step, build: Build, p: PlayerId, q: PlayerId)
    requires Enabled(s, a) && a.Transmit?
    ensures Moves(Of(s, p, q), Of(Next(s, a, build), p, q))
  {
    var c, c' := Of(s, p, q), Of(Next(s, a, build), p, q);
    SentOut(s.nodes[a.p], a.q, q);
    if p == a.p && q == a.q {
      assert c' == Pipe(c.out[1..], c.held, c.wire + [c.out[0]]);
    } else {
      assert c' == c;
      Stays(c);
    }
  }

  lemma PromoteMoves(s: State, a: Step, build: Build, p: PlayerId, q: PlayerId)
    requires Enabled(s, a) && a.Promote?
    ensures Moves(Of(s, p, q), Of(Next(s, a, build), p, q))
  {
    var c, c' := Of(s, p, q), Of(Next(s, a, build), p, q);
    if p == HOST && q == a.q {
      assert c' == Pipe([], Q.None, c.wire + [c.held.value]);
    } else {
      assert c' == c;
      Stays(c);
    }
  }

  lemma OtherMoves(s: State, a: Step, build: Build, p: PlayerId, q: PlayerId)
    requires Links(s) && Enabled(s, a) && (a.LetIn? || a.Link? || a.Transmit? || a.Promote?)
    ensures Moves(Of(s, p, q), Of(Next(s, a, build), p, q))
  {
    var t := Next(s, a, build);
    if a.LetIn? {
      LetInSteps(s, a, build);
      assert LinkOk(s, HOST, s.nodes[HOST].next) && LinkOk(s, HOST, HOST);
      LetInMoves(s, a, t, p, q);
    } else if a.Link? {
      LinkSteps(s, a, build);
      LinkMoves(s, a, t, p, q);
    } else if a.Transmit? {
      TransmitMoves(s, a, build, p, q);
    } else {
      PromoteMoves(s, a, build, p, q);
    }
  }

  lemma QuietMoves(s: State, a: Step, build: Build, p: PlayerId, q: PlayerId)
    requires Links(s) && Enabled(s, a) && IsQuiet(s, a, build)
    requires a.Erase? ==> s.nodes[a.p].erasing <= s.nodes[a.p].tombs
    ensures Moves(Of(s, p, q), Of(Next(s, a, build), p, q))
  {
    QuietSteps(s, a, build);
    LocalMoves(s, Next(s, a, build), Actor(a), After(s, a), Source(s, a), p, q);
  }

  lemma GreetedMoves(s: State, a: Step, t: State, p: PlayerId, q: PlayerId)
    requires GreetedTo(s, a, t)
    ensures Moves(Of(s, p, q), Of(t, p, q))
  {
    LocalMoves(s, t, a.q, Welcomed(s.nodes[a.q], a.q, a.p, Wire(s, a.p, a.q)[0]), a.p, p, q);
  }

  lemma SameMoves(s: State, t: State, p: PlayerId, q: PlayerId)
    requires T.Same(s, t)
    ensures Moves(Of(s, p, q), Of(t, p, q))
  {
    Stays(Of(s, p, q));
  }

  lemma LinkedMoves(s: State, a: Step, build: Build, p: PlayerId, q: PlayerId)
    requires Links(s) && Enabled(s, a) && !IsQuiet(s, a, build)
    ensures Moves(Of(s, p, q), Of(Next(s, a, build), p, q))
  {
    if a.Deliver? {
      GreetingSteps(s, a, build);
      GreetedMoves(s, a, Next(s, a, build), p, q);
    } else if a.Resume? {
      T.CrashSame(s, a, build);
      SameMoves(s, Next(s, a, build), p, q);
    } else {
      OtherMoves(s, a, build, p, q);
    }
  }

  /** In every run every step of the session makes one such move on every connection. */
  lemma SessionMoves(s: State, steps: seq<Step>, build: Build, a: Step, p: PlayerId, q: PlayerId)
    requires T.Reachable(s, steps, build) && Enabled(s, a)
    ensures Moves(Of(s, p, q), Of(Next(s, a, build), p, q))
  {
    T.ReachableInv(s, steps, build);
    if IsQuiet(s, a, build) {
      if a.Erase? { MeshSound.ErasingBuried(s, a); }
      QuietMoves(s, a, build, p, q);
    } else {
      LinkedMoves(s, a, build, p, q);
    }
  }

  // ---------------------------------------------------------------- the connection

  /** The operations that carry the session's messages, among all that go over the connection. */
  function Ours(ops: seq<Q.Op>, ids: set<nat>): seq<Q.Op> {
    if ops == [] then [] else (if ops[0].id in ids then [ops[0]] else []) + Ours(ops[1..], ids)
  }

  function Ops(cs: seq<C.Chosen>): (r: seq<Q.Op>)
    ensures |r| == |cs| && forall i :: 0 <= i < |cs| ==> r[i] == cs[i].op
  {
    seq(|cs|, i requires 0 <= i < |cs| => cs[i].op)
  }

  /** Sent and not yet handled. */
  function Flying(s: C.State): seq<C.Chosen> {
    if |s.dispatched| <= |s.chosen| then s.chosen[|s.dispatched|..] else []
  }

  /** The connection as the session sees it. */
  function See(s: C.State, ids: set<nat>): Pipe<Q.Op> {
    var held := Ours(s.log.q.medium, ids);
    Pipe(Ours(s.log.q.high, ids), if held == [] then Q.None else Q.Some(held[0]), Ours(Ops(Flying(s)), ids))
  }

  /** The session's messages are not the application's to cancel, and go out at HIGH, but for one greeting at MEDIUM. */
  ghost predicate Proper(s: C.State, ids: set<nat>) {
    && (forall op :: op in s.log.q.low ==> op.id !in ids)
    && |Ours(s.log.q.medium, ids)| <= 1
    && (forall op :: (op in s.log.q.medium || op in s.log.q.high) && op.id in ids ==> op.handle == 0)
  }

  ghost predicate Well(s: C.State, a: C.Step, ids: set<nat>) {
    a.Enqueue? && a.op.id in ids ==>
      a.op.handle == 0 && (a.pri == Q.High || (a.pri == Q.Medium && Ours(s.log.q.medium, ids) == []))
  }

  lemma {:induction false} OursConcat(a: seq<Q.Op>, b: seq<Q.Op>, ids: set<nat>)
    ensures Ours(a + b, ids) == Ours(a, ids) + Ours(b, ids)
  {
    if a == [] {
      assert a + b == b;
    } else {
      assert (a + b)[1..] == a[1..] + b;
      OursConcat(a[1..], b, ids);
    }
  }

  lemma OursOne(op: Q.Op, ids: set<nat>)
    ensures Ours([op], ids) == if op.id in ids then [op] else []
  {
    assert [op][1..] == [];
  }

  lemma {:induction false} OursNone(ops: seq<Q.Op>, ids: set<nat>)
    requires forall op :: op in ops ==> op.id !in ids
    ensures Ours(ops, ids) == []
  {
    if ops != [] {
      OursNone(ops[1..], ids);
    }
  }

  /** Taking out an operation that is not ours changes nothing for us. */
  lemma OursCut(ops: seq<Q.Op>, i: nat, ids: set<nat>)
    requires i < |ops| && ops[i].id !in ids
    ensures Ours(ops[..i] + ops[i + 1..], ids) == Ours(ops, ids)
  {
    assert ops == (ops[..i] + [ops[i]]) + ops[i + 1..];
    OursConcat(ops[..i] + [ops[i]], ops[i + 1..], ids);
    OursConcat(ops[..i], [ops[i]], ids);
    OursConcat(ops[..i], ops[i + 1..], ids);
    OursOne(ops[i], ids);
  }

  lemma OursHead(ops: seq<Q.Op>, ids: set<nat>)
    requires ops != []
    ensures Ours(ops, ids) == (if ops[0].id in ids then [ops[0]] else []) + Ours(ops[1..], ids)
  {
  }

  lemma OursLast(ops: seq<Q.Op>, op: Q.Op, ids: set<nat>)
    ensures Ours(ops + [op], ids) == Ours(ops, ids) + if op.id in ids then [op] else []
  {
    OursConcat(ops, [op], ids);
    OursOne(op, ids);
  }

  // ---------------------------------------------------------------- choosing what to send next

  lemma FlyingMore(s: C.State, c: C.Chosen, ids: set<nat>)
    requires |s.dispatched| <= |s.chosen|
    ensures Ours(Ops(Flying(s.(chosen := s.chosen + [c]))), ids)
         == Ours(Ops(Flying(s)), ids) + if c.op.id in ids then [c.op] else []
  {
    assert (s.chosen + [c])[|s.dispatched|..] == s.chosen[|s.dispatched|..] + [c];
    assert Ops(Flying(s) + [c]) == Ops(Flying(s)) + [c.op];
    OursLast(Ops(Flying(s)), c.op, ids);
  }

  /** The queues and the wire after the first of a class has been chosen. */
  lemma ChosenFrom(s: C.State, pri: Q.Priority, ids: set<nat>)
    requires s.log.q.current.None? && Q.NextClass(s.log.q) == Q.Some(pri) && |s.dispatched| <= |s.chosen|
    ensures var t, op := C.Promote(s), Q.Of(s.log.q, pri)[0];
            && Q.Of(t.log.q, pri) == Q.Of(s.log.q, pri)[1..]
            && (forall r :: r != pri ==> Q.Of(t.log.q, r) == Q.Of(s.log.q, r))
            && See(t, ids).wire == See(s, ids).wire + if op.id in ids then [op] else []
  {
    Q.PickHighest(s.log.q);
    FlyingMore(s, C.Chosen(pri, Q.Of(s.log.q, pri)[0]), ids);
    var t := C.Promote(s);
    assert Flying(t) == Flying(s.(chosen := t.chosen));
  }

  lemma ChooseHigh(s: C.State, ids: set<nat>)
    requires Proper(s, ids) && |s.dispatched| <= |s.chosen| && s.log.q.current.None? && s.log.q.high != []
    ensures Moves(See(s, ids), See(C.Promote(s), ids)) && Proper(C.Promote(s), ids)
  {
    var t, c, c' := C.Promote(s), See(s, ids), See(C.Promote(s), ids);
    ChosenFrom(s, Q.High, ids);
    assert Q.Of(s.log.q, Q.High) == s.log.q.high && Q.Of(t.log.q, Q.High) == t.log.q.high;
    assert Q.Of(t.log.q, Q.Medium) == Q.Of(s.log.q, Q.Medium) && Q.Of(t.log.q, Q.Low) == Q.Of(s.log.q, Q.Low);
    OursHead(s.log.q.high, ids);
    if s.log.q.high[0].id in ids {
      assert c' == Pipe(c.out[1..], c.held, c.wire + [c.out[0]]);
    } else {
      assert c' == c;
      Stays(c);
    }
  }

  lemma ChooseMedium(s: C.State, ids: set<nat>)
    requires Proper(s, ids) && |s.dispatched| <= |s.chosen| && s.log.q.current.None?
    requires s.log.q.high == [] && s.log.q.medium != []
    ensures Moves(See(s, ids), See(C.Promote(s), ids)) && Proper(C.Promote(s), ids)
  {
    var t, c, c' := C.Promote(s), See(s, ids), See(C.Promote(s), ids);
    ChosenFrom(s, Q.Medium, ids);
    assert Q.Of(s.log.q, Q.Medium) == s.log.q.medium && Q.Of(t.log.q, Q.Medium) == t.log.q.medium;
    assert Q.Of(t.log.q, Q.High) == Q.Of(s.log.q, Q.High) && Q.Of(t.log.q, Q.Low) == Q.Of(s.log.q, Q.Low);
    OursHead(s.log.q.medium, ids);
    if s.log.q.medium[0].id in ids {
      assert c' == Pipe([], Q.None, c.wire + [c.held.value]);
    } else {
      assert c' == c;
      Stays(c);
    }
  }

  lemma ChooseLow(s: C.State, ids: set<nat>)
    requires Proper(s, ids) && |s.dispatched| <= |s.chosen| && s.log.q.current.None?
    requires s.log.q.high == [] && s.log.q.medium == [] && s.log.q.low != []
    ensures Moves(See(s, ids), See(C.Promote(s), ids)) && Proper(C.Promote(s), ids)
  {
    var t, c, c' := C.Promote(s), See(s, ids), See(C.Promote(s), ids);
    ChosenFrom(s, Q.Low, ids);
    assert Q.Of(s.log.q, Q.Low) == s.log.q.low && Q.Of(t.log.q, Q.Low) == t.log.q.low;
    assert Q.Of(t.log.q, Q.High) == Q.Of(s.log.q, Q.High) && Q.Of(t.log.q, Q.Medium) == Q.Of(s.log.q, Q.Medium);
    assert s.log.q.low[0] in s.log.q.low;
    assert c' == c;
    Stays(c);
  }

  /** get_pending() sends the session's messages in the order of the model: HIGH first, the greeting when none is
      left. */
  lemma ChooseMoves(s: C.State, ids: set<nat>)
    requires Proper(s, ids) && |s.dispatched| <= |s.chosen|
    ensures Moves(See(s, ids), See(C.Promote(s), ids)) && Proper(C.Promote(s), ids)
    ensures |C.Promote(s).dispatched| <= |C.Promote(s).chosen|
  {
    if s.log.q.current.Some? || Q.NextClass(s.log.q).None? {
      Stays(See(s, ids));
    } else if s.log.q.high != [] {
      ChooseHigh(s, ids);
    } else if s.log.q.medium != [] {
      ChooseMedium(s, ids);
    } else {
      ChooseLow(s, ids);
    }
  }

  // ---------------------------------------------------------------- every step of a connection

  /** One move and then another. */
  ghost predicate Moves2(c: Pipe<Q.Op>, c': Pipe<Q.Op>) {
    exists d :: Moves(c, d) && Moves(d, c')
  }

  lemma OneOfTwo(c: Pipe<Q.Op>, c': Pipe<Q.Op>)
    requires Moves(c, c')
    ensures Moves2(c, c')
  {
    Stays(c');
  }

  lemma WriteMoves(s: C.State, k: nat, ids: set<nat>)
    requires C.Enabled(s, C.Write(k)) && Proper(s, ids) && |s.dispatched| <= |s.chosen|
    ensures Moves2(See(s, ids), See(C.Sending(s, k), ids)) && Proper(C.Sending(s, k), ids)
  {
    var p := C.Promote(s);
    ChooseMoves(s, ids);
    var u := C.Put(p, k);
    assert See(u, ids) == See(p, ids);
    if k == |C.Unsent(p)| {
      var v := u.(log := Q.After(p.log, Q.Finished), written := 0);
      assert See(v, ids) == See(p, ids) && Proper(v, ids);
      ChooseMoves(v, ids);
    } else {
      OneOfTwo(See(s, ids), See(p, ids));
    }
  }

  lemma EnqueueMoves(s: C.State, a: C.Step, ids: set<nat>)
    requires a.Enqueue? && C.Enabled(s, a) && Proper(s, ids) && Well(s, a, ids)
    ensures Moves(See(s, ids), See(C.Next(s, a), ids)) && Proper(C.Next(s, a), ids)
  {
    var t, c, c', q := C.Next(s, a), See(s, ids), See(C.Next(s, a), ids), s.log.q;
    assert Flying(t) == Flying(s);
    match a.pri
    case High =>
      OursLast(q.high, a.op, ids);
      var e := if a.op.id in ids then [a.op] else [];
      assert c' == c.(out := c.out + e);
    case Medium =>
      OursLast(q.medium, a.op, ids);
      if a.op.id in ids {
        assert c.out + [] == c.out;
        assert c' == c.(out := c.out + [], held := Q.Some(a.op));
      } else {
        assert c' == c;
        Stays(c);
      }
    case Low =>
      assert c' == c;
      Stays(c);
  }

  lemma CancelKeeps(q: Q.Queues, q': Q.Queues, op: Q.Op, pri: Q.Priority, i: nat, ids: set<nat>)
    requires Q.Without(q, q', op, pri, i) && op.id !in ids
    ensures Ours(q'.high, ids) == Ours(q.high, ids) && Ours(q'.medium, ids) == Ours(q.medium, ids)
    ensures forall x :: x in q'.low ==> x in q.low
    ensures forall x :: x in q'.medium ==> x in q.medium
    ensures forall x :: x in q'.high ==> x in q.high
  {
    OursCut(Q.Of(q, pri), i, ids);
  }

  lemma CancelMoves(s: C.State, a: C.Step, ids: set<nat>)
    requires a.Cancel? && Proper(s, ids)
    ensures See(C.Next(s, a), ids) == See(s, ids) && Proper(C.Next(s, a), ids)
  {
    var q := s.log.q;
    var (q', op) := Q.Remove(q, a.target, Q.Order(a.target));
    Q.RemoveExact(q, a.target, Q.Order(a.target));
    assert Flying(C.Next(s, a)) == Flying(s);
    if op.Some? {
      var k: nat, i: nat :| Q.RemovedAt(q, q', op.value, a.target, Q.Order(a.target), k, i);
      var pri := Q.Order(a.target)[k];
      assert Q.Of(q, pri)[i] in Q.Of(q, pri);
      CancelKeeps(q, q', op.value, pri, i, ids);
    }
  }

  /** What a handler is given is the next packet that was chosen. */
  lemma DispatchedNext(s: C.State, t: nat)
    requires C.Good(s) && C.Enabled(s, C.Dispatch(t))
    ensures |s.dispatched| < |s.chosen|
    ensures C.Next(s, C.Dispatch(t)).dispatched == s.dispatched + [s.chosen[|s.dispatched|].op.data]
  {
    C.GoodDispatch(s, t);
    var d, all := C.Next(s, C.Dispatch(t)).dispatched, C.Datas(s.chosen);
    assert d <= all && |d| == |s.dispatched| + 1;
    assert d[|s.dispatched|] == all[|s.dispatched|];
  }

  lemma WireAfter(s: C.State, u: C.State, ids: set<nat>)
    requires |s.dispatched| < |s.chosen| && |u.dispatched| == |s.dispatched| + 1
    requires u.log == s.log && u.chosen == s.chosen
    ensures var op := s.chosen[|s.dispatched|].op;
            && (op.id in ids ==> See(s, ids).wire != [] && See(s, ids).wire[0] == op)
            && See(u, ids) == See(s, ids).(wire := if op.id in ids then See(s, ids).wire[1..] else See(s, ids).wire)
  {
    var n := |s.dispatched|;
    assert Ops(s.chosen[n..])[1..] == Ops(s.chosen[n + 1..]);
    OursHead(Ops(Flying(s)), ids);
  }

  /** ... and, when it is the session's, the first message on the wire. */
  lemma DispatchMoves(s: C.State, t: nat, ids: set<nat>)
    requires C.Good(s) && C.Enabled(s, C.Dispatch(t)) && Proper(s, ids)
    ensures |s.dispatched| < |s.chosen|
    ensures var u, op := C.Next(s, C.Dispatch(t)), s.chosen[|s.dispatched|].op;
            && Proper(u, ids) && Moves(See(s, ids), See(u, ids))
            && u.dispatched == s.dispatched + [op.data]
            && (op.id in ids ==> See(s, ids).wire != [] && See(s, ids).wire[0] == op)
  {
    DispatchedNext(s, t);
    WireAfter(s, C.Next(s, C.Dispatch(t)), ids);
    Stays(See(s, ids));
  }

  lemma SilentMoves(s: C.State, a: C.Step, ids: set<nat>)
    requires C.Enabled(s, a) && Proper(s, ids) && !a.Enqueue? && !a.Cancel? && !a.Write? && !a.Dispatch?
    ensures See(C.Next(s, a), ids) == See(s, ids) && Proper(C.Next(s, a), ids)
  {
    var t := C.Next(s, a);
    assert t.log == s.log && t.chosen == s.chosen && t.dispatched == s.dispatched;
  }

  lemma StepMoves(s: C.State, a: C.Step, ids: set<nat>)
    requires C.Good(s) && C.Allowed(s, a) && Proper(s, ids) && Well(s, a, ids)
    ensures Moves2(See(s, ids), See(C.Next(s, a), ids)) && Proper(C.Next(s, a), ids)
  {
    var c, c' := See(s, ids), See(C.Next(s, a), ids);
    match a
    case Enqueue(_, _) => EnqueueMoves(s, a, ids); OneOfTwo(c, c');
    case Cancel(_) => CancelMoves(s, a, ids); Stays(c); OneOfTwo(c, c');
    case Write(k) => WriteMoves(s, k, ids);
    case Dispatch(t) => DispatchMoves(s, t, ids); OneOfTwo(c, c');
    case _ => SilentMoves(s, a, ids); Stays(c); OneOfTwo(c, c');
  }

  /** The session's messages are queued as they should be all along. */
  ghost predicate WellRun(s: C.State, steps: seq<C.Step>, ids: set<nat>)
    decreases |steps|
  {
    steps != [] ==>
      C.Enabled(s, steps[0]) && Well(s, steps[0], ids) && WellRun(C.Next(s, steps[0]), steps[1..], ids)
  }

  lemma {:induction false} ProperRun(s: C.State, steps: seq<C.Step>, s': C.State, ids: set<nat>)
    requires C.Good(s) && Proper(s, ids) && C.Runs(s, steps, s') && WellRun(s, steps, ids)
    ensures C.Good(s') && Proper(s', ids)
    decreases |steps|
  {
    if steps != [] {
      C.GoodStep(s, steps[0]);
      StepMoves(s, steps[0], ids);
      ProperRun(C.Next(s, steps[0]), steps[1..], s', ids);
    }
  }

  /** In every run of a connection, whatever else goes over it: each step makes at most two of the moves of the session
      model's connections, and what a handler is given of the session's messages is the first on the wire. So the FIFO
      of the session model is what the send queue, the socket and the receive section make. */
  lemma ConnectionMoves(steps: seq<C.Step>, s: C.State, a: C.Step, ids: set<nat>)
    requires C.Reachable(s, steps) && WellRun(C.Init(), steps, ids) && C.Allowed(s, a) && Well(s, a, ids)
    ensures Moves2(See(s, ids), See(C.Next(s, a), ids))
    ensures a.Dispatch? ==>
              |s.dispatched| < |s.chosen| &&
              var op := s.chosen[|s.dispatched|].op;
              && C.Next(s, a).dispatched == s.dispatched + [op.data]
              && (op.id in ids ==> See(s, ids).wire != [] && See(s, ids).wire[0] == op)
  {
    C.GoodInit();
    ProperRun(C.Init(), steps, s, ids);
    StepMoves(s, a, ids);
    if a.Dispatch? {
      DispatchMoves(s, a.thread, ids);
    }
  }
}
