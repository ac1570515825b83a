/** How connections come up: between two peers there is nothing, then one side is connected and exactly one greeting
    is on its way to the other, then both sides are connected and no greeting is left.
 */
module MeshLinks {
  import opened GroupProtocol
  import opened Mesh

  // ---------------------------------------------------------------- queues

  function Welcomes(c: seq<Message>): nat {
    if c == [] then 0 else (if c[0].Welcome? then 1 else 0) + Welcomes(c[1..])
  }

  lemma {:induction false} WelcomesConcat(a: seq<Message>, b: seq<Message>)
    ensures Welcomes(a + b) == Welcomes(a) + Welcomes(b)
  {
    if a == [] {
      assert a + b == b;
    } else {
      assert (a + b)[1..] == a[1..] + b;
      WelcomesConcat(a[1..], b);
    }
  }

  lemma {:induction false} NoWelcomes(c: seq<Message>)
    requires forall m :: m in c ==> !m.Welcome?
    ensures Welcomes(c) == 0
  {
    if c != [] {
      NoWelcomes(c[1..]);
    }
  }

  lemma {:induction false} WelcomeCounts(c: seq<Message>, m: Message)
    requires m in c && m.Welcome?
    ensures Welcomes(c) > 0
  {
    if c[0] != m {
      WelcomeCounts(c[1..], m);
    }
  }

  lemma {:induction false} WelcomeExists(c: seq<Message>) returns (m: Message)
    requires Welcomes(c) > 0
    ensures m in c && m.Welcome?
  {
    if c[0].Welcome? {
      m := c[0];
    } else {
      m := WelcomeExists(c[1..]);
    }
  }

  // ---------------------------------------------------------------- what a step at one peer does to the channels

  ghost predicate Grows(n: Node, n': Node) {
    forall q :: Out(n, q) <= Out(n', q)
  }

  function Extra(n: Node, n': Node, q: PlayerId): seq<Message> {
    if |Out(n, q)| <= |Out(n', q)| then Out(n', q)[|Out(n, q)|..] else []
  }

  /** Peer p goes from its state to n' and, when `from` is not p itself, has finished with the first message from
      `from`. */
  ghost predicate Local(s: State, t: State, p: PlayerId, n': Node, from: PlayerId) {
    && p in s.nodes
    && Grows(s.nodes[p], n')
    && t.nodes == s.nodes[p := n']
    && Wire(s, p, p) == []
    && (from == p ==> t.wire == s.wire)
    && (from != p ==> |Wire(s, from, p)| > 0 && t.wire == s.wire[(from, p) := Wire(s, from, p)[1..]])
  }

  function ChanAfter(s: State, p: PlayerId, n': Node, from: PlayerId, a: PlayerId, b: PlayerId): seq<Message>
    requires p in s.nodes
  {
    if a == p then Chan(s, a, b) + Extra(s.nodes[p], n', b)
    else if a == from && b == p && |Chan(s, a, b)| > 0 then Chan(s, a, b)[1..]
    else Chan(s, a, b)
  }

  lemma ChanStep(s: State, t: State, p: PlayerId, n': Node, from: PlayerId, a: PlayerId, b: PlayerId)
    requires Local(s, t, p, n', from)
    ensures Chan(t, a, b) == ChanAfter(s, p, n', from, a, b)
  {
    var n := s.nodes[p];
    if a == p {
      assert Out(n', b) == Out(n, b) + Extra(n, n', b);
      assert Chan(t, a, b) == Chan(s, a, b) + Extra(n, n', b);
    } else if a == from && b == p {
      assert Chan(t, a, b) == Chan(s, a, b)[1..];
    }
  }

  // ---------------------------------------------------------------- handlers that leave the connections alone

  /** Connections, greetings and outstanding requests stay; groups are only forgotten behind a tombstone. */
  ghost predicate Quiet(n: Node, n': Node) {
    && n'.conn == n.conn && n'.todo == n.todo && n'.held == n.held
    && n.tombs <= n'.tombs
    && (forall g :: Knows(n, g) ==> Knows(n', g))
    && Grows(n, n')
    && (forall q :: q !in n.conn ==> Extra(n, n', q) == [])
    && (forall q, m :: m in Extra(n, n', q) ==> !m.Welcome?)
  }

  /** A handler that does no more to the queues than to append one message to some of them. */
  lemma QuietMade(n: Node, n': Node, to: set<PlayerId>, m: Message)
    requires n'.conn == n.conn && n'.todo == n.todo && n'.held == n.held
    requires n.tombs <= n'.tombs && (forall g :: Knows(n, g) ==> Knows(n', g))
    requires to <= n.conn && !m.Welcome?
    requires forall q :: Out(n', q) == if q in to then Out(n, q) + [m] else Out(n, q)
    ensures Quiet(n, n')
    ensures forall q :: Extra(n, n', q) == if q in to then [m] else []
  {
    forall q ensures Out(n, q) <= Out(n', q) && Extra(n, n', q) == if q in to then [m] else [] {
    }
  }

  lemma QuietBroadcast(n: Node, m: Message)
    requires !m.Welcome?
    ensures Quiet(n, Broadcast(n, m))
    ensures forall q :: Extra(n, Broadcast(n, m), q) == if q in n.conn then [m] else []
  {
    QuietMade(n, Broadcast(n, m), n.conn, m);
  }

  lemma QuietEnqueue(n: Node, q: PlayerId, m: Message)
    requires !m.Welcome? && q in n.conn
    ensures Quiet(n, Enqueue(n, q, m))
    ensures forall x :: Extra(n, Enqueue(n, q, m), x) == if x == q then [m] else []
  {
    QuietMade(n, Enqueue(n, q, m), {q}, m);
  }

  lemma SameOut(n: Node, n': Node)
    requires n'.out == n.out
    ensures forall q :: Out(n', q) == Out(n, q)
  {
  }

  lemma QuietSame(n: Node, n': Node)
    requires n'.conn == n.conn && n'.todo == n.todo && n'.held == n.held && n'.out == n.out
    requires n.tombs <= n'.tombs && (forall g :: Knows(n, g) ==> Knows(n', g))
    ensures Quiet(n, n')
  {
    SameOut(n, n');
  }

  lemma QuietSettle(n: Node, self: PlayerId, from: PlayerId, m: Message)
    requires m.Join? || m.Joined?
    ensures Quiet(n, Settle(n, self, from, m))
  {
    var n' := Settle(n, self, from, m);
    if m.g in n.groups && m.Join? && self !in n.groups[m.g].members {
      var j := Joined(m.g, n.groups[m.g].info);
      SameOut(Broadcast(n, j), n');
      QuietMade(n, n', n.conn, j);
    } else {
      QuietSame(n, n');
    }
  }

  lemma QuietCreate(n: Node, g: GroupId, info: Info)
    ensures Quiet(n, CreateHere(n, g, info))
    ensures forall q :: Extra(n, CreateHere(n, g, info), q) == if q in n.conn then [Create(g, info)] else []
  {
    SameOut(n, Emplace(n, g, info));
    QuietMade(n, CreateHere(n, g, info), n.conn, Create(g, info));
  }

  lemma QuietLeave(n: Node, self: PlayerId, g: GroupId)
    requires g in n.groups
    ensures Quiet(n, LeaveHere(n, self, g))
  {
    var n' := LeaveHere(n, self, g);
    if self in n.groups[g].members {
      SameOut(Broadcast(n, Left(g)), n');
      QuietMade(n, n', n.conn, Left(g));
    } else {
      QuietSame(n, n');
    }
  }

  lemma QuietAllocate(n: Node, self: PlayerId, from: PlayerId, m: Message)
    requires m.Allocate?
    ensures Quiet(n, Handle(n, self, from, m))
  {
    var n' := Handle(n, self, from, m);
    if from in n.conn {
      var e := Enqueue(n, from, Granted(m.ack, n.next));
      SameOut(e, n');
      QuietMade(n, n', {from}, Granted(m.ack, n.next));
    } else {
      QuietSame(n, n');
    }
  }

  lemma QuietGranted(n: Node, self: PlayerId, from: PlayerId, m: Message)
    requires m.Granted?
    ensures Quiet(n, Handle(n, self, from, m))
  {
    if m.ack in n.pending {
      QuietCreate(n.(pending := n.pending - {m.ack}), m.g, n.pending[m.ack]);
    }
  }

  lemma QuietNews(n: Node, self: PlayerId, from: PlayerId, m: Message)
    requires m.Create? || m.Destroy? || m.Left? || (m.Welcome? && from in n.conn)
    ensures Quiet(n, Handle(n, self, from, m))
  {
  }

  lemma QuietHandle(n: Node, self: PlayerId, from: PlayerId, m: Message)
    requires m.Welcome? ==> from in n.conn
    ensures Quiet(n, Handle(n, self, from, m))
  {
    match m
    case Join(g, _) => QuietSettle(n, self, from, m);
    case Joined(g, _) => QuietSettle(n, self, from, m);
    case Leave(g) => if g in n.groups { QuietLeave(n, self, g); }
    case Allocate(_) => QuietAllocate(n, self, from, m);
    case Granted(_, _) => QuietGranted(n, self, from, m);
    case _ => QuietNews(n, self, from, m);
  }

  // ---------------------------------------------------------------- the invariant

  /** The state of the connection as p and q see it, and what is on its way from p to q. */
  ghost predicate LinkOk(s: State, p: PlayerId, q: PlayerId) {
    if p in s.nodes && q in s.nodes[p].conn then
      && p != q && q in s.nodes
      && (if p in s.nodes[q].conn then
            Welcomes(Chan(s, p, q)) == 0 && q !in s.nodes[p].held
          else
            && p in s.nodes[q].todo
            && if q in s.nodes[p].held then s.nodes[p].held[q].Welcome? && Welcomes(Chan(s, p, q)) == 0
               else Welcomes(Chan(s, p, q)) == 1)
    else
      Chan(s, p, q) == [] && (p in s.nodes ==> q !in s.nodes[p].held)
  }

  ghost predicate Base(s: State) {
    && HOST in s.nodes && s.nodes[HOST].todo == {}
    && (forall q :: q in s.nodes ==> 0 < q < s.nodes[HOST].next && s.nodes[q].todo <= s.nodes.Keys)
    && (forall q :: q in s.nodes ==> s.nodes[q].todo !! s.nodes[q].conn)
    && (forall q :: q in s.nodes && q != HOST ==> q in s.nodes[HOST].conn && s.nodes[q].held == map[])
  }

  ghost predicate Links(s: State) {
    && Base(s)
    && forall p, q :: LinkOk(s, p, q)
  }

  lemma NoSelfChannel(s: State, p: PlayerId)
    requires Links(s)
    ensures Wire(s, p, p) == []
  {
    assert LinkOk(s, p, p);
  }

  lemma LinksInitial()
    ensures Links(Initial())
  {
  }

  lemma LinkOkQuiet(s: State, t: State, p: PlayerId, n': Node, from: PlayerId, a: PlayerId, b: PlayerId)
    requires LinkOk(s, a, b) && Local(s, t, p, n', from) && Quiet(s.nodes[p], n')
    requires from != p && Wire(s, from, p)[0].Welcome? ==> from in s.nodes[p].conn
    ensures LinkOk(t, a, b)
  {
    ChanStep(s, t, p, n', from, a, b);
    if a == p {
      NoWelcomes(Extra(s.nodes[p], n', b));
      WelcomesConcat(Chan(s, a, b), Extra(s.nodes[p], n', b));
    } else if a == from && b == p {
      assert Chan(s, a, b)[0] == Wire(s, a, b)[0];
    }
  }

  lemma BaseQuiet(s: State, t: State, p: PlayerId, n': Node)
    requires Base(s) && p in s.nodes && t.nodes == s.nodes[p := n'] && s.nodes[p].next <= n'.next
    requires n'.conn == s.nodes[p].conn && n'.todo == s.nodes[p].todo && n'.held == s.nodes[p].held
    ensures Base(t)
  {
  }

  lemma LinksQuiet(s: State, t: State, p: PlayerId, n': Node, from: PlayerId)
    requires Links(s) && Local(s, t, p, n', from) && Quiet(s.nodes[p], n') && s.nodes[p].next <= n'.next
    requires from != p && Wire(s, from, p)[0].Welcome? ==> from in s.nodes[p].conn
    ensures Links(t)
  {
    BaseQuiet(s, t, p, n');
    forall a, b ensures LinkOk(t, a, b) {
      assert LinkOk(s, a, b);
      LinkOkQuiet(s, t, p, n', from, a, b);
    }
  }

  // ---------------------------------------------------------------- the steps, sorted

  /** The steps that leave all connections alone: the peer that takes the step, its new state, and the sender of the
      message it has finished with (or itself). */
  ghost predicate IsQuiet(s: State, a: Step, build: Build)
    requires Enabled(s, a)
  {
    match a
    case LetIn(_, _) => false
    case Link(_, _, _, _) => false
    case Transmit(_, _) => false
    case Promote(_) => false
    case Deliver(p, q) => Wire(s, p, q)[0].Welcome? ==> p in s.nodes[q].conn
    case Resume(p, q) => build == Documented || Wire(s, p, q)[0].g !in s.nodes[q].groups
    case _ => true
  }

  function Actor(a: Step): PlayerId {
    match a
    case LetIn(_, _) => HOST
    case Link(r, _, _, _) => r
    case Promote(_) => HOST
    case Deliver(_, q) => q
    case Resume(_, q) => q
    case _ => a.p
  }

  ghost function After(s: State, a: Step): Node
    requires Enabled(s, a)
  {
    match a
    case CreateGroup(p, info) =>
      var n := s.nodes[p];
      if p == HOST then CreateHere(n, n.next, info).(next := n.next + 1) else AskHost(n, info)
    case DestroyGroup(p, g) => DestroyHere(s.nodes[p], g)
    case AddPlayer(p, g, who) =>
      var n := s.nodes[p];
      if who == p then JoinHere(n, p, g) else Enqueue(n, who, Join(g, n.groups[g].info))
    case RemovePlayer(p, g, who) =>
      var n := s.nodes[p];
      if who == p then LeaveHere(n, p, g) else Enqueue(n, who, Leave(g))
    case Erase(p, g) => EraseHere(s.nodes[p], g)
    case Deliver(p, q) =>
      var n := s.nodes[q];
      var m := Wire(s, p, q)[0];
      if MustInstantiate(n, p, m) then Emplace(n, m.g, m.info) else Handle(n, q, p, m)
    case Resume(p, q) => Settle(s.nodes[q], q, p, Wire(s, p, q)[0])
    case LetIn(ds, cs) => HostAccept(s.nodes[HOST], s.nodes[HOST].next, ds, cs)
    case Link(r, q, ds, cs) => PeerAccept(s.nodes[r], r, q, ds, cs)
    case Transmit(p, q) => Sent(s.nodes[p], q)
    case Promote(q) => s.nodes[HOST].(held := s.nodes[HOST].held - {q})
  }

  ghost function Source(s: State, a: Step): PlayerId
    requires Enabled(s, a)
  {
    match a
    case Deliver(p, q) => if MustInstantiate(s.nodes[q], p, Wire(s, p, q)[0]) then q else p
    case Resume(p, _) => p
    case _ => Actor(a)
  }

  lemma HostConnected(s: State, p: PlayerId)
    requires Links(s) && p in s.nodes && p != HOST && InSession(s.nodes[p])
    ensures HOST in s.nodes[p].conn && p in s.nodes[HOST].conn
  {
    assert LinkOk(s, HOST, p);
  }

  lemma QuietCreateHost(n: Node, info: Info)
    ensures Quiet(n, CreateHere(n, n.next, info).(next := n.next + 1))
  {
    var n' := CreateHere(n, n.next, info).(next := n.next + 1);
    SameOut(n, Emplace(n, n.next, info));
    SameOut(CreateHere(n, n.next, info), n');
    QuietMade(n, n', n.conn, Create(n.next, info));
  }

  lemma QuietAsk(n: Node, info: Info)
    requires HOST in n.conn
    ensures Quiet(n, AskHost(n, info))
  {
    var m := Allocate(n.nextAck);
    SameOut(Enqueue(n, HOST, m), AskHost(n, info));
    QuietMade(n, AskHost(n, info), {HOST}, m);
  }

  lemma AfterCreate(s: State, a: Step)
    requires Enabled(s, a) && a.CreateGroup?
    ensures var n := s.nodes[a.p];
            After(s, a)
            == if a.p == HOST then CreateHere(n, n.next, a.info).(next := n.next + 1) else AskHost(n, a.info)
  {
  }

  lemma QuietCreateGroup(s: State, a: Step)
    requires Links(s) && Enabled(s, a) && a.CreateGroup?
    ensures Quiet(s.nodes[a.p], After(s, a))
  {
    AfterCreate(s, a);
    if a.p == HOST {
      QuietCreateHost(s.nodes[a.p], a.info);
    } else {
      assert HOST in s.nodes[a.p].conn by {
        HostConnected(s, a.p);
      }
      QuietAsk(s.nodes[a.p], a.info);
    }
  }

  lemma QuietDestroyGroup(n: Node, g: GroupId)
    ensures Quiet(n, DestroyHere(n, g))
    ensures forall q :: Extra(n, DestroyHere(n, g), q) == if q in n.conn then [Destroy(g)] else []
  {
    QuietBroadcast(n, Destroy(g));
  }

  lemma QuietPlayer(s: State, a: Step)
    requires Enabled(s, a) && (a.AddPlayer? || a.RemovePlayer?)
    ensures Quiet(s.nodes[a.p], After(s, a))
  {
    var n := s.nodes[a.p];
    if a.AddPlayer? {
      var m := Join(a.g, n.groups[a.g].info);
      if a.who == a.p { QuietSettle(n, a.p, a.p, m); } else { QuietEnqueue(n, a.who, m); }
    } else {
      if a.who == a.p { QuietLeave(n, a.p, a.g); } else { QuietEnqueue(n, a.who, Leave(a.g)); }
    }
  }

  lemma QuietErase(n: Node, g: GroupId)
    requires g in n.tombs
    ensures Quiet(n, EraseHere(n, g))
  {
  }

  lemma QuietCall(s: State, a: Step)
    requires Links(s) && Enabled(s, a)
    requires a.CreateGroup? || a.DestroyGroup? || a.AddPlayer? || a.RemovePlayer? || a.Erase?
    requires a.Erase? ==> s.nodes[a.p].erasing <= s.nodes[a.p].tombs
    ensures Quiet(s.nodes[a.p], After(s, a))
  {
    match a
    case CreateGroup(_, _) => QuietCreateGroup(s, a);
    case DestroyGroup(p, g) => QuietDestroyGroup(s.nodes[p], g);
    case Erase(p, g) => QuietErase(s.nodes[p], g);
    case _ => QuietPlayer(s, a);
  }

  lemma QuietReceive(s: State, a: Step, build: Build)
    requires Enabled(s, a) && IsQuiet(s, a, build)
    requires a.Deliver? || a.Resume?
    ensures Quiet(s.nodes[a.q], After(s, a))
  {
    var n := s.nodes[a.q];
    var m := Wire(s, a.p, a.q)[0];
    if a.Resume? {
      QuietSettle(n, a.q, a.p, m);
    } else if !MustInstantiate(n, a.p, m) {
      QuietHandle(n, a.q, a.p, m);
    }
  }

  lemma RecordedFrame(s: State, n: Node, p: PlayerId, q: PlayerId, m: Message)
    ensures var t := Recorded(s, n, p, q, m); t.nodes == s.nodes && t.wire == s.wire && t.busy == s.busy
  {
  }

  lemma FrameDeliver(s: State, a: Step, build: Build)
    requires Enabled(s, a) && a.Deliver?
    ensures Next(s, a, build).nodes == s.nodes[a.q := After(s, a)] && s.nodes[a.q].next <= After(s, a).next
  {
    var n, m := s.nodes[a.q], Wire(s, a.p, a.q)[0];
    RecordedFrame(Act(s, a.q, Handle(n, a.q, a.p, m)), n, a.p, a.q, m);
  }

  lemma FrameCall(s: State, a: Step, build: Build)
    requires Enabled(s, a) && IsQuiet(s, a, build) && !a.Deliver?
    ensures Next(s, a, build).nodes == s.nodes[Actor(a) := After(s, a)]
    ensures Actor(a) in s.nodes && s.nodes[Actor(a)].next <= After(s, a).next
  {
  }

  /** What every quiet step does to the system, whatever its handler does to the peer. */
  lemma Frame(s: State, a: Step, build: Build)
    requires Enabled(s, a) && IsQuiet(s, a, build)
    ensures Actor(a) in s.nodes
    ensures var t := Next(s, a, build);
            && t.nodes == s.nodes[Actor(a) := After(s, a)]
            && s.nodes[Actor(a)].next <= After(s, a).next
  {
    if a.Deliver? { FrameDeliver(s, a, build); } else { FrameCall(s, a, build); }
  }

  lemma WireDeliver(s: State, a: Step, build: Build)
    requires Enabled(s, a) && a.Deliver?
    ensures Next(s, a, build).wire
         == if MustInstantiate(s.nodes[a.q], a.p, Wire(s, a.p, a.q)[0]) then s.wire
            else s.wire[(a.p, a.q) := Wire(s, a.p, a.q)[1..]]
  {
    var n, m := s.nodes[a.q], Wire(s, a.p, a.q)[0];
    RecordedFrame(Act(s, a.q, Handle(n, a.q, a.p, m)), n, a.p, a.q, m);
  }

  lemma FrameWire(s: State, a: Step, build: Build)
    requires Enabled(s, a) && IsQuiet(s, a, build) && Wire(s, Actor(a), Actor(a)) == []
    ensures var t := Next(s, a, build);
            var p, from := Actor(a), Source(s, a);
            && (from == p ==> t.wire == s.wire)
            && (from != p ==> |Wire(s, from, p)| > 0 && t.wire == s.wire[(from, p) := Wire(s, from, p)[1..]])
  {
    if a.Deliver? {
      WireDeliver(s, a, build);
    }
  }

  /** Every step that leaves the connections alone is a local step of its actor. */
  lemma QuietStep(s: State, a: Step, build: Build)
    requires Links(s) && Enabled(s, a) && IsQuiet(s, a, build)
    requires a.Erase? ==> s.nodes[a.p].erasing <= s.nodes[a.p].tombs
    ensures Actor(a) in s.nodes
    ensures Local(s, Next(s, a, build), Actor(a), After(s, a), Source(s, a))
    ensures Quiet(s.nodes[Actor(a)], After(s, a)) && s.nodes[Actor(a)].next <= After(s, a).next
  {
    Frame(s, a, build);
    NoSelfChannel(s, Actor(a));
    FrameWire(s, a, build);
    if a.Deliver? || a.Resume? {
      QuietReceive(s, a, build);
    } else {
      QuietCall(s, a);
    }
  }

  // ---------------------------------------------------------------- the steps that bring connections up

  lemma SentOut(n: Node, q: PlayerId, x: PlayerId)
    requires |Out(n, q)| > 0
    ensures Out(Sent(n, q), x) == if x == q then Out(n, q)[1..] else Out(n, x)
  {
  }

  lemma TransmitChan(s: State, a: Step, build: Build, x: PlayerId, y: PlayerId)
    requires Enabled(s, a) && a.Transmit?
    ensures Chan(Next(s, a, build), x, y) == Chan(s, x, y)
  {
    var n, w := s.nodes[a.p], Wire(s, a.p, a.q);
    SentOut(n, a.q, y);
    if x == a.p && y == a.q {
      assert Out(n, y) == [Out(n, y)[0]] + Out(n, y)[1..];
      assert (w + [Out(n, y)[0]]) + Out(n, y)[1..] == w + Out(n, y);
    }
  }

  lemma PromoteChan(s: State, a: Step, build: Build, x: PlayerId, y: PlayerId)
    requires Enabled(s, a) && a.Promote?
    ensures Chan(Next(s, a, build), x, y)
            == if x == HOST && y == a.q then Chan(s, x, y) + [s.nodes[HOST].held[y]] else Chan(s, x, y)
  {
  }

  lemma SnapshotQuiet(n: Node, ds: seq<GroupId>, cs: seq<GroupId>)
    requires Lists(n, ds, cs)
    ensures Welcomes(Snapshot(n, ds, cs)) == 0
    ensures forall m :: m in Snapshot(n, ds, cs) ==> m.Create? || m.Destroy?
    ensures forall g :: g in n.tombs ==> Destroy(g) in Snapshot(n, ds, cs)
    ensures forall g :: g in n.groups && g !in n.tombs ==> Create(g, n.groups[g].info) in Snapshot(n, ds, cs)
  {
    var c := Snapshot(n, ds, cs);
    NoWelcomes(c);
    forall g | g in n.tombs ensures Destroy(g) in c {
      var i :| 0 <= i < |ds| && ds[i] == g;
      assert c[i] == Destroy(g);
    }
    forall g | g in n.groups && g !in n.tombs ensures Create(g, n.groups[g].info) in c {
      var i :| 0 <= i < |cs| && cs[i] == g;
      assert c[|ds| + i] == Create(g, n.groups[g].info);
    }
  }

  lemma LinkChan(s: State, a: Step, build: Build, x: PlayerId, y: PlayerId)
    requires Links(s) && Enabled(s, a) && a.Link?
    ensures Chan(Next(s, a, build), x, y)
            == if x == a.r && y == a.q
               then Snapshot(s.nodes[x], a.ds, a.cs) + [Welcome(MemberOf(s.nodes[x], x), {})]
               else Chan(s, x, y)
  {
    assert LinkOk(s, a.r, a.q);
  }

  lemma LetInNodes(s: State, a: Step, build: Build)
    requires Enabled(s, a) && a.LetIn?
    ensures var t, q := Next(s, a, build), s.nodes[HOST].next;
            t.nodes == s.nodes[HOST := HostAccept(s.nodes[HOST], q, a.ds, a.cs)][q := Joiner()] && t.wire == s.wire
  {
  }

  lemma LetInChan(s: State, a: Step, build: Build, x: PlayerId, y: PlayerId)
    requires Links(s) && Enabled(s, a) && a.LetIn?
    ensures Chan(Next(s, a, build), x, y)
            == if x == HOST && y == s.nodes[HOST].next then Snapshot(s.nodes[x], a.ds, a.cs) else Chan(s, x, y)
  {
    var q := s.nodes[HOST].next;
    assert LinkOk(s, HOST, q) && LinkOk(s, q, y);
    LetInNodes(s, a, build);
    NewChan(s, Next(s, a, build), a.ds, a.cs, x, y);
  }

  lemma NewChan(s: State, t: State, ds: seq<GroupId>, cs: seq<GroupId>, x: PlayerId, y: PlayerId)
    requires HOST in s.nodes && Lists(s.nodes[HOST], ds, cs) && s.nodes[HOST].next !in s.nodes
    requires var q := s.nodes[HOST].next;
             && t.nodes == s.nodes[HOST := HostAccept(s.nodes[HOST], q, ds, cs)][q := Joiner()] && t.wire == s.wire
             && Chan(s, HOST, q) == [] && Chan(s, q, y) == []
    ensures Chan(t, x, y)
            == if x == HOST && y == s.nodes[HOST].next then Snapshot(s.nodes[x], ds, cs) else Chan(s, x, y)
  {
    assert Out(Joiner(), y) == [];
  }

  /** The first message from a peer that has let us in, when it is the greeting. */
  ghost predicate IsGreeting(s: State, a: Step)
    requires Enabled(s, a)
  {
    a.Deliver? && Wire(s, a.p, a.q)[0].Welcome? && a.p !in s.nodes[a.q].conn
  }

  lemma GreetingStep(s: State, a: Step, build: Build)
    requires Links(s) && Enabled(s, a) && IsGreeting(s, a)
    ensures Local(s, Next(s, a, build), a.q, Welcomed(s.nodes[a.q], a.q, a.p, Wire(s, a.p, a.q)[0]), a.p)
    ensures a.p in s.nodes && a.q in s.nodes[a.p].conn && a.q !in s.nodes[a.p].held
    ensures a.p in s.nodes[a.q].todo && Welcomes(Chan(s, a.p, a.q)) == 1 && a.q != HOST
  {
    NoSelfChannel(s, a.q);
    assert LinkOk(s, a.p, a.q);
    assert Chan(s, a.p, a.q)[0] == Wire(s, a.p, a.q)[0];
  }
}
