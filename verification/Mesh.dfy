/** A whole session: every peer's group state, the bytes in flight between each ordered pair of peers (one FIFO per
    TCP connection), and every step the peers and the network can take. A step is what one thread does between
    taking a peer's lock and releasing it.
 */
module Mesh {
  import opened GroupProtocol

  datatype Origin = Origin(creator: PlayerId, info: Info)

  /** `busy` marks the connections whose first message is being handled by a thread that has released the lock to
      call the application; `crashed` the peers that have dereferenced a null pointer.

      The last four fields are history that no peer can see: who created and who destroyed each group, to whom the
      host granted each group identifier, and `missed`: (p, q, g) when p's latest change of its own membership in
      g was made without q being told. */
  datatype State = State(
    nodes: map<PlayerId, Node>,
    wire: map<(PlayerId, PlayerId), seq<Message>>,
    busy: set<(PlayerId, PlayerId)>,
    crashed: set<PlayerId>,
    created: map<GroupId, Origin>,
    destroyed: map<GroupId, PlayerId>,
    grants: map<GroupId, PlayerId>,
    missed: set<(PlayerId, PlayerId, GroupId)>)

  function Wire(s: State, p: PlayerId, q: PlayerId): seq<Message> {
    if (p, q) in s.wire then s.wire[(p, q)] else []
  }

  /** Everything at HIGH priority that p has queued for q and q has not finished handling, oldest first. */
  function Chan(s: State, p: PlayerId, q: PlayerId): seq<Message> {
    Wire(s, p, q) + if p in s.nodes then Out(s.nodes[p], q) else []
  }

  /** The two programs: with the shadowed `group` variable of handle_group_join() and handle_group_joined(), and
      with the behaviour that Messages.hpp documents. */
  datatype Build = Shipped | Documented

  datatype Step =
    | LetIn(ds: seq<GroupId>, cs: seq<GroupId>)
    | Link(r: PlayerId, q: PlayerId, ds: seq<GroupId>, cs: seq<GroupId>)
    | CreateGroup(p: PlayerId, info: Info)
    | DestroyGroup(p: PlayerId, g: GroupId)
    | AddPlayer(p: PlayerId, g: GroupId, who: PlayerId)
    | RemovePlayer(p: PlayerId, g: GroupId, who: PlayerId)
    | Erase(p: PlayerId, g: GroupId)
    | Transmit(p: PlayerId, q: PlayerId)
    | Promote(q: PlayerId)
    | Deliver(p: PlayerId, q: PlayerId)
    | Resume(p: PlayerId, q: PlayerId)

  /** What is still missed after p goes to state n: a change of p's own membership is announced to all its connected
      peers in the same step, so they miss nothing about that group any more. */
  function Untold(s: State, p: PlayerId, n: Node): set<(PlayerId, PlayerId, GroupId)>
    requires p in s.nodes
  {
    var was := s.nodes[p];
    set t | t in s.missed
            && !(t.0 == p && t.1 in was.conn && (p in Members(was, t.2)) != (p in Members(n, t.2)))
  }

  /** Peer p replaces its state by n. */
  function Act(s: State, p: PlayerId, n: Node): State
    requires p in s.nodes
  {
    s.(nodes := s.nodes[p := n], missed := Untold(s, p, n))
  }

  function Pop(s: State, p: PlayerId, q: PlayerId): State
    requires |Wire(s, p, q)| > 0
  {
    s.(wire := s.wire[(p, q) := Wire(s, p, q)[1..]], busy := s.busy - {(p, q)})
  }

  /** From now on p tells q about its groups, but q has not heard of the ones in gs. */
  function Unaware(s: State, p: PlayerId, q: PlayerId, gs: set<GroupId>): State {
    s.(missed := (set t | t in s.missed && !(t.0 == p && t.1 == q)) + (set g | g in gs :: (p, q, g)))
  }

  function Initial(): State {
    State(map[HOST := Hosting()], map[], {}, {}, map[], map[], map[], {})
  }

  ghost predicate Enabled(s: State, a: Step) {
    match a
    case LetIn(ds, cs) =>
      HOST in s.nodes && HOST !in s.crashed && Lists(s.nodes[HOST], ds, cs)
    case Link(r, q, ds, cs) =>
      && r in s.nodes && r !in s.crashed && r != HOST && InSession(s.nodes[r]) && Lists(s.nodes[r], ds, cs)
      && q in s.nodes && r in s.nodes[q].todo && HOST !in s.nodes[q].todo && q !in s.nodes[r].conn
    case CreateGroup(p, _) =>
      p in s.nodes && p !in s.crashed && InSession(s.nodes[p])
    case DestroyGroup(p, g) =>
      && p in s.nodes && p !in s.crashed && InSession(s.nodes[p])
      && g in s.nodes[p].groups && g !in s.nodes[p].tombs
    case AddPlayer(p, g, who) =>
      && p in s.nodes && p !in s.crashed && InSession(s.nodes[p])
      && g in s.nodes[p].groups && g !in s.nodes[p].tombs && who !in s.nodes[p].groups[g].members
      && (who == p || who in s.nodes[p].conn)
    case RemovePlayer(p, g, who) =>
      && p in s.nodes && p !in s.crashed && InSession(s.nodes[p])
      && g in s.nodes[p].groups && who in s.nodes[p].groups[g].members
      && (who == p || who in s.nodes[p].conn)
    case Erase(p, g) =>
      p in s.nodes && p !in s.crashed && g in s.nodes[p].erasing
    case Transmit(p, q) =>
      p in s.nodes && p !in s.crashed && |Out(s.nodes[p], q)| > 0
    case Promote(q) =>
      && HOST in s.nodes && HOST !in s.crashed
      && q in s.nodes[HOST].held && |Out(s.nodes[HOST], q)| == 0
    case Deliver(p, q) =>
      q in s.nodes && q !in s.crashed && |Wire(s, p, q)| > 0 && (p, q) !in s.busy
    case Resume(p, q) =>
      && q in s.nodes && q !in s.crashed && |Wire(s, p, q)| > 0 && (p, q) in s.busy
      && (Wire(s, p, q)[0].Join? || Wire(s, p, q)[0].Joined?)
  }

  /** The history that q adds when it handles m from p in state n. */
  function Recorded(s: State, n: Node, p: PlayerId, q: PlayerId, m: Message): State {
    match m
    case Allocate(_) =>
      if p in n.conn then s.(grants := s.grants[n.next := p]) else s
    case Granted(ack, g) =>
      if ack in n.pending then s.(created := s.created[g := Origin(q, n.pending[ack])]) else s
    case Welcome(_, _) =>
      if p in n.conn then s else Unaware(s, q, p, set g | g in n.groups && q in n.groups[g].members)
    case _ => s
  }

  ghost function Next(s: State, a: Step, build: Build): State
    requires Enabled(s, a)
  {
    match a
    case LetIn(ds, cs) =>
      var q := s.nodes[HOST].next;
      var t := Act(s, HOST, HostAccept(s.nodes[HOST], q, ds, cs));
      t.(nodes := t.nodes[q := Joiner()])
    case Link(r, q, ds, cs) =>
      Unaware(Act(s, r, PeerAccept(s.nodes[r], r, q, ds, cs)), r, q, {})
    case CreateGroup(p, info) =>
      var n := s.nodes[p];
      if p == HOST then
        Act(s, p, CreateHere(n, n.next, info).(next := n.next + 1))
          .(created := s.created[n.next := Origin(p, info)], grants := s.grants[n.next := p])
      else
        Act(s, p, AskHost(n, info))
    case DestroyGroup(p, g) =>
      Act(s, p, DestroyHere(s.nodes[p], g)).(destroyed := s.destroyed[g := p])
    case AddPlayer(p, g, who) =>
      var n := s.nodes[p];
      Act(s, p, if who == p then JoinHere(n, p, g) else Enqueue(n, who, Join(g, n.groups[g].info)))
    case RemovePlayer(p, g, who) =>
      var n := s.nodes[p];
      Act(s, p, if who == p then LeaveHere(n, p, g) else Enqueue(n, who, Leave(g)))
    case Erase(p, g) =>
      Act(s, p, EraseHere(s.nodes[p], g))
    case Transmit(p, q) =>
      var n := s.nodes[p];
      s.(nodes := s.nodes[p := Sent(n, q)], wire := s.wire[(p, q) := Wire(s, p, q) + [Out(n, q)[0]]])
    case Promote(q) =>
      var n := s.nodes[HOST];
      var ok := n.held[q];
      var t := s.(nodes := s.nodes[HOST := n.(held := n.held - {q})],
                  wire := s.wire[(HOST, q) := Wire(s, HOST, q) + [ok]]);
      var now := MemberOf(n, HOST);
      var then' := if ok.Welcome? then ok.memberOf else {};
      Unaware(t, HOST, q, (now - then') + (then' - now))
    case Deliver(p, q) =>
      var n := s.nodes[q];
      var m := Wire(s, p, q)[0];
      if MustInstantiate(n, p, m) then
        Act(s, q, Emplace(n, m.g, m.info)).(busy := s.busy + {(p, q)})
      else
        Pop(Recorded(Act(s, q, Handle(n, q, p, m)), n, p, q, m), p, q)
    case Resume(p, q) =>
      var n := s.nodes[q];
      var m := Wire(s, p, q)[0];
      if build == Shipped && m.g in n.groups then s.(crashed := s.crashed + {q})
      else Pop(Act(s, q, Settle(n, q, p, m)), p, q)
  }
}
