/** What each quiet step sends, in one place: nothing, one message to every connected peer, or one message to one
    peer.
 */
module MeshOutput {
  import opened GroupProtocol
  import opened Mesh
  import opened MeshLinks

  datatype Output = Silent | ToAll(m: Message) | To(q: PlayerId, m: Message)

  function Sends(o: Output, conn: set<PlayerId>, q: PlayerId): seq<Message> {
    match o
    case Silent => []
    case ToAll(m) => if q in conn then [m] else []
    case To(x, m) => if q == x then [m] else []
  }

  function SettleOutput(n: Node, self: PlayerId, m: Message): Output {
    if m.Join? && m.g in n.groups && self !in n.groups[m.g].members
    then ToAll(Joined(m.g, n.groups[m.g].info)) else Silent
  }

  function HandleOutput(n: Node, self: PlayerId, from: PlayerId, m: Message): Output {
    match m
    case Join(g, _) => if from in n.conn && g !in n.tombs then SettleOutput(n, self, m) else Silent
    case Leave(g) =>
      if from in n.conn && g !in n.tombs && g in n.groups && self in n.groups[g].members
      then ToAll(Left(g)) else Silent
    case Allocate(ack) => if from in n.conn then To(from, Granted(ack, n.next)) else Silent
    case Granted(ack, g) => if ack in n.pending then ToAll(Create(g, n.pending[ack])) else Silent
    case _ => Silent
  }

  ghost function Emits(s: State, a: Step): Output
    requires Enabled(s, a)
  {
    match a
    case CreateGroup(p, info) =>
      if p == HOST then ToAll(Create(s.nodes[p].next, info)) else To(HOST, Allocate(s.nodes[p].nextAck))
    case DestroyGroup(p, g) => ToAll(Destroy(g))
    case AddPlayer(p, g, who) =>
      var info := s.nodes[p].groups[g].info;
      if who == p then ToAll(Joined(g, info)) else To(who, Join(g, info))
    case RemovePlayer(p, g, who) => if who == p then ToAll(Left(g)) else To(who, Leave(g))
    case Deliver(p, q) =>
      var m := Wire(s, p, q)[0];
      if MustInstantiate(s.nodes[q], p, m) then Silent else HandleOutput(s.nodes[q], q, p, m)
    case Resume(p, q) => SettleOutput(s.nodes[q], q, Wire(s, p, q)[0])
    case _ => Silent
  }

  lemma SettleSends(n: Node, self: PlayerId, from: PlayerId, m: Message, q: PlayerId)
    requires m.Join? || m.Joined?
    ensures Extra(n, Settle(n, self, from, m), q) == Sends(SettleOutput(n, self, m), n.conn, q)
  {
    if m.g in n.groups {
      QuietBroadcast(n, Joined(m.g, n.groups[m.g].info));
    }
  }

  lemma HandleSends(n: Node, self: PlayerId, from: PlayerId, m: Message, q: PlayerId)
    ensures Extra(n, Handle(n, self, from, m), q) == Sends(HandleOutput(n, self, from, m), n.conn, q)
  {
    match m
    case Join(_, _) => SettleSends(n, self, from, m, q);
    case Joined(_, _) => SettleSends(n, self, from, m, q);
    case Leave(g) => QuietBroadcast(n, Left(g));
    case Granted(ack, g) =>
      if ack in n.pending { QuietCreate(n.(pending := n.pending - {ack}), g, n.pending[ack]); }
    case _ =>
  }

  lemma CallSends(s: State, a: Step, q: PlayerId)
    requires Enabled(s, a)
    requires a.CreateGroup? || a.DestroyGroup? || a.AddPlayer? || a.RemovePlayer? || a.Erase?
    ensures Extra(s.nodes[a.p], After(s, a), q) == Sends(Emits(s, a), s.nodes[a.p].conn, q)
  {
    var n := s.nodes[a.p];
    match a
    case CreateGroup(p, info) => QuietCreate(n, n.next, info);
    case DestroyGroup(p, g) => QuietBroadcast(n, Destroy(g));
    case AddPlayer(p, g, who) => QuietBroadcast(n, Joined(g, n.groups[g].info));
    case RemovePlayer(p, g, who) => QuietBroadcast(n, Left(g));
    case Erase(_, _) =>
  }

  lemma StepSends(s: State, a: Step, build: Build, q: PlayerId)
    requires Enabled(s, a) && IsQuiet(s, a, build)
    ensures Actor(a) in s.nodes
    ensures Extra(s.nodes[Actor(a)], After(s, a), q) == Sends(Emits(s, a), s.nodes[Actor(a)].conn, q)
  {
    match a
    case Deliver(p, x) =>
      var m := Wire(s, p, x)[0];
      if !MustInstantiate(s.nodes[x], p, m) { HandleSends(s.nodes[x], x, p, m, q); }
    case Resume(p, x) => SettleSends(s.nodes[x], x, p, Wire(s, p, x)[0], q);
    case _ => CallSends(s, a, q);
  }
}
