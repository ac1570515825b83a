/** The group protocol as one peer runs it: the state a peer keeps about groups, and what each API call and each
    received message does to that state between taking the peer's lock and releasing it.

    `out` is the HIGH priority send queue towards each peer, `held` the one MEDIUM priority message
    (CONNECT_HOST_OK) that the host may still have queued for a joining peer.
 */
module GroupProtocol {

  type PlayerId = nat
  type GroupId = nat

  /** The host is always the first player to get an identifier. */
  const HOST: PlayerId := 1

  datatype Info = Info(name: seq<bv16>, data: seq<bv8>)

  datatype Group = Group(info: Info, members: set<PlayerId>)

  datatype Message =
    | Create(g: GroupId, info: Info)
    | Destroy(g: GroupId)
    | Join(g: GroupId, info: Info)
    | Joined(g: GroupId, info: Info)
    | Leave(g: GroupId)
    | Left(g: GroupId)
    | Allocate(ack: nat)
    | Granted(ack: nat, g: GroupId)
    | Welcome(memberOf: set<GroupId>, others: set<PlayerId>)

  /** `tombs` is destroyed_groups; `erasing` holds the groups whose destroy callback is still running, so that
      the entry in `groups` is yet to be erased; `conn` are the peers in PS_CONNECTED; `todo` the outgoing
      connections that have not been answered (empty once the peer is in STATE_HOSTING or STATE_CONNECTED);
      `pending` the group allocations registered with the host, by acknowledgement identifier. */
  datatype Node = Node(
    groups: map<GroupId, Group>,
    tombs: set<GroupId>,
    erasing: set<GroupId>,
    conn: set<PlayerId>,
    todo: set<PlayerId>,
    out: map<PlayerId, seq<Message>>,
    held: map<PlayerId, Message>,
    next: nat,
    nextAck: nat,
    asked: map<nat, Info>,
    pending: map<nat, Info>)

  function Out(n: Node, q: PlayerId): seq<Message> {
    if q in n.out then n.out[q] else []
  }

  function Members(n: Node, g: GroupId): set<PlayerId> {
    if g in n.groups then n.groups[g].members else {}
  }

  /** The peer has heard of `g`, be it alive or destroyed. */
  predicate Knows(n: Node, g: GroupId) {
    g in n.groups || g in n.tombs
  }

  predicate InSession(n: Node) {
    n.todo == {}
  }

  function Enqueue(n: Node, q: PlayerId, m: Message): (r: Node)
    ensures forall x :: Out(r, x) == if x == q then Out(n, x) + [m] else Out(n, x)
  {
    n.(out := n.out[q := Out(n, q) + [m]])
  }

  /** Queues `m` for every peer in PS_CONNECTED. */
  function Broadcast(n: Node, m: Message): (r: Node)
    ensures forall x :: Out(r, x) == if x in n.conn then Out(n, x) + [m] else Out(n, x)
  {
    n.(out := map q | q in n.out.Keys + n.conn :: if q in n.conn then Out(n, q) + [m] else Out(n, q))
  }

  /** std::map::emplace: an entry that is already there stays as it is. */
  function Emplace(n: Node, g: GroupId, info: Info): Node {
    if g in n.groups then n else n.(groups := n.groups[g := Group(info, {})])
  }

  function SetMembers(n: Node, g: GroupId, members: set<PlayerId>): Node
    requires g in n.groups
  {
    n.(groups := n.groups[g := n.groups[g].(members := members)])
  }

  function JoinHere(n: Node, self: PlayerId, g: GroupId): Node
    requires g in n.groups
  {
    if self in n.groups[g].members then n
    else SetMembers(Broadcast(n, Joined(g, n.groups[g].info)), g, n.groups[g].members + {self})
  }

  function LeaveHere(n: Node, self: PlayerId, g: GroupId): Node
    requires g in n.groups
  {
    if self !in n.groups[g].members then n
    else SetMembers(Broadcast(n, Left(g)), g, n.groups[g].members - {self})
  }

  /** CreateGroup() once the identifier is known. */
  function CreateHere(n: Node, g: GroupId, info: Info): Node {
    Broadcast(Emplace(n, g, info), Create(g, info))
  }

  /** DestroyGroup(): the tombstone and the announcement; the entry goes when the callback has returned. */
  function DestroyHere(n: Node, g: GroupId): Node {
    Broadcast(n, Destroy(g)).(tombs := n.tombs + {g}, erasing := n.erasing + {g})
  }

  function EraseHere(n: Node, g: GroupId): Node {
    n.(groups := n.groups - {g}, erasing := n.erasing - {g})
  }

  /** A JOIN or JOINED about a group this peer has never heard of: the handler first inserts the group and calls
      the application, and goes on when the application has returned. */
  predicate MustInstantiate(n: Node, from: PlayerId, m: Message) {
    && (m.Join? || m.Joined?)
    && from in n.conn
    && !Knows(n, m.g)
  }

  /** What a JOIN or JOINED handler does with the group pointer in hand. */
  function Settle(n: Node, self: PlayerId, from: PlayerId, m: Message): Node
    requires m.Join? || m.Joined?
  {
    if m.g !in n.groups then n
    else if m.Join? then JoinHere(n, self, m.g)
    else SetMembers(n, m.g, n.groups[m.g].members + {from})
  }

  function AddTo(groups: map<GroupId, Group>, p: PlayerId, gs: set<GroupId>): map<GroupId, Group> {
    map g | g in groups :: if g in gs then groups[g].(members := groups[g].members + {p}) else groups[g]
  }

  /** The groups this peer is in, as it tells a peer that connects. */
  function MemberOf(n: Node, self: PlayerId): set<GroupId> {
    set g | g in n.groups && g !in n.tombs && self in n.groups[g].members
  }

  /** CONNECT_HOST_OK or CONNECT_PEER_OK: mark the sender connected, enter it into the groups it named and start
      the connections it asked for. */
  function Welcomed(n: Node, self: PlayerId, from: PlayerId, m: Message): Node
    requires m.Welcome?
  {
    n.(conn := n.conn + {from},
       todo := (n.todo - {from}) + m.others,
       groups := AddTo(n.groups, from, m.memberOf - n.tombs))
  }

  /** One received message, handled to the end. */
  function Handle(n: Node, self: PlayerId, from: PlayerId, m: Message): Node {
    match m
    case Create(g, info) =>
      if Knows(n, g) then n else Emplace(n, g, info)
    case Destroy(g) =>
      if g in n.tombs then n
      else n.(tombs := n.tombs + {g}, erasing := if g in n.groups then n.erasing + {g} else n.erasing)
    case Join(g, _) =>
      if from !in n.conn || g in n.tombs then n else Settle(n, self, from, m)
    case Joined(g, _) =>
      if from !in n.conn || g in n.tombs then n else Settle(n, self, from, m)
    case Leave(g) =>
      if from !in n.conn || g in n.tombs || g !in n.groups then n else LeaveHere(n, self, g)
    case Left(g) =>
      if from !in n.conn || g in n.tombs || g !in n.groups then n
      else SetMembers(n, g, n.groups[g].members - {from})
    case Allocate(ack) =>
      if from !in n.conn then n else Enqueue(n, from, Granted(ack, n.next)).(next := n.next + 1)
    case Granted(ack, g) =>
      if ack !in n.pending then n
      else CreateHere(n.(pending := n.pending - {ack}), g, n.pending[ack])
    case Welcome(_, _) =>
      if from in n.conn then n else Welcomed(n, self, from, m)
  }

  /** The destroyed groups and then the live ones, as sent to a peer that is let in. */
  function Snapshot(n: Node, ds: seq<GroupId>, cs: seq<GroupId>): seq<Message>
    requires forall g :: g in cs ==> g in n.groups
  {
    seq(|ds|, i requires 0 <= i < |ds| => Destroy(ds[i]))
    + seq(|cs|, i requires 0 <= i < |cs| => Create(cs[i], n.groups[cs[i]].info))
  }

  /** `ds` and `cs` list the destroyed and the live groups. */
  ghost predicate Lists(n: Node, ds: seq<GroupId>, cs: seq<GroupId>) {
    && (forall g :: g in ds <==> g in n.tombs)
    && (forall g :: g in cs <==> g in n.groups && g !in n.tombs)
  }

  /** The host lets `q` in: the snapshot goes out at HIGH, the CONNECT_HOST_OK at MEDIUM. */
  function HostAccept(n: Node, q: PlayerId, ds: seq<GroupId>, cs: seq<GroupId>): Node
    requires Lists(n, ds, cs)
  {
    n.(out := n.out[q := Out(n, q) + Snapshot(n, ds, cs)],
       held := n.held[q := Welcome(MemberOf(n, HOST), n.conn - {q})],
       conn := n.conn + {q},
       next := n.next + 1)
  }

  /** A peer in the session answers CONNECT_PEER: everything goes out at HIGH, in order. */
  function PeerAccept(n: Node, self: PlayerId, q: PlayerId, ds: seq<GroupId>, cs: seq<GroupId>): Node
    requires Lists(n, ds, cs)
  {
    n.(out := n.out[q := Out(n, q) + Snapshot(n, ds, cs) + [Welcome(MemberOf(n, self), {})]],
       conn := n.conn + {q})
  }

  /** A player the host has just let in, before it has received anything. */
  function Joiner(): Node {
    Node(map[], {}, {}, {}, {HOST}, map[], map[], 0, 1, map[], map[])
  }

  /** A peer that has called Host(). */
  function Hosting(): Node {
    Node(map[], {}, {}, {}, {}, map[], map[], 2, 1, map[], map[])
  }

  /** CreateGroup() on a peer that is not the host: ask for an identifier. */
  function AskHost(n: Node, info: Info): Node {
    Enqueue(n, HOST, Allocate(n.nextAck)).(nextAck := n.nextAck + 1, asked := n.asked[n.nextAck := info])
  }

  /** The message at the head of a send queue has been written out; its callback registers the acknowledgement. */
  function Sent(n: Node, q: PlayerId): Node
    requires |Out(n, q)| > 0
  {
    var m := Out(n, q)[0];
    var rest := n.(out := n.out[q := Out(n, q)[1..]]);
    if m.Allocate? && m.ack in n.asked
    then rest.(pending := n.pending[m.ack := n.asked[m.ack]], asked := n.asked - {m.ack})
    else rest
  }
}
