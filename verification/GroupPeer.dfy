/** The group operations of class DirectPlay8Peer on the fields that they update in place. Each method is what happens
    under one hold of the lock; it computes the function of module GroupProtocol that the session model is built from.
 */
module GroupPeer {
  import opened GroupProtocol
  import Mesh

  datatype Status = Ok | InvalidGroup | AlreadyInGroup | NotInGroup | InvalidPlayer

  /** The acknowledgement that a handler sends back, if any. */
  datatype Ack = NoAck | Acked(status: Status)

  /** A peer in PS_CONNECTED or not, with its HIGH priority send queue. */
  datatype Peer = Peer(connected: bool, sq: seq<Message>)

  class GroupPeer {
    const self: PlayerId
    var groups: map<GroupId, Group>
    var destroyedGroups: set<GroupId>
    var erasing: set<GroupId>
    var peers: map<PlayerId, Peer>
    var todo: set<PlayerId>
    var held: map<PlayerId, Message>
    var nextPlayerId: nat
    var nextAckId: nat
    var asked: map<nat, Info>
    var pendingAcks: map<nat, Info>

    ghost function Value(): Node
      reads this
    {
      Node(groups, destroyedGroups, erasing, Connected(peers), todo, Queues(peers), held,
           nextPlayerId, nextAckId, asked, pendingAcks)
    }

    constructor Host()
      ensures Value() == Hosting()
    {
      self := HOST;
      groups, destroyedGroups, erasing, peers, todo, held := map[], {}, {}, map[], {}, map[];
      nextPlayerId, nextAckId, asked, pendingAcks := 2, 1, map[], map[];
      new;
      assert Connected(peers) == {};
    }

    /** The loop over the peers that every announcement goes through. */
    method SendToAll(m: Message)
      modifies this`peers
      ensures Value() == Broadcast(old(Value()), m)
      ensures peers.Keys == old(peers).Keys
    {
      var was := peers;
      var rest := peers.Keys;
      while rest != {}
        invariant rest <= was.Keys && peers.Keys == was.Keys
        invariant forall q :: q in was ==>
                    peers[q] == if q in rest || !was[q].connected then was[q] else was[q].(sq := was[q].sq + [m])
      {
        var q :| q in rest;
        rest := rest - {q};
        if peers[q].connected {
          peers := peers[q := peers[q].(sq := peers[q].sq + [m])];
        }
      }
      SentToAll(was, peers, m);
    }

    method SendTo(q: PlayerId, m: Message)
      requires q in peers
      modifies this`peers
      ensures Value() == Enqueue(old(Value()), q, m) && peers.Keys == old(peers).Keys
    {
      var was := peers;
      peers := peers[q := peers[q].(sq := peers[q].sq + [m])];
      assert Connected(peers) == Connected(was);
      assert Queues(peers) == Queues(was)[q := Queues(was)[q] + [m]];
    }

    /** What CreateGroup() does once the identifier is known. */
    method CreateTheGroup(g: GroupId, info: Info)
      modifies this`groups, this`peers
      ensures Value() == CreateHere(old(Value()), g, info)
    {
      if g !in groups {
        groups := groups[g := Group(info, {})];
      }
      SendToAll(Create(g, info));
    }

    method CreateGroup(info: Info)
      requires self != HOST ==> HOST in peers
      modifies this
      ensures Value() == if self == HOST
                         then CreateHere(old(Value()), old(nextPlayerId), info).(next := old(nextPlayerId) + 1)
                         else AskHost(old(Value()), info)
    {
      if self == HOST {
        var g := nextPlayerId;
        nextPlayerId := nextPlayerId + 1;
        CreateTheGroup(g, info);
      } else {
        AskTheHost(info);
      }
    }

    method AskTheHost(info: Info)
      requires HOST in peers
      modifies this`nextAckId, this`asked, this`peers
      ensures Value() == AskHost(old(Value()), info)
    {
      var ack := nextAckId;
      nextAckId := nextAckId + 1;
      asked := asked[ack := info];
      SendTo(HOST, Allocate(ack));
    }

    method DestroyGroup(g: GroupId) returns (status: Status)
      modifies this
      ensures status == if old(g !in groups || g in destroyedGroups) then InvalidGroup else Ok
      ensures Value() == if status == Ok then DestroyHere(old(Value()), g) else old(Value())
    {
      if g !in groups || g in destroyedGroups {
        return InvalidGroup;
      }
      destroyedGroups := destroyedGroups + {g};
      SendToAll(Destroy(g));
      erasing := erasing + {g};
      return Ok;
    }

    /** The thread that DestroyGroup() started, or the handler of GROUP_DESTROY, when the application has returned. */
    method Erase(g: GroupId)
      modifies this`groups, this`erasing
      ensures forall x :: x in groups <==> x in old(groups) && x != g
      ensures forall x :: x in groups ==> groups[x] == old(groups)[x]
      ensures forall x :: x in erasing <==> x in old(erasing) && x != g
      ensures Value() == EraseHere(old(Value()), g)
    {
      groups, erasing := groups - {g}, erasing - {g};
    }

    /** This peer itself joins a group that it is not in. */
    method EnterGroup(g: GroupId)
      requires g in groups && self !in groups[g].members
      modifies this`groups, this`peers
      ensures Value() == JoinHere(old(Value()), self, g)
    {
      SendToAll(Joined(g, groups[g].info));
      groups := groups[g := groups[g].(members := groups[g].members + {self})];
    }

    method QuitGroup(g: GroupId)
      requires g in groups && self in groups[g].members
      modifies this`groups, this`peers
      ensures Value() == LeaveHere(old(Value()), self, g)
    {
      SendToAll(Left(g));
      groups := groups[g := groups[g].(members := groups[g].members - {self})];
    }

    method AddPlayerToGroup(g: GroupId, who: PlayerId) returns (status: Status)
      modifies this`groups, this`peers
      ensures status == old(if g !in groups || g in destroyedGroups then InvalidGroup
                            else if who in groups[g].members then AlreadyInGroup
                            else if who != self && who !in peers then InvalidPlayer else Ok)
      ensures Value() == if status != Ok then old(Value())
                         else if who == self then JoinHere(old(Value()), self, g)
                         else Enqueue(old(Value()), who, Join(g, old(groups)[g].info))
    {
      if g !in groups || g in destroyedGroups {
        return InvalidGroup;
      }
      if who in groups[g].members {
        return AlreadyInGroup;
      }
      if who == self {
        EnterGroup(g);
      } else {
        if who !in peers {
          return InvalidPlayer;
        }
        SendTo(who, Join(g, groups[g].info));
      }
      return Ok;
    }

    method RemovePlayerFromGroup(g: GroupId, who: PlayerId) returns (status: Status)
      modifies this`groups, this`peers
      ensures status == old(if g !in groups then InvalidGroup
                            else if who !in groups[g].members then NotInGroup
                            else if who != self && who !in peers then InvalidPlayer else Ok)
      ensures Value() == if status != Ok then old(Value())
                         else if who == self then LeaveHere(old(Value()), self, g)
                         else Enqueue(old(Value()), who, Leave(g))
    {
      if g !in groups {
        return InvalidGroup;
      }
      if who !in groups[g].members {
        return NotInGroup;
      }
      if who == self {
        QuitGroup(g);
      } else {
        if who !in peers {
          return InvalidPlayer;
        }
        SendTo(who, Leave(g));
      }
      return Ok;
    }

    // -------------------------------------------------------------- messages

    method HandleGroupCreate(from: PlayerId, g: GroupId, info: Info)
      modifies this`groups
      ensures Value() == Handle(old(Value()), self, from, Create(g, info))
    {
      if g in groups || g in destroyedGroups {
        return;
      }
      groups := groups[g := Group(info, {})];
    }

    method HandleGroupDestroy(from: PlayerId, g: GroupId)
      modifies this`destroyedGroups, this`erasing
      ensures Value() == Handle(old(Value()), self, from, Destroy(g))
    {
      if g in destroyedGroups {
        return;
      }
      destroyedGroups := destroyedGroups + {g};
      if g in groups {
        erasing := erasing + {g};
      }
    }

    /** GROUP_JOIN and GROUP_JOINED up to the point where the application hears of a new group: `calls` says whether
        it does, and then the handler is still to go on. */
    method HandleJoin(from: PlayerId, m: Message) returns (calls: bool, ack: Ack)
      requires m.Join? || m.Joined?
      modifies this`groups, this`peers
      ensures calls == MustInstantiate(old(Value()), from, m)
      ensures Value() == if calls then Emplace(old(Value()), m.g, m.info) else Handle(old(Value()), self, from, m)
      ensures ack == if calls || m.Joined? || from !in old(Value()).conn then NoAck
                     else if m.g in old(destroyedGroups) then Acked(InvalidGroup)
                     else if self in old(groups)[m.g].members then Acked(AlreadyInGroup)
                     else Acked(Ok)
    {
      calls, ack := false, NoAck;
      if from !in peers || !peers[from].connected {
        return;
      }
      if m.g in destroyedGroups {
        ack := if m.Join? then Acked(InvalidGroup) else NoAck;
        return;
      }
      if m.g !in groups {
        groups := groups[m.g := Group(m.info, {})];
        return true, NoAck;
      }
      ack := SettleJoin(from, m);
    }

    /** The rest of these handlers, with the group looked up: it may be gone. */
    method SettleJoin(from: PlayerId, m: Message) returns (ack: Ack)
      requires m.Join? || m.Joined?
      modifies this`groups, this`peers
      ensures Value() == Settle(old(Value()), self, from, m)
      ensures ack == if m.Joined? then NoAck
                     else if m.g !in old(groups) then Acked(InvalidGroup)
                     else if self in old(groups)[m.g].members then Acked(AlreadyInGroup)
                     else Acked(Ok)
    {
      if m.g !in groups {
        return if m.Join? then Acked(InvalidGroup) else NoAck;
      }
      if m.Joined? {
        groups := groups[m.g := groups[m.g].(members := groups[m.g].members + {from})];
        return NoAck;
      }
      if self in groups[m.g].members {
        return Acked(AlreadyInGroup);
      }
      EnterGroup(m.g);
      return Acked(Ok);
    }

    /** Such a handler when the application has returned, in both programs: the shipped one looks the group up into a
        variable that goes out of scope, and goes on with the null pointer. */
    method ResumeJoin(from: PlayerId, m: Message, build: Mesh.Build) returns (crashed: bool, ack: Ack)
      requires m.Join? || m.Joined?
      modifies this`groups, this`peers
      ensures crashed <==> build.Shipped? && m.g in old(groups)
      ensures Value() == if crashed then old(Value()) else Settle(old(Value()), self, from, m)
      ensures !crashed && m.Join? && m.g !in old(groups) ==> ack == Acked(InvalidGroup)
    {
      if build.Shipped? && m.g in groups {
        return true, NoAck;
      }
      crashed := false;
      ack := SettleJoin(from, m);
    }

    method HandleGroupLeave(from: PlayerId, g: GroupId) returns (ack: Ack)
      modifies this`groups, this`peers
      ensures Value() == Handle(old(Value()), self, from, Leave(g))
      ensures ack == if from !in old(Value()).conn then NoAck
                     else if g in old(destroyedGroups) then Acked(InvalidGroup)
                     else if g !in old(groups) then NoAck
                     else if self !in old(groups)[g].members then Acked(NotInGroup)
                     else Acked(Ok)
    {
      if from !in peers || !peers[from].connected {
        return NoAck;
      }
      if g in destroyedGroups {
        return Acked(InvalidGroup);
      }
      if g !in groups {
        return NoAck;
      }
      if self !in groups[g].members {
        return Acked(NotInGroup);
      }
      QuitGroup(g);
      return Acked(Ok);
    }

    method HandleGroupLeft(from: PlayerId, g: GroupId)
      modifies this`groups
      ensures Value() == Handle(old(Value()), self, from, Left(g))
    {
      if from !in peers || !peers[from].connected || g in destroyedGroups || g !in groups {
        return;
      }
      groups := groups[g := groups[g].(members := groups[g].members - {from})];
    }

    method HandleGroupAllocate(from: PlayerId, ack: nat)
      modifies this`peers, this`nextPlayerId
      ensures Value() == Handle(old(Value()), self, from, Allocate(ack))
    {
      if from !in peers || !peers[from].connected {
        return;
      }
      var g := nextPlayerId;
      nextPlayerId := nextPlayerId + 1;
      SendTo(from, Granted(ack, g));
    }

    method HandleGranted(from: PlayerId, ack: nat, g: GroupId)
      modifies this`groups, this`peers, this`pendingAcks
      ensures Value() == Handle(old(Value()), self, from, Granted(ack, g))
    {
      if ack !in pendingAcks {
        return;
      }
      var info := pendingAcks[ack];
      pendingAcks := pendingAcks - {ack};
      CreateTheGroup(g, info);
    }

    /** The loops that tell a peer that is let in what groups there are; they also collect the groups that this peer is
        in. */
    method SendGroups(q: PlayerId) returns (ghost ds: seq<GroupId>, ghost cs: seq<GroupId>, mine: set<GroupId>)
      requires q in peers
      modifies this`peers
      ensures Lists(old(Value()), ds, cs) && mine == MemberOf(old(Value()), self)
      ensures var n := old(Value()); Value() == n.(out := n.out[q := Out(n, q) + Snapshot(n, ds, cs)])
      ensures peers.Keys == old(peers).Keys
    {
      ghost var n := Value();
      ds := SendDestroyed(q);
      ghost var mid := peers[q].sq;
      cs, mine := SendLive(q);
      var start := n.out[q];
      assert peers[q].sq == start + Snapshot(n, ds, cs);
    }

    method SendDestroyed(q: PlayerId) returns (ghost ds: seq<GroupId>)
      requires q in peers
      modifies this`peers
      ensures forall g :: g in ds <==> g in destroyedGroups
      ensures peers == old(peers)[q := old(peers)[q].(sq := old(peers)[q].sq + Destroys(ds))]
    {
      ds := [];
      var start := peers[q].sq;
      assert start + Destroys([]) == start;
      var rest := destroyedGroups;
      while rest != {}
        invariant rest <= destroyedGroups && forall g :: g in ds <==> g in destroyedGroups && g !in rest
        invariant peers == old(peers)[q := old(peers)[q].(sq := start + Destroys(ds))]
      {
        var g :| g in rest;
        rest := rest - {g};
        peers := peers[q := peers[q].(sq := peers[q].sq + [Destroy(g)])];
        assert Destroys(ds + [g]) == Destroys(ds) + [Destroy(g)];
        assert (start + Destroys(ds)) + [Destroy(g)] == start + Destroys(ds + [g]);
        ds := ds + [g];
      }
    }

    method SendLive(q: PlayerId) returns (ghost cs: seq<GroupId>, mine: set<GroupId>)
      requires q in peers
      modifies this`peers
      ensures forall g :: g in cs <==> g in groups && g !in destroyedGroups
      ensures mine == set g | g in groups && g !in destroyedGroups && self in groups[g].members
      ensures peers == old(peers)[q := old(peers)[q].(sq := old(peers)[q].sq + Creates(groups, cs))]
    {
      cs, mine := [], {};
      var start := peers[q].sq;
      assert start + Creates(groups, []) == start;
      var rest := groups.Keys;
      while rest != {}
        invariant rest <= groups.Keys
        invariant forall g :: g in cs <==> g in groups && g !in destroyedGroups && g !in rest
        invariant mine == set g | g in groups && g !in rest && g !in destroyedGroups && self in groups[g].members
        invariant peers == old(peers)[q := old(peers)[q].(sq := start + Creates(groups, cs))]
      {
        var g :| g in rest;
        rest := rest - {g};
        if g !in destroyedGroups {
          peers := peers[q := peers[q].(sq := peers[q].sq + [Create(g, groups[g].info)])];
          assert Creates(groups, cs + [g]) == Creates(groups, cs) + [Create(g, groups[g].info)];
          assert (start + Creates(groups, cs)) + [Create(g, groups[g].info)] == start + Creates(groups, cs + [g]);
          cs := cs + [g];
          if self in groups[g].members {
            mine := mine + {g};
          }
        }
      }
    }

    /** A new player, connected from now on. */
    method Admit() returns (q: PlayerId, others: set<PlayerId>)
      requires nextPlayerId !in peers
      modifies this`peers, this`nextPlayerId
      ensures q == old(nextPlayerId) && q in peers && others == old(Value()).conn
      ensures q !in old(Value()).out && q !in old(Value()).conn
      ensures Value() == var n := old(Value()); n.(conn := n.conn + {q}, out := n.out[q := []], next := n.next + 1)
    {
      ghost var n := Value();
      q := nextPlayerId;
      nextPlayerId := nextPlayerId + 1;
      others := set r | r in peers && peers[r].connected;
      peers := peers[q := Peer(true, [])];
      assert Value().conn == n.conn + {q};
      assert Value().out == n.out[q := []];
    }

    /** handle_host_connect_request() when the application accepts. */
    method LetIn() returns (q: PlayerId, ghost ds: seq<GroupId>, ghost cs: seq<GroupId>)
      requires self == HOST && nextPlayerId !in peers
      modifies this
      ensures q == old(nextPlayerId) && Lists(old(Value()), ds, cs)
      ensures Value() == HostAccept(old(Value()), q, ds, cs)
    {
      ghost var n := Value();
      var others, mine;
      q, others := Admit();
      ghost var w := Value();
      ds, cs, mine := SendGroups(q);
      Accepted(n, w, q, ds, cs, mine, others);
      held := held[q := Welcome(mine, others)];
    }

    /** handle_connect_peer(): a player identifier that is known already is refused. */
    method AnswerPeer(q: PlayerId) returns (accepted: bool, ghost ds: seq<GroupId>, ghost cs: seq<GroupId>)
      modifies this`peers
      ensures accepted <==> q !in old(peers)
      ensures !accepted ==> Value() == old(Value())
      ensures accepted ==> Lists(old(Value()), ds, cs) && Value() == PeerAccept(old(Value()), self, q, ds, cs)
    {
      if q in peers {
        return false, [], [];
      }
      ghost var n := Value();
      Meet(q);
      ghost var w := Value();
      var mine;
      ds, cs, mine := SendGroups(q);
      SendTo(q, Welcome(mine, {}));
      Answered(n, w, self, q, ds, cs, mine);
      accepted := true;
    }

    /** A player that has introduced itself. */
    method Meet(q: PlayerId)
      requires q !in peers
      modifies this`peers
      ensures q in peers && q !in old(Value()).out && q !in old(Value()).conn
      ensures Value() == var n := old(Value()); n.(conn := n.conn + {q}, out := n.out[q := []])
    {
      ghost var n := Value();
      peers := peers[q := Peer(true, [])];
      assert Value().conn == n.conn + {q};
      assert Value().out == n.out[q := []];
    }

    /** handle_host_connect_ok() and handle_connect_peer_ok(). */
    method HandleWelcome(from: PlayerId, memberOf: set<GroupId>, others: set<PlayerId>)
      requires from in peers
      modifies this`peers, this`groups, this`todo
      ensures Value() == Handle(old(Value()), self, from, Welcome(memberOf, others))
    {
      if peers[from].connected {
        return;
      }
      ghost var was := peers;
      peers := peers[from := peers[from].(connected := true)];
      assert Connected(peers) == Connected(was) + {from} && Queues(peers) == Queues(was);
      EnterOther(from, memberOf);
      todo := (todo - {from}) + others;
    }

    /** The loop over the groups that the other peer is in. */
    method EnterOther(from: PlayerId, memberOf: set<GroupId>)
      modifies this`groups
      ensures groups == AddTo(old(groups), from, memberOf - destroyedGroups)
    {
      var rest := memberOf;
      ghost var done := {};
      assert AddTo(groups, from, done) == groups;
      while rest != {}
        invariant done == memberOf - rest - destroyedGroups && rest <= memberOf
        invariant groups == AddTo(old(groups), from, done)
      {
        var g :| g in rest;
        rest := rest - {g};
        if g !in destroyedGroups {
          AddMore(old(groups), from, done, g);
          done := done + {g};
          if g in groups && from !in groups[g].members {
            groups := groups[g := groups[g].(members := groups[g].members + {from})];
          }
        }
      }
    }
  }

  lemma AddMore(was: map<GroupId, Group>, from: PlayerId, done: set<GroupId>, g: GroupId)
    ensures var now := AddTo(was, from, done);
            AddTo(was, from, done + {g})
            == if g in now && from !in now[g].members then now[g := now[g].(members := now[g].members + {from})]
               else now
  {
    var now, then' := AddTo(was, from, done), AddTo(was, from, done + {g});
    if g in now && from in now[g].members {
      assert now[g].members + {from} == now[g].members;
      forall x | x in was ensures then'[x] == now[x] {
        assert now[x].members + {from} == now[x].members || x != g;
        assert was[g].members + {from} == now[g].members;
      }
    }
  }

  lemma Answered(n: Node, w: Node, self: PlayerId, q: PlayerId, ds: seq<GroupId>, cs: seq<GroupId>, mine: set<GroupId>)
    requires q !in n.out && q !in n.conn && w == n.(conn := n.conn + {q}, out := n.out[q := []])
    requires Lists(w, ds, cs) && mine == MemberOf(w, self)
    ensures Lists(n, ds, cs)
    ensures Enqueue(w.(out := w.out[q := Out(w, q) + Snapshot(w, ds, cs)]), q, Welcome(mine, {}))
         == PeerAccept(n, self, q, ds, cs)
  {
    assert MemberOf(n, self) == mine;
    assert Snapshot(n, ds, cs) == Snapshot(w, ds, cs);
    var u := w.(out := w.out[q := Out(w, q) + Snapshot(w, ds, cs)]);
    var out := Out(n, q) + Snapshot(n, ds, cs) + [Welcome(mine, {})];
    assert Out(u, q) + [Welcome(mine, {})] == out;
    assert u.out[q := out] == n.out[q := out];
  }

  lemma Accepted(
    n: Node, w: Node, q: PlayerId, ds: seq<GroupId>, cs: seq<GroupId>, mine: set<GroupId>, others: set<PlayerId>)
    requires q !in n.out && q !in n.conn && w == n.(conn := n.conn + {q}, out := n.out[q := []], next := n.next + 1)
    requires Lists(w, ds, cs) && mine == MemberOf(w, HOST) && others == n.conn
    ensures Lists(n, ds, cs)
    ensures w.(out := w.out[q := Out(w, q) + Snapshot(w, ds, cs)], held := n.held[q := Welcome(mine, others)])
         == HostAccept(n, q, ds, cs)
  {
    assert n.conn - {q} == n.conn && MemberOf(n, HOST) == mine;
    assert Snapshot(n, ds, cs) == Snapshot(w, ds, cs);
    assert w.out[q := Out(w, q) + Snapshot(w, ds, cs)] == n.out[q := Out(n, q) + Snapshot(n, ds, cs)];
  }

  ghost function Connected(peers: map<PlayerId, Peer>): set<PlayerId> {
    set q | q in peers && peers[q].connected
  }

  ghost function Queues(peers: map<PlayerId, Peer>): map<PlayerId, seq<Message>> {
    map q | q in peers :: peers[q].sq
  }

  lemma SentToAll(was: map<PlayerId, Peer>, now: map<PlayerId, Peer>, m: Message)
    requires now.Keys == was.Keys
    requires forall q :: q in was ==> now[q] == if was[q].connected then was[q].(sq := was[q].sq + [m]) else was[q]
    ensures Connected(now) == Connected(was)
    ensures Queues(now) == map q | q in Queues(was).Keys + Connected(was) ::
                             if q in Connected(was) then Queues(was)[q] + [m] else Queues(was)[q]
  {
  }

  ghost function Destroys(ds: seq<GroupId>): seq<Message> {
    seq(|ds|, i requires 0 <= i < |ds| => Destroy(ds[i]))
  }

  ghost function Creates(groups: map<GroupId, Group>, cs: seq<GroupId>): seq<Message>
    requires forall g :: g in cs ==> g in groups
  {
    seq(|cs|, i requires 0 <= i < |cs| => Create(cs[i], groups[cs[i]].info))
  }
}
