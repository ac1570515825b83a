/** Who ends up in a group: a peer that puts itself in or takes itself out is a member, or is not, and has told
    everybody; a peer that is asked to does the same when the request reaches it.
 */
module MeshRequests {
  import opened GroupProtocol
  import opened Mesh

  /** The peer has changed its own membership of g and queued the news for every connected peer; that is all. */
  ghost predicate Switched(n: Node, n': Node, self: PlayerId, g: GroupId, inside: bool, news: Message) {
    && g in n.groups && n'.groups.Keys == n.groups.Keys
    && (forall h :: h in n.groups && h != g ==> n'.groups[h] == n.groups[h])
    && n'.groups[g].info == n.groups[g].info
    && (forall x :: x in Members(n', g) <==> if x == self then inside else x in Members(n, g))
    && (forall x :: Out(n', x) == Out(n, x) + if x in n.conn then [news] else [])
    && n' == n.(groups := n'.groups, out := n'.out)
  }

  /** Peer p goes from its state to n', with its membership of g changed to `inside`, if it was not so already. */
  ghost predicate Goes(n: Node, n': Node, self: PlayerId, g: GroupId, inside: bool) {
    g in n.groups
    && if (self in Members(n, g)) == inside then n' == n
       else Switched(n, n', self, g, inside, if inside then Joined(g, n.groups[g].info) else Left(g))
  }

  lemma JoinGoes(n: Node, self: PlayerId, g: GroupId)
    requires g in n.groups
    ensures Goes(n, JoinHere(n, self, g), self, g, true)
  {
    assert forall x :: Out(n, x) + [] == Out(n, x);
  }

  lemma LeaveGoes(n: Node, self: PlayerId, g: GroupId)
    requires g in n.groups
    ensures Goes(n, LeaveHere(n, self, g), self, g, false)
  {
    assert forall x :: Out(n, x) + [] == Out(n, x);
  }

  /** Peer p is in state n' and every other peer as it was. */
  ghost predicate NowAt(s: State, t: State, p: PlayerId, n': Node) {
    t.nodes == s.nodes[p := n'] && t.crashed == s.crashed
  }

  lemma ActAt(s: State, p: PlayerId, n': Node)
    requires p in s.nodes
    ensures NowAt(s, Act(s, p, n'), p, n') && Act(s, p, n').wire == s.wire && Act(s, p, n').busy == s.busy
  {
  }

  /** The state of a peer after one of the two calls. */
  function Called(n: Node, a: Step): Node
    requires (a.AddPlayer? || a.RemovePlayer?) && a.g in n.groups
  {
    if a.who != a.p then Enqueue(n, a.who, if a.AddPlayer? then Join(a.g, n.groups[a.g].info) else Leave(a.g))
    else if a.AddPlayer? then JoinHere(n, a.p, a.g) else LeaveHere(n, a.p, a.g)
  }

  lemma CalledAt(s: State, a: Step, build: Build)
    requires Enabled(s, a) && (a.AddPlayer? || a.RemovePlayer?)
    ensures Next(s, a, build) == Act(s, a.p, Called(s.nodes[a.p], a))
  {
  }

  lemma AsksOne(n: Node, a: Step)
    requires (a.AddPlayer? || a.RemovePlayer?) && a.g in n.groups && a.who != a.p
    ensures Asks(n, Called(n, a), a)
  {
  }

  /** The one request is queued, with the group's name and data if it is to join, and nothing else happens. */
  ghost predicate Asks(n: Node, n': Node, a: Step)
    requires (a.AddPlayer? || a.RemovePlayer?) && a.g in n.groups
  {
    && n' == n.(out := n'.out) && (forall q :: q != a.who ==> Out(n', q) == Out(n, q))
    && Out(n', a.who) == Out(n, a.who) + [if a.AddPlayer? then Join(a.g, n.groups[a.g].info) else Leave(a.g)]
  }

  /** AddPlayerToGroup() and RemovePlayerFromGroup(): for itself a peer makes the change; another it asks to. */
  lemma CallsMembership(s: State, a: Step, build: Build) returns (n': Node)
    requires Enabled(s, a) && (a.AddPlayer? || a.RemovePlayer?)
    ensures var t := Next(s, a, build); NowAt(s, t, a.p, n') && t.wire == s.wire && t.busy == s.busy
    ensures if a.who == a.p then Goes(s.nodes[a.p], n', a.p, a.g, a.AddPlayer?) else Asks(s.nodes[a.p], n', a)
  {
    var n := s.nodes[a.p];
    n' := Called(n, a);
    CalledAt(s, a, build);
    ActAt(s, a.p, n');
    if a.who != a.p {
      AsksOne(n, a);
    } else if a.AddPlayer? {
      JoinGoes(n, a.p, a.g);
    } else {
      LeaveGoes(n, a.p, a.g);
    }
  }

  /** A JOIN or LEAVE is at the front, and a thread goes on with it that is not about to call the application or to
      crash. */
  ghost predicate Handles(s: State, a: Step, build: Build) {
    && Enabled(s, a) && (a.Deliver? || a.Resume?)
    && var n, m := s.nodes[a.q], Wire(s, a.p, a.q)[0];
       && (m.Join? || m.Leave?) && m.g in n.groups
       && (a.Resume? ==> build.Documented?)
       && (a.Deliver? ==> a.p in n.conn && m.g !in n.tombs)
  }

  lemma HandledAt(s: State, a: Step, build: Build)
    requires Handles(s, a, build)
    ensures var n, m, t := s.nodes[a.q], Wire(s, a.p, a.q)[0], Next(s, a, build);
            var n' := if m.Join? then JoinHere(n, a.q, m.g) else LeaveHere(n, a.q, m.g);
            t == Pop(Act(s, a.q, n'), a.p, a.q)
  {
  }

  /** A request that reaches a peer with the group does what its sender asked for: the peer is in the group after a
      JOIN, and is not after a LEAVE, and everybody that it is connected to is told of the change. */
  lemma RequestDone(s: State, a: Step, build: Build) returns (n': Node)
    requires Handles(s, a, build)
    ensures NowAt(s, Next(s, a, build), a.q, n')
    ensures var m := Wire(s, a.p, a.q)[0]; Goes(s.nodes[a.q], n', a.q, m.g, m.Join?)
    ensures Wire(Next(s, a, build), a.p, a.q) == Wire(s, a.p, a.q)[1..]
  {
    var n, m := s.nodes[a.q], Wire(s, a.p, a.q)[0];
    HandledAt(s, a, build);
    n' := if m.Join? then JoinHere(n, a.q, m.g) else LeaveHere(n, a.q, m.g);
    ActAt(s, a.q, n');
    if m.Join? {
      JoinGoes(n, a.q, m.g);
    } else {
      LeaveGoes(n, a.q, m.g);
    }
  }

  /** The same for a group that the peer has not heard of: the JOIN brings it, and when the application has returned,
      the handler goes on as above. */
  lemma UnknownGroupComes(s: State, p: PlayerId, q: PlayerId, build: Build)
    requires Enabled(s, Deliver(p, q)) && Wire(s, p, q)[0].Join? && p in s.nodes[q].conn
    requires !Knows(s.nodes[q], Wire(s, p, q)[0].g)
    ensures var t, m := Next(s, Deliver(p, q), build), Wire(s, p, q)[0];
            && t.nodes[q] == s.nodes[q].(groups := s.nodes[q].groups[m.g := Group(m.info, {})])
            && Wire(t, p, q) == Wire(s, p, q) && Enabled(t, Resume(p, q)) && Handles(t, Resume(p, q), Documented)
  {
  }
}
