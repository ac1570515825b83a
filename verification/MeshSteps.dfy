/** What each kind of step does to a session, as much of it as the proofs about sessions need: from here on a step is
    known by its effect and not by its text.
 */
module MeshSteps {
  import opened GroupProtocol
  import opened Mesh
  import opened MeshLinks

  // ---------------------------------------------------------------- history

  ghost function NewGroup(s: State, a: Step): map<GroupId, Origin>
    requires Enabled(s, a)
  {
    match a
    case CreateGroup(p, info) => if p == HOST then map[s.nodes[p].next := Origin(p, info)] else map[]
    case Deliver(p, q) =>
      var m := Wire(s, p, q)[0];
      if m.Granted? && m.ack in s.nodes[q].pending then map[m.g := Origin(q, s.nodes[q].pending[m.ack])] else map[]
    case _ => map[]
  }

  ghost function NewGrant(s: State, a: Step): map<GroupId, PlayerId>
    requires Enabled(s, a)
  {
    match a
    case CreateGroup(p, info) => if p == HOST then map[s.nodes[p].next := p] else map[]
    case Deliver(p, q) =>
      var m := Wire(s, p, q)[0];
      if m.Allocate? && p in s.nodes[q].conn then map[s.nodes[q].next := p] else map[]
    case _ => map[]
  }

  ghost function NewTomb(s: State, a: Step): map<GroupId, PlayerId>
    requires Enabled(s, a)
  {
    if a.DestroyGroup? then map[a.g := a.p] else map[]
  }

  lemma RecordedHistory(s: State, n: Node, p: PlayerId, q: PlayerId, m: Message)
    ensures var t := Recorded(s, n, p, q, m);
            && t.created == s.created + (if m.Granted? && m.ack in n.pending
                                         then map[m.g := Origin(q, n.pending[m.ack])] else map[])
            && t.grants == s.grants + (if m.Allocate? && p in n.conn then map[n.next := p] else map[])
  {
    PlusNothing(s.created);
    PlusNothing(s.grants);
  }

  lemma DeliverHistory(s: State, a: Step, build: Build)
    requires Enabled(s, a) && a.Deliver?
    ensures Next(s, a, build).created == s.created + NewGroup(s, a)
    ensures Next(s, a, build).grants == s.grants + NewGrant(s, a)
  {
    var n := s.nodes[a.q];
    var m := Wire(s, a.p, a.q)[0];
    if MustInstantiate(n, a.p, m) {
      assert s.created + map[] == s.created;
      assert s.grants + map[] == s.grants;
    } else {
      RecordedHistory(Act(s, a.q, Handle(n, a.q, a.p, m)), n, a.p, a.q, m);
    }
  }

  lemma PlusNothing<V>(m: map<nat, V>)
    ensures m + map[] == m
  {
  }

  lemma PlusOne<V>(m: map<nat, V>, k: nat, v: V)
    ensures m + map[k := v] == m[k := v]
  {
  }

  lemma CreateHistory(s: State, a: Step, build: Build)
    requires Enabled(s, a) && a.CreateGroup?
    ensures Next(s, a, build).created == s.created + NewGroup(s, a)
    ensures Next(s, a, build).grants == s.grants + NewGrant(s, a)
  {
    PlusNothing(s.created);
    PlusNothing(s.grants);
    PlusOne(s.created, s.nodes[a.p].next, Origin(a.p, a.info));
    PlusOne(s.grants, s.nodes[a.p].next, a.p);
  }

  lemma OtherHistory(s: State, a: Step, build: Build)
    requires Enabled(s, a) && !a.Deliver? && !a.CreateGroup?
    ensures Next(s, a, build).created == s.created && Next(s, a, build).grants == s.grants
  {
  }

  lemma HistoryDestroyed(s: State, a: Step, build: Build)
    requires Enabled(s, a) && !a.DestroyGroup? && !a.Deliver?
    ensures Next(s, a, build).destroyed == s.destroyed
  {
  }

  lemma DeliverDestroyed(s: State, a: Step, build: Build)
    requires Enabled(s, a) && a.Deliver?
    ensures Next(s, a, build).destroyed == s.destroyed
  {
  }

  lemma History(s: State, a: Step, build: Build)
    requires Enabled(s, a)
    ensures var t := Next(s, a, build);
            && t.created == s.created + NewGroup(s, a)
            && t.grants == s.grants + NewGrant(s, a)
  {
    PlusNothing(s.created);
    PlusNothing(s.grants);
    if a.Deliver? {
      DeliverHistory(s, a, build);
    } else if a.CreateGroup? {
      CreateHistory(s, a, build);
    } else {
      OtherHistory(s, a, build);
    }
  }

  lemma Tombs(s: State, a: Step, build: Build)
    requires Enabled(s, a)
    ensures Next(s, a, build).destroyed == s.destroyed + NewTomb(s, a)
  {
    PlusNothing(s.destroyed);
    if a.Deliver? {
      DeliverDestroyed(s, a, build);
    } else if !a.DestroyGroup? {
      HistoryDestroyed(s, a, build);
    }
  }

  /** Everything later proofs need to know about a quiet step from s to t. */
  ghost predicate QuietTo(s: State, a: Step, build: Build, t: State) {
    && Enabled(s, a) && IsQuiet(s, a, build) && Actor(a) in s.nodes
    && Local(s, t, Actor(a), After(s, a), Source(s, a))
    && Quiet(s.nodes[Actor(a)], After(s, a)) && s.nodes[Actor(a)].next <= After(s, a).next
    && t.created == s.created + NewGroup(s, a)
    && t.grants == s.grants + NewGrant(s, a)
    && t.destroyed == s.destroyed + NewTomb(s, a)
    && t.missed == Untold(s, Actor(a), After(s, a)) && t.busy == BusyAfter(s, a)
  }

  ghost function BusyAfter(s: State, a: Step): set<(PlayerId, PlayerId)>
    requires Enabled(s, a)
  {
    if a.Deliver? && MustInstantiate(s.nodes[a.q], a.p, Wire(s, a.p, a.q)[0]) then s.busy + {(a.p, a.q)}
    else if a.Deliver? || a.Resume? then s.busy - {(a.p, a.q)}
    else s.busy
  }

  lemma DeliverRest(s: State, a: Step, build: Build)
    requires Enabled(s, a) && IsQuiet(s, a, build) && a.Deliver?
    ensures Next(s, a, build).missed == Untold(s, Actor(a), After(s, a))
    ensures Next(s, a, build).busy == BusyAfter(s, a)
  {
  }

  lemma ResumeRest(s: State, a: Step, build: Build)
    requires Enabled(s, a) && IsQuiet(s, a, build) && a.Resume?
    ensures Next(s, a, build).missed == Untold(s, Actor(a), After(s, a))
    ensures Next(s, a, build).busy == BusyAfter(s, a)
  {
  }

  lemma CallRest(s: State, a: Step, build: Build)
    requires Enabled(s, a) && IsQuiet(s, a, build) && !a.Deliver? && !a.Resume?
    ensures Next(s, a, build).missed == Untold(s, Actor(a), After(s, a))
    ensures Next(s, a, build).busy == BusyAfter(s, a)
  {
  }

  lemma QuietSteps(s: State, a: Step, build: Build)
    requires Links(s) && Enabled(s, a) && IsQuiet(s, a, build)
    requires a.Erase? ==> s.nodes[a.p].erasing <= s.nodes[a.p].tombs
    ensures QuietTo(s, a, build, Next(s, a, build))
  {
    QuietStep(s, a, build);
    History(s, a, build);
    Tombs(s, a, build);
    if a.Deliver? {
      DeliverRest(s, a, build);
    } else if a.Resume? {
      ResumeRest(s, a, build);
    } else {
      CallRest(s, a, build);
    }
  }

  // ---------------------------------------------------------------- connections

  /** Everything later proofs need to know about a peer in the session that answers a joining one. */
  ghost predicate LinkedTo(s: State, a: Step, t: State) {
    && Enabled(s, a) && a.Link?
    && t.nodes == s.nodes[a.r := PeerAccept(s.nodes[a.r], a.r, a.q, a.ds, a.cs)]
    && t.created == s.created && t.grants == s.grants && t.destroyed == s.destroyed
    && Chan(s, a.r, a.q) == []
    && (forall x, y :: Chan(t, x, y)
                       == if x == a.r && y == a.q
                          then Snapshot(s.nodes[a.r], a.ds, a.cs) + [Welcome(MemberOf(s.nodes[a.r], a.r), {})]
                          else Chan(s, x, y))
    && (forall m :: m in t.missed <==> m in s.missed && !(m.0 == a.r && m.1 == a.q))
    && t.busy == s.busy && t.wire == s.wire
  }

  lemma LinkSteps(s: State, a: Step, build: Build)
    requires Links(s) && Enabled(s, a) && a.Link?
    ensures LinkedTo(s, a, Next(s, a, build))
  {
    assert LinkOk(s, a.r, a.q);
    forall x, y {
      LinkChan(s, a, build, x, y);
    }
  }

  /** Everything later proofs need to know about the host letting a player in. */
  ghost predicate LetInTo(s: State, a: Step, t: State) {
    && Enabled(s, a) && a.LetIn?
    && var q := s.nodes[HOST].next;
    && q !in s.nodes && q != HOST
    && t.nodes == s.nodes[HOST := HostAccept(s.nodes[HOST], q, a.ds, a.cs)][q := Joiner()]
    && t.created == s.created && t.grants == s.grants && t.destroyed == s.destroyed
    && Chan(s, HOST, q) == []
    && (forall x, y :: Chan(t, x, y)
                       == if x == HOST && y == q then Snapshot(s.nodes[HOST], a.ds, a.cs) else Chan(s, x, y))
    && t.missed == s.missed && t.busy == s.busy && t.wire == s.wire
  }

  lemma LetInSteps(s: State, a: Step, build: Build)
    requires Links(s) && Enabled(s, a) && a.LetIn?
    ensures LetInTo(s, a, Next(s, a, build))
  {
    assert LinkOk(s, HOST, s.nodes[HOST].next);
    forall x, y {
      LetInChan(s, a, build, x, y);
    }
  }

  /** Everything later proofs need to know about moving a message from a send queue to the wire; only the host's
      greeting, at MEDIUM priority, is news to a channel. */
  ghost predicate SentTo(s: State, a: Step, t: State) {
    && Enabled(s, a) && (a.Transmit? || a.Promote?) && Actor(a) in s.nodes && Actor(a) in t.nodes
    && t.nodes == s.nodes[Actor(a) := t.nodes[Actor(a)]]
    && var n, n' := s.nodes[Actor(a)], t.nodes[Actor(a)];
    && n'.groups == n.groups && n'.tombs == n.tombs && n'.erasing == n.erasing
    && n'.conn == n.conn && n'.todo == n.todo && n'.next == n.next
    && n'.held == (if a.Promote? then n.held - {a.q} else n.held)
    && t.created == s.created && t.grants == s.grants && t.destroyed == s.destroyed
    && (forall x, y :: Chan(t, x, y)
                       == if a.Promote? && x == HOST && y == a.q then Chan(s, x, y) + [s.nodes[HOST].held[y]]
                          else Chan(s, x, y))
    && (forall m :: m in t.missed <==>
                    if a.Promote? && m.0 == HOST && m.1 == a.q
                    then (m.2 in Promise(s, a.q)) != (m.2 in MemberOf(s.nodes[HOST], HOST)) else m in s.missed)
    && t.busy == s.busy
    && (forall x, y :: Wire(s, x, y) <= Wire(t, x, y))
  }

  /** The groups that the host's greeting to q names. */
  ghost function Promise(s: State, q: PlayerId): set<GroupId> {
    if HOST in s.nodes && q in s.nodes[HOST].held && s.nodes[HOST].held[q].Welcome?
    then s.nodes[HOST].held[q].memberOf else {}
  }

  lemma SentSteps(s: State, a: Step, build: Build)
    requires Enabled(s, a) && (a.Transmit? || a.Promote?)
    ensures SentTo(s, a, Next(s, a, build))
  {
    var t := Next(s, a, build);
    forall x, y
      ensures Chan(t, x, y)
              == if a.Promote? && x == HOST && y == a.q then Chan(s, x, y) + [s.nodes[HOST].held[y]]
                 else Chan(s, x, y)
    {
      if a.Transmit? { TransmitChan(s, a, build, x, y); } else { PromoteChan(s, a, build, x, y); }
    }
  }

  /** Everything later proofs need to know about the arrival of a greeting. */
  ghost predicate GreetedTo(s: State, a: Step, t: State) {
    && Enabled(s, a) && IsGreeting(s, a) && a.p in s.nodes && a.p != a.q
    && Local(s, t, a.q, Welcomed(s.nodes[a.q], a.q, a.p, Wire(s, a.p, a.q)[0]), a.p)
    && t.created == s.created && t.grants == s.grants && t.destroyed == s.destroyed
    && a.q in s.nodes[a.p].conn && a.q !in s.nodes[a.p].held && a.p in s.nodes[a.q].todo && a.q != HOST
    && (forall m :: m in t.missed <==>
                    if m.0 == a.q && m.1 == a.p then a.q in Members(s.nodes[a.q], m.2) else m in s.missed)
    && t.busy == s.busy - {(a.p, a.q)}
  }

  lemma GreetingMissed(s: State, a: Step, build: Build)
    requires Enabled(s, a) && IsGreeting(s, a) && a.p != a.q
    ensures var t := Next(s, a, build);
            && (forall m :: m in t.missed <==>
                    if m.0 == a.q && m.1 == a.p then a.q in Members(s.nodes[a.q], m.2) else m in s.missed)
            && t.busy == s.busy - {(a.p, a.q)}
  {
    var n := s.nodes[a.q];
    var w := Wire(s, a.p, a.q)[0];
    assert forall g :: (a.q in Members(n, g)) == (a.q in Members(Welcomed(n, a.q, a.p, w), g));
    assert Untold(s, a.q, Welcomed(n, a.q, a.p, w)) == s.missed;
  }

  lemma GreetingSteps(s: State, a: Step, build: Build)
    requires Links(s) && Enabled(s, a) && IsGreeting(s, a)
    ensures GreetedTo(s, a, Next(s, a, build))
  {
    GreetingStep(s, a, build);
    History(s, a, build);
    Tombs(s, a, build);
    NoSelfChannel(s, a.q);
    GreetingMissed(s, a, build);
  }

  lemma GreetingChan(s: State, a: Step, t: State, x: PlayerId, y: PlayerId)
    requires GreetedTo(s, a, t)
    ensures Chan(t, x, y) == if x == a.p && y == a.q then Chan(s, x, y)[1..] else Chan(s, x, y)
  {
    var n' := Welcomed(s.nodes[a.q], a.q, a.p, Wire(s, a.p, a.q)[0]);
    ChanStep(s, t, a.q, n', a.p, x, y);
    assert Extra(s.nodes[a.q], n', y) == [];
  }

  // ---------------------------------------------------------------- the connections after each step

  lemma LinkOkLinked(s: State, a: Step, t: State, x: PlayerId, y: PlayerId)
    requires LinkedTo(s, a, t) && LinkOk(s, x, y) && LinkOk(s, a.r, a.q) && LinkOk(s, a.q, a.r)
    ensures LinkOk(t, x, y)
  {
    var n := s.nodes[a.r];
    if x == a.r && y == a.q {
      SnapshotQuiet(n, a.ds, a.cs);
      WelcomesConcat(Snapshot(n, a.ds, a.cs), [Welcome(MemberOf(n, x), {})]);
    }
  }

  lemma BaseLinked(s: State, a: Step, t: State)
    requires LinkedTo(s, a, t) && Base(s) && a.r !in s.nodes[a.q].conn && a.q !in s.nodes[a.r].todo
    ensures Base(t)
  {
  }

  lemma LinksLink(s: State, a: Step, t: State)
    requires Links(s) && LinkedTo(s, a, t)
    ensures Links(t)
  {
    assert LinkOk(s, a.r, a.q) && LinkOk(s, a.q, a.r);
    BaseLinked(s, a, t);
    forall x, y ensures LinkOk(t, x, y) {
      assert LinkOk(s, x, y);
      LinkOkLinked(s, a, t, x, y);
    }
  }

  lemma LinkOkLetIn(s: State, a: Step, t: State, x: PlayerId, y: PlayerId)
    requires LetInTo(s, a, t) && LinkOk(s, x, y) && LinkOk(s, x, s.nodes[HOST].next)
    requires LinkOk(s, s.nodes[HOST].next, y) && LinkOk(s, HOST, HOST)
    ensures LinkOk(t, x, y)
  {
    SnapshotQuiet(s.nodes[HOST], a.ds, a.cs);
  }

  lemma BaseLetIn(s: State, a: Step, t: State)
    requires LetInTo(s, a, t) && Base(s)
    ensures Base(t)
  {
  }

  lemma LinksLetIn(s: State, a: Step, t: State)
    requires Links(s) && LetInTo(s, a, t)
    ensures Links(t)
  {
    BaseLetIn(s, a, t);
    forall x, y ensures LinkOk(t, x, y) {
      var q := s.nodes[HOST].next;
      assert LinkOk(s, x, y) && LinkOk(s, x, q) && LinkOk(s, q, y) && LinkOk(s, HOST, HOST);
      LinkOkLetIn(s, a, t, x, y);
    }
  }

  lemma LinkOkSent(s: State, a: Step, t: State, x: PlayerId, y: PlayerId)
    requires SentTo(s, a, t) && LinkOk(s, x, y)
    ensures LinkOk(t, x, y)
  {
    if a.Promote? && x == HOST && y == a.q {
      WelcomesConcat(Chan(s, x, y), [s.nodes[HOST].held[y]]);
    }
  }

  lemma BaseSent(s: State, a: Step, t: State)
    requires SentTo(s, a, t) && Base(s)
    ensures Base(t)
  {
  }

  lemma LinksSent(s: State, a: Step, t: State)
    requires Links(s) && SentTo(s, a, t)
    ensures Links(t)
  {
    BaseSent(s, a, t);
    forall x, y ensures LinkOk(t, x, y) {
      assert LinkOk(s, x, y);
      LinkOkSent(s, a, t, x, y);
    }
  }

  lemma LinkOkGreeted(s: State, a: Step, t: State, x: PlayerId, y: PlayerId)
    requires GreetedTo(s, a, t) && LinkOk(s, x, y) && LinkOk(s, a.p, a.q) && LinkOk(s, a.q, a.p)
    ensures LinkOk(t, x, y)
  {
    GreetingChan(s, a, t, x, y);
    assert Chan(s, a.p, a.q)[0] == Wire(s, a.p, a.q)[0];
  }

  lemma BaseGreeted(s: State, a: Step, t: State)
    requires GreetedTo(s, a, t) && Base(s)
    requires var others := Wire(s, a.p, a.q)[0].others;
             others <= s.nodes.Keys && a.p !in others && others !! s.nodes[a.q].conn
    ensures Base(t)
  {
  }

  lemma LinksGreeting(s: State, a: Step, t: State)
    requires Links(s) && GreetedTo(s, a, t)
    requires var others := Wire(s, a.p, a.q)[0].others;
             others <= s.nodes.Keys && a.p !in others && others !! s.nodes[a.q].conn
    ensures Links(t)
  {
    BaseGreeted(s, a, t);
    assert LinkOk(s, a.p, a.q) && LinkOk(s, a.q, a.p);
    forall x, y ensures LinkOk(t, x, y) {
      assert LinkOk(s, x, y);
      LinkOkGreeted(s, a, t, x, y);
    }
  }
}
