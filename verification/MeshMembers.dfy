/** Who is in which group. Each player decides about itself and tells the others; `View` is what q will believe about
    p once it has read everything p has sent it.
 */
module MeshMembers {
  import opened GroupProtocol
  import opened Mesh
  import opened MeshLinks
  import opened MeshOutput
  import opened MeshSteps
  import opened MeshSpread

  // ---------------------------------------------------------------- what a channel says

  /** The message sets whether its sender is in g. */
  predicate Tells(m: Message, g: GroupId) {
    m.Welcome? || ((m.Joined? || m.Left?) && m.g == g)
  }

  function Says(m: Message, g: GroupId): bool {
    m.Joined? || (m.Welcome? && g in m.memberOf)
  }

  /** Whether the sender of c is in g, for a receiver that believes `init` now and reads all of c. */
  function View(c: seq<Message>, g: GroupId, init: bool): bool {
    if c == [] then init
    else if Tells(c[|c| - 1], g) then Says(c[|c| - 1], g)
    else View(c[..|c| - 1], g, init)
  }

  lemma {:induction false} ViewHead(c: seq<Message>, g: GroupId, init: bool)
    requires c != []
    ensures View(c, g, init) == View(c[1..], g, if Tells(c[0], g) then Says(c[0], g) else init)
  {
    if |c| > 1 {
      var l := |c| - 1;
      assert c[..l][1..] == c[1..][..l - 1];
      ViewHead(c[..l], g, init);
    } else {
      assert c[..0] == [] && c[1..] == [];
    }
  }

  lemma ViewLast(c: seq<Message>, m: Message, g: GroupId, init: bool)
    ensures View(c + [m], g, init) == if Tells(m, g) then Says(m, g) else View(c, g, init)
  {
    assert (c + [m])[..|c|] == c;
  }

  /** Past a greeting, what the receiver believed before does not matter. */
  lemma {:induction false} ViewGreeted(c: seq<Message>, g: GroupId, b: bool, b': bool)
    requires Welcomes(c) > 0
    ensures View(c, g, b) == View(c, g, b')
  {
    var l := |c| - 1;
    assert c == c[..l] + [c[l]];
    WelcomesConcat(c[..l], [c[l]]);
    if !Tells(c[l], g) {
      ViewGreeted(c[..l], g, b, b');
    }
  }

  // ---------------------------------------------------------------- the invariant

  /** p has reached the point from which on q hears about every change. */
  ghost predicate Open(s: State, p: PlayerId, q: PlayerId) {
    p in s.nodes && q in s.nodes[p].conn && q !in s.nodes[p].held
  }

  ghost predicate Alive(s: State, p: PlayerId, q: PlayerId, g: GroupId) {
    p in s.nodes && q in s.nodes && g !in s.nodes[p].tombs && g !in s.nodes[q].tombs
  }

  /** q's view of p, after all that is on its way, is p's own state; except for what q has missed. */
  ghost predicate Agree(s: State, p: PlayerId, q: PlayerId, g: GroupId) {
    Open(s, p, q) && Alive(s, p, q, g) ==>
      ((p, q, g) !in s.missed
       <==> View(Chan(s, p, q), g, p in Members(s.nodes[q], g)) == (p in Members(s.nodes[p], g)))
  }

  /** A player is entered into a group by itself or by a peer that both are connected. */
  ghost predicate SeenOk(s: State, q: PlayerId, g: GroupId, p: PlayerId) {
    q in s.nodes && p in Members(s.nodes[q], g) && p != q ==>
      p in s.nodes && p in s.nodes[q].conn && q in s.nodes[p].conn
  }

  ghost predicate BusyOk(s: State, p: PlayerId, q: PlayerId) {
    (p, q) in s.busy ==>
      && q in s.nodes && p in s.nodes[q].conn && Wire(s, p, q) != []
      && (Wire(s, p, q)[0].Join? || Wire(s, p, q)[0].Joined?)
      && Knows(s.nodes[q], Wire(s, p, q)[0].g)
  }

  ghost predicate Membership(s: State) {
    && (forall p, q, g :: Agree(s, p, q, g))
    && (forall q, g, p :: SeenOk(s, q, g, p))
    && (forall p, q :: BusyOk(s, p, q))
  }

  // ---------------------------------------------------------------- handlers

  /** What a peer believes about another one changes only by what that one says. */
  ghost predicate Believes(n: Node, n': Node, m: Message, x: PlayerId, from: PlayerId, g: GroupId) {
    (x in Members(n', g))
    == (if x == from && from in n.conn && Tells(m, g) then Says(m, g) else x in Members(n, g))
  }

  lemma SettleBelieves(n: Node, self: PlayerId, from: PlayerId, m: Message, x: PlayerId, g: GroupId)
    requires (m.Join? || m.Joined?) && x != self && from in n.conn && Knows(n, m.g) && g !in n.tombs
    ensures Believes(n, Settle(n, self, from, m), m, x, from, g)
  {
  }

  lemma HandleBelieves(n: Node, self: PlayerId, from: PlayerId, m: Message, x: PlayerId, g: GroupId)
    requires x != self && !m.Welcome? && !MustInstantiate(n, from, m) && g !in Handle(n, self, from, m).tombs
    ensures Believes(n, Handle(n, self, from, m), m, x, from, g)
  {
    if (m.Join? || m.Joined?) && from in n.conn && m.g !in n.tombs {
      SettleBelieves(n, self, from, m, x, g);
    }
  }

  /** A peer that changes its own membership says so to everybody, and says nothing else about its membership. */
  ghost predicate Announces(n: Node, n': Node, o: Output, self: PlayerId, g: GroupId) {
    && ((self in Members(n, g)) != (self in Members(n', g)) ==>
          o.ToAll? && Tells(o.m, g) && Says(o.m, g) == (self in Members(n', g)))
    && ((self in Members(n, g)) == (self in Members(n', g)) && !o.Silent? ==> !Tells(o.m, g))
  }

  lemma SettleAnnounces(n: Node, self: PlayerId, from: PlayerId, m: Message, g: GroupId)
    requires (m.Join? || m.Joined?) && from != self
    ensures Announces(n, Settle(n, self, from, m), SettleOutput(n, self, m), self, g)
  {
  }

  lemma HandleAnnounces(n: Node, self: PlayerId, from: PlayerId, m: Message, g: GroupId)
    requires from != self && (m.Welcome? ==> from in n.conn)
    ensures Announces(n, Handle(n, self, from, m), HandleOutput(n, self, from, m), self, g)
  {
    if m.Join? || m.Joined? {
      SettleAnnounces(n, self, from, m, g);
    }
  }

  lemma CallAnnounces(s: State, a: Step, g: GroupId)
    requires a.CreateGroup? || a.DestroyGroup? || a.AddPlayer? || a.RemovePlayer? || a.Erase?
    requires Enabled(s, a) && (a.Erase? ==> a.g != g)
    ensures Announces(s.nodes[a.p], After(s, a), Emits(s, a), a.p, g)
  {
  }

  // ---------------------------------------------------------------- quiet steps

  lemma StepAnnounces(s: State, a: Step, build: Build, g: GroupId)
    requires Enabled(s, a) && IsQuiet(s, a, build) && Wire(s, Actor(a), Actor(a)) == []
    requires a.Erase? ==> a.g != g
    ensures Actor(a) in s.nodes
    ensures Announces(s.nodes[Actor(a)], After(s, a), Emits(s, a), Actor(a), g)
  {
    match a
    case Deliver(p, q) =>
      var m := Wire(s, p, q)[0];
      if !MustInstantiate(s.nodes[q], p, m) { HandleAnnounces(s.nodes[q], q, p, m, g); }
    case Resume(p, q) => SettleAnnounces(s.nodes[q], q, p, Wire(s, p, q)[0], g);
    case _ => CallAnnounces(s, a, g);
  }

  lemma CallBelieves(s: State, a: Step, x: PlayerId, g: GroupId)
    requires a.CreateGroup? || a.DestroyGroup? || a.AddPlayer? || a.RemovePlayer? || a.Erase?
    requires Enabled(s, a) && x != a.p && (a.Erase? ==> a.g != g)
    ensures (x in Members(After(s, a), g)) == (x in Members(s.nodes[a.p], g))
  {
  }

  lemma StepBelieves(s: State, a: Step, build: Build, x: PlayerId, g: GroupId)
    requires Links(s) && Membership(s) && Enabled(s, a) && IsQuiet(s, a, build)
    requires x != Actor(a) && g !in After(s, a).tombs && (a.Erase? ==> a.g != g)
    ensures Actor(a) in s.nodes
    ensures var n := s.nodes[Actor(a)];
            (x in Members(After(s, a), g))
            == if x == Source(s, a) && x in n.conn && Tells(Wire(s, x, Actor(a))[0], g)
               then Says(Wire(s, x, Actor(a))[0], g) else x in Members(n, g)
  {
    NoSelfChannel(s, Actor(a));
    match a
    case Deliver(p, q) =>
      var n := s.nodes[q];
      var m := Wire(s, p, q)[0];
      if m.Welcome? {
        assert LinkOk(s, p, q);
        WelcomeCounts(Chan(s, p, q), m);
        assert false;
      }
      if !MustInstantiate(n, p, m) { HandleBelieves(n, q, p, m, x, g); }
    case Resume(p, q) =>
      assert BusyOk(s, p, q);
      SettleBelieves(s.nodes[q], q, p, Wire(s, p, q)[0], x, g);
    case _ => CallBelieves(s, a, x, g);
  }

  /** The step of p itself. */
  lemma AgreeActor(s: State, a: Step, build: Build, t: State, q: PlayerId, g: GroupId)
    requires Links(s) && QuietTo(s, a, build, t) && Agree(s, Actor(a), q, g) && (a.Erase? ==> a.g in s.nodes[a.p].tombs)
    ensures Agree(t, Actor(a), q, g)
  {
    var p := Actor(a);
    var c := Chan(s, p, q);
    if Open(t, p, q) && Alive(t, p, q, g) {
      assert LinkOk(s, p, q);
      ChanStep(s, t, p, After(s, a), Source(s, a), p, q);
      StepSends(s, a, build, q);
      NoSelfChannel(s, p);
      StepAnnounces(s, a, build, g);
      if Extra(s.nodes[p], After(s, a), q) == [] {
        assert c + [] == c;
      } else {
        ViewLast(c, Emits(s, a).m, g, p in Members(s.nodes[q], g));
      }
    }
  }

  /** The step of q, which may have read a message from p. */
  lemma AgreeReader(s: State, a: Step, build: Build, t: State, p: PlayerId, g: GroupId)
    requires Links(s) && Membership(s) && QuietTo(s, a, build, t) && p != Actor(a)
    requires a.Erase? ==> a.g in s.nodes[a.p].tombs
    ensures Agree(t, p, Actor(a), g)
  {
    var q := Actor(a);
    var c := Chan(s, p, q);
    if Open(t, p, q) && Alive(t, p, q, g) {
      assert Agree(s, p, q, g) && LinkOk(s, p, q) && SeenOk(s, q, g, p);
      ChanStep(s, t, q, After(s, a), Source(s, a), p, q);
      StepBelieves(s, a, build, p, g);
      if p == Source(s, a) {
        var init := p in Members(s.nodes[q], g);
        assert c[0] == Wire(s, p, q)[0];
        ViewHead(c, g, init);
        if p !in s.nodes[q].conn {
          ViewGreeted(c[1..], g, p in Members(t.nodes[q], g), if Tells(c[0], g) then Says(c[0], g) else init);
        }
      }
    }
  }

  lemma AgreeQuiet(s: State, a: Step, build: Build, t: State, p: PlayerId, q: PlayerId, g: GroupId)
    requires Links(s) && Membership(s) && QuietTo(s, a, build, t)
    requires a.Erase? ==> a.g in s.nodes[a.p].tombs
    ensures Agree(t, p, q, g)
  {
    assert Agree(s, p, q, g) && LinkOk(s, p, q);
    if p == Actor(a) {
      AgreeActor(s, a, build, t, q, g);
    } else if q == Actor(a) {
      AgreeReader(s, a, build, t, p, g);
    } else {
      ChanStep(s, t, Actor(a), After(s, a), Source(s, a), p, q);
    }
  }

  lemma HandleGains(n: Node, self: PlayerId, from: PlayerId, m: Message, x: PlayerId, g: GroupId)
    requires x != self && x in Members(Handle(n, self, from, m), g) && (m.Welcome? ==> from in n.conn)
    ensures x in Members(n, g) || (x == from && x in n.conn)
  {
  }

  lemma CallGains(s: State, a: Step, x: PlayerId, g: GroupId)
    requires a.CreateGroup? || a.DestroyGroup? || a.AddPlayer? || a.RemovePlayer? || a.Erase?
    requires Enabled(s, a) && x != a.p && x in Members(After(s, a), g)
    ensures x in Members(s.nodes[a.p], g)
  {
  }

  lemma StepGains(s: State, a: Step, build: Build, x: PlayerId, g: GroupId)
    requires Enabled(s, a) && IsQuiet(s, a, build) && x != Actor(a) && x in Members(After(s, a), g)
    requires a.Resume? ==> BusyOk(s, a.p, a.q)
    ensures Actor(a) in s.nodes
    ensures x in Members(s.nodes[Actor(a)], g) || (x == Source(s, a) && x in s.nodes[Actor(a)].conn)
  {
    match a
    case Deliver(p, q) =>
      var m := Wire(s, p, q)[0];
      if !MustInstantiate(s.nodes[q], p, m) { HandleGains(s.nodes[q], q, p, m, x, g); }
    case Resume(p, q) =>
    case _ => CallGains(s, a, x, g);
  }

  lemma SeenQuiet(s: State, a: Step, build: Build, t: State, q: PlayerId, g: GroupId, p: PlayerId)
    requires Links(s) && Membership(s) && QuietTo(s, a, build, t)
    ensures SeenOk(t, q, g, p)
  {
    assert SeenOk(s, q, g, p) && LinkOk(s, p, q);
    if q == Actor(a) && p != q {
      if a.Resume? { assert BusyOk(s, a.p, a.q); }
      if p in Members(After(s, a), g) { StepGains(s, a, build, p, g); }
    }
  }

  lemma BusyQuiet(s: State, a: Step, build: Build, t: State, p: PlayerId, q: PlayerId)
    requires BusyOk(s, p, q) && QuietTo(s, a, build, t)
    ensures BusyOk(t, p, q)
  {
    if (p, q) in t.busy {
      assert Wire(t, p, q) == Wire(s, p, q);
    }
  }

  lemma MembershipQuiet(s: State, a: Step, build: Build, t: State)
    requires Links(s) && Membership(s) && QuietTo(s, a, build, t)
    requires a.Erase? ==> a.g in s.nodes[a.p].tombs
    ensures Membership(t)
  {
    forall p, q, g ensures Agree(t, p, q, g) {
      AgreeQuiet(s, a, build, t, p, q, g);
    }
    forall q, g, p ensures SeenOk(t, q, g, p) {
      SeenQuiet(s, a, build, t, q, g, p);
    }
    forall p, q ensures BusyOk(t, p, q) {
      assert BusyOk(s, p, q);
      BusyQuiet(s, a, build, t, p, q);
    }
  }

  // ---------------------------------------------------------------- connections

  lemma AgreeSent(s: State, a: Step, t: State, p: PlayerId, q: PlayerId, g: GroupId)
    requires Links(s) && Agree(s, p, q, g) && SentTo(s, a, t)
    ensures Agree(t, p, q, g)
  {
    assert LinkOk(s, p, q);
    if a.Promote? && p == HOST && q == a.q && Alive(t, p, q, g) {
      ViewLast(Chan(s, p, q), s.nodes[p].held[q], g, p in Members(s.nodes[q], g));
    }
  }

  lemma MembershipSent(s: State, a: Step, t: State)
    requires Links(s) && Membership(s) && SentTo(s, a, t)
    ensures Membership(t)
  {
    forall p, q, g ensures Agree(t, p, q, g) {
      assert Agree(s, p, q, g);
      AgreeSent(s, a, t, p, q, g);
    }
    forall q, g, p ensures SeenOk(t, q, g, p) {
      assert SeenOk(s, q, g, p);
    }
    forall p, q ensures BusyOk(t, p, q) {
      assert BusyOk(s, p, q);
    }
  }

  lemma MembershipLink(s: State, a: Step, t: State)
    requires Links(s) && Membership(s) && LinkedTo(s, a, t)
    ensures Membership(t)
  {
    var n := s.nodes[a.r];
    forall p, q, g ensures Agree(t, p, q, g) {
      assert Agree(s, p, q, g);
      if p == a.r && q == a.q {
        ViewLast(Snapshot(n, a.ds, a.cs), Welcome(MemberOf(n, p), {}), g, p in Members(t.nodes[q], g));
      }
    }
    forall q, g, p ensures SeenOk(t, q, g, p) {
      assert SeenOk(s, q, g, p);
    }
    forall p, q ensures BusyOk(t, p, q) {
      assert BusyOk(s, p, q);
    }
  }

  lemma MembershipLetIn(s: State, a: Step, t: State)
    requires Links(s) && Membership(s) && LetInTo(s, a, t)
    ensures Membership(t)
  {
    forall p, q, g ensures Agree(t, p, q, g) {
      assert Agree(s, p, q, g) && LinkOk(s, p, q);
    }
    forall q, g, p ensures SeenOk(t, q, g, p) {
      assert SeenOk(s, q, g, p);
    }
    forall p, q ensures BusyOk(t, p, q) {
      assert BusyOk(s, p, q);
    }
  }

  lemma AgreeGreeting(s: State, a: Step, t: State, p: PlayerId, q: PlayerId, g: GroupId)
    requires Links(s) && Membership(s) && Spread(s) && GreetedTo(s, a, t)
    ensures Agree(t, p, q, g)
  {
    assert Agree(s, p, q, g) && LinkOk(s, p, q) && SeenOk(s, q, g, p);
    GreetingChan(s, a, t, p, q);
    if Alive(t, p, q, g) && p == a.p && q == a.q {
      var c := Chan(s, p, q);
      assert c[0] == Wire(s, p, q)[0];
      ViewHead(c, g, false);
      assert WelcomeKnown(s, p, q);
      assert g in c[0].memberOf ==> Heard(s, s.nodes[q], c[..0], g);
    }
  }

  lemma MembershipGreeting(s: State, a: Step, t: State)
    requires Links(s) && Membership(s) && Spread(s) && GreetedTo(s, a, t)
    ensures Membership(t)
  {
    forall p, q, g ensures Agree(t, p, q, g) {
      AgreeGreeting(s, a, t, p, q, g);
    }
    forall q, g, p ensures SeenOk(t, q, g, p) {
      assert SeenOk(s, q, g, p);
    }
    forall p, q ensures BusyOk(t, p, q) {
      assert BusyOk(s, p, q);
    }
  }
}
