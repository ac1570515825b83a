/** News spreads: whoever has not heard that a group was created or destroyed has the message about it on its way from
    the very peer that created or destroyed it, or is yet to be let in by that peer.
 */
module MeshSpread {
  import opened GroupProtocol
  import opened Mesh
  import opened MeshLinks
  import opened MeshOutput
  import opened MeshSteps
  import opened MeshIds
  import opened MeshSound

  ghost predicate CreateSpread(s: State, g: GroupId, q: PlayerId) {
    g in s.created && q in s.nodes && s.created[g].creator in s.nodes ==>
      var c := s.created[g].creator;
      || Knows(s.nodes[q], g)
      || Create(g, s.created[g].info) in Chan(s, c, q)
      || Destroy(g) in Chan(s, c, q)
      || (q != c && q !in s.nodes[c].conn)
  }

  ghost predicate DestroySpread(s: State, g: GroupId, q: PlayerId) {
    g in s.destroyed && q in s.nodes ==>
      var d := s.destroyed[g];
      && d in s.nodes && InSession(s.nodes[d])
      && (|| g in s.nodes[q].tombs
          || Destroy(g) in Chan(s, d, q)
          || (q != d && q !in s.nodes[d].conn))
  }

  ghost predicate Heard(s: State, n: Node, c: seq<Message>, g: GroupId) {
    Knows(n, g) || (g in s.created && Create(g, s.created[g].info) in c)
  }

  /** The groups named in a greeting are known by the time the greeting is read. */
  ghost predicate Covered(s: State, n: Node, c: seq<Message>) {
    forall i, g :: 0 <= i < |c| && c[i].Welcome? && g in c[i].memberOf ==> Heard(s, n, c[..i], g)
  }

  ghost predicate WelcomeKnown(s: State, p: PlayerId, q: PlayerId) {
    q in s.nodes ==>
      && Covered(s, s.nodes[q], Chan(s, p, q))
      && (p in s.nodes && q in s.nodes[p].held && s.nodes[p].held[q].Welcome? ==>
            forall g :: g in s.nodes[p].held[q].memberOf ==> Heard(s, s.nodes[q], Chan(s, p, q), g))
  }

  ghost predicate Spread(s: State) {
    && (forall g, q :: CreateSpread(s, g, q))
    && (forall g, q :: DestroySpread(s, g, q))
    && (forall p, q :: WelcomeKnown(s, p, q))
  }

  // ---------------------------------------------------------------- quiet steps

  /** A message about a group that has been dealt with has been noted. */
  lemma Absorbed(s: State, a: Step, build: Build)
    requires Enabled(s, a) && IsQuiet(s, a, build) && Source(s, a) != Actor(a)
    ensures var m := Chan(s, Source(s, a), Actor(a))[0];
            && (m.Create? || m.Destroy? ==> Knows(After(s, a), m.g))
            && (m.Destroy? ==> m.g in After(s, a).tombs)
  {
    assert Chan(s, a.p, a.q)[0] == Wire(s, a.p, a.q)[0];
  }

  lemma NewlyCreated(s: State, a: Step, g: GroupId)
    requires Enabled(s, a) && g in NewGroup(s, a)
    ensures Knows(After(s, a), g)
    ensures Emits(s, a) == ToAll(Create(g, NewGroup(s, a)[g].info))
  {
  }

  lemma NewCreateSpreads(s: State, a: Step, build: Build, t: State, g: GroupId, q: PlayerId)
    requires Links(s) && Ids(s) && QuietTo(s, a, build, t) && g in NewGroup(s, a)
    ensures CreateSpread(t, g, q)
  {
    if q in t.nodes {
      FreshGroup(s, a, build);
      ChanStep(s, t, Actor(a), After(s, a), Source(s, a), Actor(a), q);
      StepSends(s, a, build, q);
      NewlyCreated(s, a, g);
    }
  }

  lemma OldCreateSpreads(s: State, a: Step, build: Build, t: State, g: GroupId, q: PlayerId)
    requires CreateSpread(s, g, q) && QuietTo(s, a, build, t) && g !in NewGroup(s, a)
    ensures CreateSpread(t, g, q)
  {
    if g in t.created && q in t.nodes && t.created[g].creator in t.nodes {
      var c := t.created[g].creator;
      ChanStep(s, t, Actor(a), After(s, a), Source(s, a), c, q);
      if c == Source(s, a) && q == Actor(a) && c != q {
        Absorbed(s, a, build);
      }
    }
  }

  lemma CreateSpreadQuiet(s: State, a: Step, build: Build, t: State, g: GroupId, q: PlayerId)
    requires Links(s) && Ids(s) && CreateSpread(s, g, q) && QuietTo(s, a, build, t)
    ensures CreateSpread(t, g, q)
  {
    if g in NewGroup(s, a) {
      NewCreateSpreads(s, a, build, t, g, q);
    } else {
      OldCreateSpreads(s, a, build, t, g, q);
    }
  }

  lemma DestroySpreadQuiet(s: State, a: Step, build: Build, t: State, g: GroupId, q: PlayerId)
    requires Links(s) && DestroySpread(s, g, q) && QuietTo(s, a, build, t)
    ensures DestroySpread(t, g, q)
  {
    if g in t.destroyed && q in t.nodes {
      var d := t.destroyed[g];
      ChanStep(s, t, Actor(a), After(s, a), Source(s, a), d, q);
      StepSends(s, a, build, q);
      if d == Source(s, a) && q == Actor(a) && d != q {
        Absorbed(s, a, build);
      }
    }
  }

  /** n' has heard of everything that n had heard of. */
  ghost predicate Wiser(n: Node, n': Node) {
    forall g :: Knows(n, g) ==> Knows(n', g)
  }

  lemma HeardLater(s: State, t: State, n: Node, n': Node, c: seq<Message>, c': seq<Message>, g: GroupId)
    requires Heard(s, n, c, g) && Later(s, t) && Wiser(n, n')
    requires c <= c' || (c != [] && c' == c[1..] && (c[0].Create? ==> Knows(n', c[0].g)))
    ensures Heard(t, n', c', g)
  {
    if c != [] && c' == c[1..] {
      assert c == [c[0]] + c';
    }
  }

  lemma CoveredGrows(s: State, t: State, n: Node, n': Node, c: seq<Message>, e: seq<Message>)
    requires Covered(s, n, c) && Later(s, t) && Wiser(n, n')
    requires forall i :: 0 <= i < |e| ==> !e[i].Welcome?
    ensures Covered(t, n', c + e)
  {
    forall i, g | 0 <= i < |c + e| && (c + e)[i].Welcome? && g in (c + e)[i].memberOf
      ensures Heard(t, n', (c + e)[..i], g)
    {
      assert (c + e)[..i] == c[..i];
      HeardLater(s, t, n, n', c[..i], c[..i], g);
    }
  }

  lemma CoveredShrinks(s: State, t: State, n: Node, n': Node, c: seq<Message>)
    requires Covered(s, n, c) && Later(s, t) && Wiser(n, n') && c != []
    requires c[0].Create? ==> Knows(n', c[0].g)
    ensures Covered(t, n', c[1..])
  {
    forall i, g | 0 <= i < |c[1..]| && c[1..][i].Welcome? && g in c[1..][i].memberOf
      ensures Heard(t, n', c[1..][..i], g)
    {
      assert c[..i + 1][1..] == c[1..][..i];
      HeardLater(s, t, n, n', c[..i + 1], c[1..][..i], g);
    }
  }

  lemma WelcomeKnownQuiet(s: State, a: Step, build: Build, t: State, p: PlayerId, q: PlayerId)
    requires Links(s) && WelcomeKnown(s, p, q) && QuietTo(s, a, build, t) && Later(s, t)
    ensures WelcomeKnown(t, p, q)
  {
    if q in t.nodes {
      var c, n, n' := Chan(s, p, q), s.nodes[q], t.nodes[q];
      ChanStep(s, t, Actor(a), After(s, a), Source(s, a), p, q);
      if p == Source(s, a) && q == Actor(a) && p != q {
        Absorbed(s, a, build);
        CoveredShrinks(s, t, n, n', c);
      } else {
        var e := if p == Actor(a) then Extra(s.nodes[p], After(s, a), q) else [];
        assert c + [] == c;
        CoveredGrows(s, t, n, n', c, e);
      }
      if p in t.nodes && q in t.nodes[p].held && t.nodes[p].held[q].Welcome? {
        forall g | g in t.nodes[p].held[q].memberOf ensures Heard(t, n', Chan(t, p, q), g) {
          HeardLater(s, t, n, n', c, Chan(t, p, q), g);
        }
      }
    }
  }

  lemma SpreadQuiet(s: State, a: Step, build: Build, t: State)
    requires Links(s) && Ids(s) && Spread(s) && QuietTo(s, a, build, t)
    ensures Spread(t)
  {
    QuietLater(s, a, build, t);
    forall g, q ensures CreateSpread(t, g, q) {
      assert CreateSpread(s, g, q);
      CreateSpreadQuiet(s, a, build, t, g, q);
    }
    forall g, q ensures DestroySpread(t, g, q) {
      assert DestroySpread(s, g, q);
      DestroySpreadQuiet(s, a, build, t, g, q);
    }
    forall p, q ensures WelcomeKnown(t, p, q) {
      assert WelcomeKnown(s, p, q);
      WelcomeKnownQuiet(s, a, build, t, p, q);
    }
  }

  // ---------------------------------------------------------------- connections

  lemma CreateSent(s: State, a: Step, t: State, g: GroupId, q: PlayerId)
    requires SentTo(s, a, t) && CreateSpread(s, g, q)
    ensures CreateSpread(t, g, q)
  {
  }

  lemma DestroySent(s: State, a: Step, t: State, g: GroupId, q: PlayerId)
    requires SentTo(s, a, t) && DestroySpread(s, g, q)
    ensures DestroySpread(t, g, q)
  {
  }

  lemma WelcomeSent(s: State, a: Step, t: State, p: PlayerId, q: PlayerId)
    requires SentTo(s, a, t) && WelcomeKnown(s, p, q)
    ensures WelcomeKnown(t, p, q)
  {
    if q in s.nodes {
      assert Wiser(s.nodes[q], t.nodes[q]);
      if a.Promote? && p == HOST && q == a.q {
        PromotedKnown(s, s.nodes[q], Chan(s, p, q), s.nodes[p].held[q]);
      }
      CoveredGrows(s, t, s.nodes[q], t.nodes[q], Chan(t, p, q), []);
      assert Chan(t, p, q) + [] == Chan(t, p, q);
    }
  }

  lemma SpreadSent(s: State, a: Step, t: State)
    requires Spread(s) && SentTo(s, a, t)
    ensures Spread(t)
  {
    forall g, q ensures CreateSpread(t, g, q) && DestroySpread(t, g, q) {
      assert CreateSpread(s, g, q) && DestroySpread(s, g, q);
      CreateSent(s, a, t, g, q);
      DestroySent(s, a, t, g, q);
    }
    forall p, q ensures WelcomeKnown(t, p, q) {
      assert WelcomeKnown(s, p, q);
      WelcomeSent(s, a, t, p, q);
    }
  }

  lemma PromotedKnown(s: State, n: Node, c: seq<Message>, m: Message)
    requires Covered(s, n, c)
    requires m.Welcome? ==> forall g :: g in m.memberOf ==> Heard(s, n, c, g)
    ensures Covered(s, n, c + [m])
  {
    forall i, g | 0 <= i < |c + [m]| && (c + [m])[i].Welcome? && g in (c + [m])[i].memberOf
      ensures Heard(s, n, (c + [m])[..i], g)
    {
      if i < |c| {
        assert (c + [m])[..i] == c[..i];
      } else {
        assert (c + [m])[..i] == c;
      }
    }
  }

  /** A peer that lets another one in tells it about everything it knows. */
  lemma SnapshotTells(s: State, n: Node, self: PlayerId, ds: seq<GroupId>, cs: seq<GroupId>, g: GroupId)
    requires NodeSound(s, n) && Lists(n, ds, cs)
    ensures Knows(n, g) && g in s.created ==>
              Create(g, s.created[g].info) in Snapshot(n, ds, cs) || Destroy(g) in Snapshot(n, ds, cs)
    ensures g in n.tombs ==> Destroy(g) in Snapshot(n, ds, cs)
    ensures g in MemberOf(n, self) ==> g in s.created && Create(g, s.created[g].info) in Snapshot(n, ds, cs)
  {
    SnapshotQuiet(n, ds, cs);
  }

  lemma SnapshotCovered(s: State, n: Node, x: Node, self: PlayerId, ds: seq<GroupId>, cs: seq<GroupId>)
    requires NodeSound(s, n) && Lists(n, ds, cs)
    ensures Covered(s, x, Snapshot(n, ds, cs))
    ensures forall g :: g in MemberOf(n, self) ==> Heard(s, x, Snapshot(n, ds, cs), g)
    ensures Covered(s, x, Snapshot(n, ds, cs) + [Welcome(MemberOf(n, self), {})])
  {
    SnapshotQuiet(n, ds, cs);
    forall g | g in MemberOf(n, self) ensures Heard(s, x, Snapshot(n, ds, cs), g) {
      SnapshotTells(s, n, self, ds, cs, g);
    }
    PromotedKnown(s, x, Snapshot(n, ds, cs), Welcome(MemberOf(n, self), {}));
  }

  lemma CreatorKnows(s: State, g: GroupId)
    requires Links(s) && Ids(s) && Spread(s) && g in s.created
    ensures s.created[g].creator in s.nodes && Knows(s.nodes[s.created[g].creator], g)
  {
    var c := s.created[g].creator;
    assert CreateSpread(s, g, c) && LinkOk(s, c, c);
  }

  lemma CreateToLinked(s: State, a: Step, t: State, g: GroupId, q: PlayerId)
    requires LinkedTo(s, a, t) && CreateSpread(s, g, q) && NodeSound(s, s.nodes[a.r])
    requires g in s.created ==> s.created[g].creator in s.nodes && Knows(s.nodes[s.created[g].creator], g)
    ensures CreateSpread(t, g, q)
  {
    SnapshotTells(s, s.nodes[a.r], a.r, a.ds, a.cs, g);
  }

  lemma CreateLink(s: State, a: Step, t: State, g: GroupId, q: PlayerId)
    requires Links(s) && Ids(s) && Sound(s) && Spread(s) && LinkedTo(s, a, t)
    ensures CreateSpread(t, g, q)
  {
    if g in s.created {
      CreatorKnows(s, g);
    }
    CreateToLinked(s, a, t, g, q);
  }

  lemma DestroyLink(s: State, a: Step, t: State, g: GroupId, q: PlayerId)
    requires Links(s) && Sound(s) && Spread(s) && LinkedTo(s, a, t)
    ensures DestroySpread(t, g, q)
  {
    assert DestroySpread(s, g, q) && DestroySpread(s, g, a.r) && LinkOk(s, a.r, a.r);
    SnapshotTells(s, s.nodes[a.r], a.r, a.ds, a.cs, g);
  }

  lemma WelcomeLink(s: State, a: Step, t: State, p: PlayerId, q: PlayerId)
    requires Links(s) && Sound(s) && WelcomeKnown(s, p, q) && LinkedTo(s, a, t)
    ensures WelcomeKnown(t, p, q)
  {
    if q in s.nodes {
      if p == a.r && q == a.q {
        SnapshotCovered(s, s.nodes[p], t.nodes[q], p, a.ds, a.cs);
        CoveredGrows(s, t, t.nodes[q], t.nodes[q], Chan(t, p, q), []);
        assert Chan(t, p, q) + [] == Chan(t, p, q);
      } else {
        CoveredGrows(s, t, s.nodes[q], t.nodes[q], Chan(s, p, q), []);
        assert Chan(s, p, q) + [] == Chan(s, p, q);
      }
    }
  }

  lemma SpreadLink(s: State, a: Step, t: State)
    requires Links(s) && Ids(s) && Sound(s) && Spread(s) && LinkedTo(s, a, t)
    ensures Spread(t)
  {
    forall g, q ensures CreateSpread(t, g, q) {
      CreateLink(s, a, t, g, q);
    }
    forall g, q ensures DestroySpread(t, g, q) {
      DestroyLink(s, a, t, g, q);
    }
    forall p, q ensures WelcomeKnown(t, p, q) {
      assert WelcomeKnown(s, p, q);
      WelcomeLink(s, a, t, p, q);
    }
  }

  /** Nothing has been sent to or from a player that is yet to be let in, and nobody is connected to it. */
  lemma NotYetIn(s: State, c: PlayerId)
    requires Links(s) && c in s.nodes
    ensures s.nodes[HOST].next !in s.nodes[c].conn
  {
    assert LinkOk(s, c, s.nodes[HOST].next);
  }

  lemma CreateToNew(s: State, a: Step, t: State, g: GroupId)
    requires LetInTo(s, a, t) && g in s.created && NodeSound(s, s.nodes[HOST])
    requires var c := s.created[g].creator;
             c in s.nodes && s.nodes[HOST].next !in s.nodes[c].conn && Knows(s.nodes[c], g)
    ensures CreateSpread(t, g, s.nodes[HOST].next)
  {
    SnapshotTells(s, s.nodes[HOST], HOST, a.ds, a.cs, g);
  }

  lemma CreateToOld(s: State, a: Step, t: State, g: GroupId, q: PlayerId)
    requires LetInTo(s, a, t) && q != s.nodes[HOST].next && CreateSpread(s, g, q)
    requires g in s.created ==> s.created[g].creator in s.nodes
    ensures CreateSpread(t, g, q)
  {
  }

  lemma CreateLetIn(s: State, a: Step, t: State, g: GroupId, q: PlayerId)
    requires Links(s) && Ids(s) && Sound(s) && Spread(s) && LetInTo(s, a, t)
    ensures CreateSpread(t, g, q)
  {
    if q != s.nodes[HOST].next {
      CreateToOld(s, a, t, g, q);
    } else if g in s.created {
      CreatorKnows(s, g);
      NotYetIn(s, s.created[g].creator);
      CreateToNew(s, a, t, g);
    }
  }

  lemma DestroyLetIn(s: State, a: Step, t: State, g: GroupId, q: PlayerId)
    requires Links(s) && Sound(s) && Spread(s) && LetInTo(s, a, t)
    ensures DestroySpread(t, g, q)
  {
    if g in s.destroyed {
      var d := s.destroyed[g];
      assert DestroySpread(s, g, HOST);
      if q != s.nodes[HOST].next {
        assert DestroySpread(s, g, q);
        assert Chan(t, d, q) == Chan(s, d, q);
      } else if d == HOST {
        assert LinkOk(s, HOST, HOST);
        SnapshotTells(s, s.nodes[HOST], HOST, a.ds, a.cs, g);
      } else {
        NotYetIn(s, d);
      }
    }
  }

  lemma WelcomeLetIn(s: State, a: Step, t: State, p: PlayerId, q: PlayerId)
    requires Links(s) && Sound(s) && WelcomeKnown(s, p, q) && LetInTo(s, a, t)
    ensures WelcomeKnown(t, p, q)
  {
    assert LinkOk(s, p, q);
    if q == s.nodes[HOST].next {
      SnapshotCovered(t, s.nodes[HOST], t.nodes[q], HOST, a.ds, a.cs);
    } else if q in s.nodes {
      CoveredGrows(s, t, s.nodes[q], t.nodes[q], Chan(s, p, q), []);
      assert Chan(s, p, q) + [] == Chan(s, p, q);
    }
  }

  lemma SpreadLetIn(s: State, a: Step, t: State)
    requires Links(s) && Ids(s) && Sound(s) && Spread(s) && LetInTo(s, a, t)
    ensures Spread(t)
  {
    forall g, q ensures CreateSpread(t, g, q) {
      CreateLetIn(s, a, t, g, q);
    }
    forall g, q ensures DestroySpread(t, g, q) {
      DestroyLetIn(s, a, t, g, q);
    }
    forall p, q ensures WelcomeKnown(t, p, q) {
      assert WelcomeKnown(s, p, q);
      WelcomeLetIn(s, a, t, p, q);
    }
  }

  lemma CreateGreeting(s: State, a: Step, t: State, g: GroupId, q: PlayerId)
    requires GreetedTo(s, a, t) && CreateSpread(s, g, q)
    requires g in s.created ==> s.created[g].creator in s.nodes && InSession(s.nodes[s.created[g].creator])
    ensures CreateSpread(t, g, q)
  {
    assert Chan(s, a.p, a.q)[0] == Wire(s, a.p, a.q)[0];
    if g in s.created { GreetingChan(s, a, t, s.created[g].creator, q); }
  }

  lemma DestroyGreeting(s: State, a: Step, t: State, g: GroupId, q: PlayerId)
    requires GreetedTo(s, a, t) && DestroySpread(s, g, q)
    ensures DestroySpread(t, g, q)
  {
    assert Chan(s, a.p, a.q)[0] == Wire(s, a.p, a.q)[0];
    if g in s.destroyed { GreetingChan(s, a, t, s.destroyed[g], q); }
  }

  lemma WelcomeGreeting(s: State, a: Step, t: State, p: PlayerId, q: PlayerId)
    requires GreetedTo(s, a, t) && WelcomeKnown(s, p, q)
    ensures WelcomeKnown(t, p, q)
  {
    GreetingChan(s, a, t, p, q);
    if q in s.nodes {
      assert Wiser(s.nodes[q], t.nodes[q]);
      if p == a.p && q == a.q {
        assert Chan(s, p, q)[0] == Wire(s, p, q)[0];
        CoveredShrinks(s, t, s.nodes[q], t.nodes[q], Chan(s, p, q));
      } else {
        CoveredGrows(s, t, s.nodes[q], t.nodes[q], Chan(s, p, q), []);
        assert Chan(s, p, q) + [] == Chan(s, p, q);
      }
    }
  }

  lemma SpreadGreeting(s: State, a: Step, t: State)
    requires Ids(s) && Spread(s) && GreetedTo(s, a, t)
    ensures Spread(t)
  {
    forall g, q ensures CreateSpread(t, g, q) && DestroySpread(t, g, q) {
      assert CreateSpread(s, g, q) && DestroySpread(s, g, q);
      CreateGreeting(s, a, t, g, q);
      DestroyGreeting(s, a, t, g, q);
    }
    forall p, q ensures WelcomeKnown(t, p, q) {
      assert WelcomeKnown(s, p, q);
      WelcomeGreeting(s, a, t, p, q);
    }
  }
}
