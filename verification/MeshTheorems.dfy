/** What holds in every run of a session, for any number of players, any interleaving and both programs.
 */
module MeshTheorems {
  import opened GroupProtocol
  import opened Mesh
  import opened MeshLinks
  import opened MeshSteps
  import opened MeshGreetings
  import opened MeshIds
  import opened MeshSound
  import opened MeshSpread
  import opened MeshMembers

  ghost predicate Inv(s: State) {
    Links(s) && Greetings(s) && Ids(s) && Sound(s) && Spread(s) && Membership(s)
  }

  lemma NothingInitially(p: PlayerId, q: PlayerId)
    ensures Chan(Initial(), p, q) == [] && Wire(Initial(), p, q) == []
  {
  }

  lemma GreetingsInitial()
    ensures Greetings(Initial())
  {
    forall p, q ensures GreetingOk(Initial(), p, q) {
      NothingInitially(p, q);
    }
  }

  lemma IdsInitial()
    ensures Ids(Initial())
  {
    forall p, q ensures GrantsOk(Initial(), p, q) && AsksOk(Initial(), p, q) {
      NothingInitially(p, q);
    }
  }

  lemma SoundInitial()
    ensures Sound(Initial())
  {
    forall p, q ensures ChanSound(Initial(), p, q) {
      NothingInitially(p, q);
    }
  }

  lemma SpreadInitial()
    ensures Spread(Initial())
  {
    forall p, q ensures WelcomeKnown(Initial(), p, q) {
      NothingInitially(p, q);
    }
  }

  lemma MembershipInitial()
    ensures Membership(Initial())
  {
    forall p, q, g ensures Agree(Initial(), p, q, g) && SeenOk(Initial(), q, g, p) && BusyOk(Initial(), p, q) {
      NothingInitially(p, q);
    }
  }

  lemma InvInitial()
    ensures Inv(Initial())
  {
    LinksInitial();
    GreetingsInitial();
    IdsInitial();
    SoundInitial();
    SpreadInitial();
    MembershipInitial();
  }

  lemma QuietSource(s: State, a: Step, build: Build)
    requires Enabled(s, a) && IsQuiet(s, a, build) && Actor(a) in s.nodes
    ensures var p, from := Actor(a), Source(s, a);
            from != p && |Wire(s, from, p)| > 0 && Wire(s, from, p)[0].Welcome? ==> from in s.nodes[p].conn
  {
  }

  lemma InvQuiet(s: State, a: Step, build: Build)
    requires Inv(s) && Enabled(s, a) && IsQuiet(s, a, build)
    ensures Inv(Next(s, a, build))
  {
    var t := Next(s, a, build);
    if a.Erase? { assert NodeSound(s, s.nodes[a.p]); }
    QuietSteps(s, a, build);
    QuietSource(s, a, build);
    LinksQuiet(s, t, Actor(a), After(s, a), Source(s, a));
    GreetingsQuiet(s, t, Actor(a), After(s, a), Source(s, a));
    IdsQuiet(s, a, build, t);
    SoundQuiet(s, a, build, t);
    SpreadQuiet(s, a, build, t);
    MembershipQuiet(s, a, build, t);
  }

  lemma InvConnection(s: State, a: Step, build: Build)
    requires Inv(s) && Enabled(s, a) && (a.LetIn? || a.Link? || a.Transmit? || a.Promote?)
    ensures Inv(Next(s, a, build))
  {
    var t := Next(s, a, build);
    if a.LetIn? {
      LetInSteps(s, a, build);
      LinksLetIn(s, a, t);
      GreetingsLetIn(s, a, t);
      IdsLetIn(s, a, t);
      SoundLetIn(s, a, t);
      SpreadLetIn(s, a, t);
      MembershipLetIn(s, a, t);
    } else if a.Link? {
      LinkSteps(s, a, build);
      LinksLink(s, a, t);
      GreetingsLink(s, a, t);
      IdsLink(s, a, t);
      SoundLink(s, a, t);
      SpreadLink(s, a, t);
      MembershipLink(s, a, t);
    } else {
      SentSteps(s, a, build);
      LinksSent(s, a, t);
      GreetingsSent(s, a, t);
      IdsSent(s, a, t);
      SoundSent(s, a, t);
      SpreadSent(s, a, t);
      MembershipSent(s, a, t);
    }
  }

  lemma InvGreeting(s: State, a: Step, build: Build)
    requires Inv(s) && Enabled(s, a) && IsGreeting(s, a)
    ensures Inv(Next(s, a, build))
  {
    var t := Next(s, a, build);
    GreetingSteps(s, a, build);
    GreetingNames(s, a);
    LinksGreeting(s, a, t);
    GreetingsGreeting(s, a, t);
    IdsGreeting(s, a, t);
    SoundGreeting(s, a, t);
    SpreadGreeting(s, a, t);
    MembershipGreeting(s, a, t);
  }

  ghost predicate Same(s: State, t: State) {
    t == s.(crashed := t.crashed)
  }

  lemma SameChan(s: State, t: State, p: PlayerId, q: PlayerId)
    requires Same(s, t)
    ensures Chan(t, p, q) == Chan(s, p, q) && Named(t, p, q) == Named(s, p, q)
  {
    assert Elders(t, q) == Elders(s, q);
  }

  lemma SameLinks(s: State, t: State)
    requires Same(s, t) && Links(s) && Greetings(s)
    ensures Links(t) && Greetings(t)
  {
    forall p, q ensures LinkOk(t, p, q) && GreetingOk(t, p, q) {
      assert LinkOk(s, p, q) && GreetingOk(s, p, q);
      SameChan(s, t, p, q);
    }
    forall q | q in t.nodes ensures NewOk(t, q) {
      assert NewOk(s, q);
    }
    forall p, q | p in t.nodes && q in t.nodes ensures PairOk(t, p, q) {
      assert PairOk(s, p, q);
    }
  }

  lemma SameIds(s: State, t: State)
    requires Same(s, t) && Ids(s)
    ensures Ids(t)
  {
    forall p, q ensures GrantsOk(t, p, q) && AsksOk(t, p, q) {
      assert GrantsOk(s, p, q) && AsksOk(s, p, q);
      SameChan(s, t, p, q);
    }
  }

  lemma SameSound(s: State, t: State)
    requires Same(s, t) && Sound(s)
    ensures Sound(t)
  {
    SoundLater(s, t);
    forall p, q ensures ChanSound(t, p, q) {
      assert ChanSound(s, p, q) && Chan(t, p, q) == Chan(s, p, q);
    }
  }

  lemma SameSpread(s: State, t: State)
    requires Same(s, t) && Spread(s)
    ensures Spread(t)
  {
    forall g, q ensures CreateSpread(t, g, q) && DestroySpread(t, g, q) {
      assert CreateSpread(s, g, q) && DestroySpread(s, g, q);
      assert forall c :: Chan(t, c, q) == Chan(s, c, q);
    }
    forall p, q ensures WelcomeKnown(t, p, q) {
      assert WelcomeKnown(s, p, q) && Chan(t, p, q) == Chan(s, p, q);
      if q in s.nodes {
        CoveredGrows(s, t, s.nodes[q], t.nodes[q], Chan(s, p, q), []);
        assert Chan(s, p, q) + [] == Chan(s, p, q);
      }
    }
  }

  lemma SameMembership(s: State, t: State)
    requires Same(s, t) && Membership(s)
    ensures Membership(t)
  {
    forall p, q, g ensures Agree(t, p, q, g) && SeenOk(t, q, g, p) {
      assert Agree(s, p, q, g) && SeenOk(s, q, g, p) && Chan(t, p, q) == Chan(s, p, q);
    }
    forall p, q ensures BusyOk(t, p, q) {
      assert BusyOk(s, p, q);
    }
  }

  /** A crash changes nothing but the set of crashed peers. */
  lemma InvCrash(s: State, t: State)
    requires Inv(s) && Same(s, t)
    ensures Inv(t)
  {
    SameLinks(s, t);
    SameIds(s, t);
    SameSound(s, t);
    SameSpread(s, t);
    SameMembership(s, t);
  }

  lemma CrashSame(s: State, a: Step, build: Build)
    requires Enabled(s, a) && a.Resume? && !IsQuiet(s, a, build)
    ensures Same(s, Next(s, a, build))
  {
  }

  lemma InvStep(s: State, a: Step, build: Build)
    requires Inv(s) && Enabled(s, a)
    ensures Inv(Next(s, a, build))
  {
    if IsQuiet(s, a, build) {
      InvQuiet(s, a, build);
    } else if a.Deliver? {
      InvGreeting(s, a, build);
    } else if a.Resume? {
      CrashSame(s, a, build);
      InvCrash(s, Next(s, a, build));
    } else {
      InvConnection(s, a, build);
    }
  }

  // ---------------------------------------------------------------- runs

  ghost predicate Runs(s: State, steps: seq<Step>, build: Build, t: State)
    decreases |steps|
  {
    if steps == [] then s == t
    else Enabled(s, steps[0]) && Runs(Next(s, steps[0], build), steps[1..], build, t)
  }

  /** The invariant holds after every run of a session. */
  lemma {:induction false} Always(s: State, steps: seq<Step>, build: Build, t: State)
    requires Inv(s) && Runs(s, steps, build, t)
    ensures Inv(t)
    decreases |steps|
  {
    if steps != [] {
      InvStep(s, steps[0], build);
      Always(Next(s, steps[0], build), steps[1..], build, t);
    }
  }

  ghost predicate Reachable(t: State, steps: seq<Step>, build: Build) {
    Runs(Initial(), steps, build, t)
  }

  lemma ReachableInv(t: State, steps: seq<Step>, build: Build)
    requires Reachable(t, steps, build)
    ensures Inv(t)
  {
    InvInitial();
    Always(Initial(), steps, build, t);
  }

  // ---------------------------------------------------------------- the theorems

  /** In every run: once p's greeting to q is on its way, then for each group that neither has tombstoned, reading
      everything p has sent makes q's opinion of p's membership p's own, if and only if q did not miss p's latest
      change. */
  lemma MembershipAgreement(t: State, steps: seq<Step>, build: Build, p: PlayerId, q: PlayerId, g: GroupId)
    requires Reachable(t, steps, build) && Open(t, p, q) && q in t.nodes
    requires g !in t.nodes[p].tombs && g !in t.nodes[q].tombs
    ensures View(Chan(t, p, q), g, p in Members(t.nodes[q], g)) == (p in Members(t.nodes[p], g))
            <==> (p, q, g) !in t.missed
  {
    ReachableInv(t, steps, build);
    assert Agree(t, p, q, g);
  }

  /** Everybody has joined, every message has been handled and every destroy callback has returned. */
  ghost predicate Quiescent(t: State) {
    && (forall p :: p in t.nodes ==>
          InSession(t.nodes[p]) && t.nodes[p].erasing == {} && t.nodes[p].held == map[])
    && (forall p, q :: Chan(t, p, q) == [])
  }

  lemma SettledConnected(t: State, p: PlayerId, q: PlayerId)
    requires Links(t) && Greetings(t) && Quiescent(t) && p in t.nodes && q in t.nodes && p != q
    ensures q in t.nodes[p].conn && p in t.nodes[q].conn
  {
    AllConnected(t, p, q);
  }

  lemma DestroyedEverywhere(t: State, g: GroupId, q: PlayerId)
    requires Links(t) && Greetings(t) && Spread(t) && Quiescent(t) && q in t.nodes && g in t.destroyed
    ensures g in t.nodes[q].tombs
  {
    assert DestroySpread(t, g, q);
    if q != t.destroyed[g] {
      SettledConnected(t, t.destroyed[g], q);
    }
  }

  lemma CreatedEverywhere(t: State, g: GroupId, q: PlayerId)
    requires Links(t) && Greetings(t) && Ids(t) && Spread(t) && Quiescent(t) && q in t.nodes && g in t.created
    ensures Knows(t.nodes[q], g)
  {
    var c := t.created[g].creator;
    assert CreateSpread(t, g, q);
    if q != c {
      SettledConnected(t, c, q);
    }
  }

  lemma SettledTombs(t: State, q: PlayerId)
    requires Links(t) && Greetings(t) && Spread(t) && Quiescent(t) && q in t.nodes && NodeSound(t, t.nodes[q])
    ensures t.nodes[q].tombs == t.destroyed.Keys
  {
    forall g | g in t.destroyed ensures g in t.nodes[q].tombs {
      DestroyedEverywhere(t, g, q);
    }
  }

  lemma SettledKnown(t: State, q: PlayerId)
    requires Links(t) && Greetings(t) && Ids(t) && Spread(t) && Quiescent(t) && q in t.nodes
    ensures forall g :: g in t.created ==> Knows(t.nodes[q], g)
  {
    forall g | g in t.created ensures Knows(t.nodes[q], g) {
      CreatedEverywhere(t, g, q);
    }
  }

  lemma LiveGroups(t: State, n: Node)
    requires NodeSound(t, n) && n.erasing == {} && n.tombs == t.destroyed.Keys
    requires forall g :: g in t.created ==> Knows(n, g)
    ensures n.groups.Keys == t.created.Keys - t.destroyed.Keys
  {
  }

  lemma SettledGroups(t: State, q: PlayerId)
    requires Inv(t) && Quiescent(t) && q in t.nodes
    ensures t.nodes[q].groups.Keys == t.created.Keys - t.destroyed.Keys
    ensures t.nodes[q].tombs == t.destroyed.Keys
  {
    assert NodeSound(t, t.nodes[q]);
    SettledTombs(t, q);
    SettledKnown(t, q);
    LiveGroups(t, t.nodes[q]);
  }

  /** When nothing is in flight, every peer's live groups are exactly those created and not destroyed. */
  lemma GroupsConverge(t: State, steps: seq<Step>, build: Build, q: PlayerId)
    requires Reachable(t, steps, build) && Quiescent(t) && q in t.nodes
    ensures t.nodes[q].groups.Keys == t.created.Keys - t.destroyed.Keys
    ensures t.nodes[q].tombs == t.destroyed.Keys
  {
    ReachableInv(t, steps, build);
    SettledGroups(t, q);
  }

  lemma SettledOpinion(t: State, p: PlayerId, q: PlayerId, g: GroupId)
    requires Links(t) && Greetings(t) && Membership(t) && Quiescent(t) && p in t.nodes && q in t.nodes && p != q
    requires g !in t.nodes[p].tombs && g !in t.nodes[q].tombs
    ensures (p in Members(t.nodes[q], g)) == (p in Members(t.nodes[p], g)) <==> (p, q, g) !in t.missed
  {
    SettledConnected(t, p, q);
    assert Agree(t, p, q, g);
    assert Chan(t, p, q) == [];
  }

  /** When nothing is in flight, q has p in a live group exactly when p has itself there, except for what q missed. */
  lemma MembersConverge(t: State, steps: seq<Step>, build: Build, p: PlayerId, q: PlayerId, g: GroupId)
    requires Reachable(t, steps, build) && Quiescent(t) && p in t.nodes && q in t.nodes && p != q
    requires g in t.created && g !in t.destroyed
    ensures (p in Members(t.nodes[q], g)) == (p in Members(t.nodes[p], g)) <==> (p, q, g) !in t.missed
  {
    ReachableInv(t, steps, build);
    SettledGroups(t, p);
    SettledGroups(t, q);
    SettledOpinion(t, p, q, g);
  }

  lemma OnlyPlayers(t: State, q: PlayerId, g: GroupId, p: PlayerId)
    requires Membership(t) && q in t.nodes && p in Members(t.nodes[q], g)
    ensures p in t.nodes
  {
    assert SeenOk(t, q, g, p);
  }

  /** Nobody has missed anything about the group. */
  ghost predicate Untroubled(t: State, g: GroupId) {
    forall p, q :: p in t.nodes && q in t.nodes && p != q ==> (p, q, g) !in t.missed
  }

  /** ... so when nothing was missed, any two peers list the same members of every group. */
  lemma SameMembers(t: State, steps: seq<Step>, build: Build, q: PlayerId, r: PlayerId, g: GroupId)
    requires Reachable(t, steps, build) && Quiescent(t) && q in t.nodes && r in t.nodes
    requires g in t.created && g !in t.destroyed && Untroubled(t, g)
    ensures g in t.nodes[q].groups && g in t.nodes[r].groups
    ensures t.nodes[q].groups[g].members == t.nodes[r].groups[g].members
  {
    GroupsConverge(t, steps, build, q);
    GroupsConverge(t, steps, build, r);
    forall p ensures p in Members(t.nodes[q], g) <==> p in Members(t.nodes[r], g) {
      if p in Members(t.nodes[q], g) || p in Members(t.nodes[r], g) {
        ReachableInv(t, steps, build);
        OnlyPlayers(t, if p in Members(t.nodes[q], g) then q else r, g, p);
        if p != q { MembersConverge(t, steps, build, p, q, g); }
        if p != r { MembersConverge(t, steps, build, p, r, g); }
      }
    }
    assert Members(t.nodes[q], g) == Members(t.nodes[r], g);
  }

  /** Any two peers that hold a group hold the same name and data, at any time. */
  lemma MetadataAgreement(t: State, steps: seq<Step>, build: Build, p: PlayerId, q: PlayerId, g: GroupId)
    requires Reachable(t, steps, build) && p in t.nodes && q in t.nodes
    requires g in t.nodes[p].groups && g in t.nodes[q].groups
    ensures t.nodes[p].groups[g].info == t.nodes[q].groups[g].info
  {
    ReachableInv(t, steps, build);
    assert NodeSound(t, t.nodes[p]) && NodeSound(t, t.nodes[q]);
  }

  /** Everybody that a peer lists in a group is itself or a peer it is connected to. */
  lemma MembersAreConnected(t: State, steps: seq<Step>, build: Build, q: PlayerId, g: GroupId, p: PlayerId)
    requires Reachable(t, steps, build) && q in t.nodes && g in t.nodes[q].groups
    requires p in t.nodes[q].groups[g].members
    ensures p == q || p in t.nodes[q].conn
  {
    ReachableInv(t, steps, build);
    assert SeenOk(t, q, g, p);
  }

  /** Players and groups draw from one set of identifiers: none is 0, no player has the identifier of a group, every
      identifier in use is below the host's counter, and a group is created by the player its identifier was granted
      to. */
  lemma IdentifiersUnique(t: State, steps: seq<Step>, build: Build)
    requires Reachable(t, steps, build)
    ensures HOST in t.nodes
    ensures forall p :: p in t.nodes ==> 0 < p < t.nodes[HOST].next
    ensures forall g :: g in t.grants ==> 0 < g < t.nodes[HOST].next && g !in t.nodes
    ensures t.created.Keys <= t.grants.Keys
    ensures forall g :: g in t.created ==> t.created[g].creator == t.grants[g]
  {
    ReachableInv(t, steps, build);
  }

  // ---------------------------------------------------------------- tombstones are for ever

  lemma HandleKeepsDead(n: Node, self: PlayerId, from: PlayerId, m: Message, g: GroupId)
    requires g in n.tombs && g !in n.groups && (m.Granted? && m.ack in n.pending ==> m.g != g)
    ensures g in Handle(n, self, from, m).tombs && g !in Handle(n, self, from, m).groups
  {
  }

  lemma ActorKeepsDead(s: State, a: Step, build: Build, g: GroupId)
    requires Enabled(s, a) && IsQuiet(s, a, build) && Actor(a) in s.nodes
    requires g in s.nodes[Actor(a)].tombs && g !in s.nodes[Actor(a)].groups && g !in NewGroup(s, a)
    ensures g in After(s, a).tombs && g !in After(s, a).groups
  {
    if a.Deliver? {
      HandleKeepsDead(s.nodes[a.q], a.q, a.p, Wire(s, a.p, a.q)[0], g);
    }
  }

  /** A player keeps what it had of its groups and tombstones. */
  ghost predicate Keeps(s: State, t: State) {
    forall p :: p in s.nodes ==>
      p in t.nodes && t.nodes[p].tombs == s.nodes[p].tombs && t.nodes[p].groups.Keys == s.nodes[p].groups.Keys
  }

  lemma SentKeeps(s: State, a: Step, t: State)
    requires SentTo(s, a, t)
    ensures Keeps(s, t)
  {
  }

  lemma LetInKeeps(s: State, a: Step, t: State)
    requires LetInTo(s, a, t)
    ensures Keeps(s, t)
  {
  }

  lemma LinkedKeeps(s: State, a: Step, t: State)
    requires LinkedTo(s, a, t)
    ensures Keeps(s, t)
  {
  }

  lemma GreetedKeeps(s: State, a: Step, t: State)
    requires GreetedTo(s, a, t)
    ensures Keeps(s, t)
  {
  }

  lemma LinkKeepsDead(s: State, a: Step, build: Build)
    requires Links(s) && Enabled(s, a) && !IsQuiet(s, a, build)
    ensures Keeps(s, Next(s, a, build))
  {
    var t := Next(s, a, build);
    if a.LetIn? {
      LetInSteps(s, a, build);
      LetInKeeps(s, a, t);
    } else if a.Link? {
      LinkSteps(s, a, build);
      LinkedKeeps(s, a, t);
    } else if a.Deliver? {
      GreetingSteps(s, a, build);
      GreetedKeeps(s, a, t);
    } else if a.Resume? {
      CrashSame(s, a, build);
    } else {
      SentSteps(s, a, build);
      SentKeeps(s, a, t);
    }
  }

  lemma QuietKeepsDead(s: State, a: Step, build: Build, t: State, p: PlayerId, g: GroupId)
    requires Enabled(s, a) && IsQuiet(s, a, build) && Actor(a) in s.nodes && t.nodes == s.nodes[Actor(a) := After(s, a)]
    requires p in s.nodes && g in s.nodes[p].tombs && g !in s.nodes[p].groups && g !in NewGroup(s, a)
    ensures p in t.nodes && g in t.nodes[p].tombs && g !in t.nodes[p].groups
  {
    if p == Actor(a) {
      ActorKeepsDead(s, a, build, g);
    }
  }

  lemma NotReborn(s: State, a: Step, build: Build, p: PlayerId, g: GroupId)
    requires Links(s) && Ids(s) && Sound(s) && Enabled(s, a) && p in s.nodes && g in s.nodes[p].tombs
    ensures g !in NewGroup(s, a)
  {
    assert NodeSound(s, s.nodes[p]);
    NotDestroyed(s, a, build, s.nodes[p]);
  }

  lemma StepKeepsDead(s: State, a: Step, build: Build, p: PlayerId, g: GroupId)
    requires Links(s) && Ids(s) && Sound(s) && Enabled(s, a)
    requires p in s.nodes && g in s.nodes[p].tombs && g !in s.nodes[p].groups
    ensures var t := Next(s, a, build);
            p in t.nodes && g in t.nodes[p].tombs && g !in t.nodes[p].groups
  {
    if IsQuiet(s, a, build) {
      Frame(s, a, build);
      NotReborn(s, a, build, p, g);
      QuietKeepsDead(s, a, build, Next(s, a, build), p, g);
    } else {
      LinkKeepsDead(s, a, build);
    }
  }

  /** Once a group is gone at a peer that has its tombstone, no continuation of the run brings it back there. */
  lemma {:induction false} NeverAgain(s: State, steps: seq<Step>, build: Build, t: State, p: PlayerId, g: GroupId)
    requires Inv(s) && Runs(s, steps, build, t)
    requires p in s.nodes && g in s.nodes[p].tombs && g !in s.nodes[p].groups
    ensures p in t.nodes && g in t.nodes[p].tombs && g !in t.nodes[p].groups
    decreases |steps|
  {
    if steps != [] {
      InvStep(s, steps[0], build);
      StepKeepsDead(s, steps[0], build, p, g);
      NeverAgain(Next(s, steps[0], build), steps[1..], build, t, p, g);
    }
  }

  /** In every run: a group that a peer has tombstoned and erased stays out of that peer's groups for good. */
  lemma TombstonesStay(before: seq<Step>, s: State, after: seq<Step>, t: State, build: Build, p: PlayerId, g: GroupId)
    requires Reachable(s, before, build) && Runs(s, after, build, t)
    requires p in s.nodes && g in s.nodes[p].tombs && g !in s.nodes[p].groups
    ensures p in t.nodes && g in t.nodes[p].tombs && g !in t.nodes[p].groups
  {
    ReachableInv(s, before, build);
    NeverAgain(s, after, build, t, p, g);
  }

  /** In every run: the identifier of a player that is let in, of a group that is created and of a grant has never been
      used before, for a player or for a group. */
  lemma IdentifierFresh(s: State, steps: seq<Step>, build: Build, a: Step)
    requires Reachable(s, steps, build) && Enabled(s, a)
    ensures a.LetIn? ==> s.nodes[HOST].next !in s.nodes && s.nodes[HOST].next !in s.grants
    ensures forall g :: g in NewGrant(s, a) ==> g != 0 && g !in s.nodes && g !in s.grants && g !in s.created
    ensures forall g :: g in NewGroup(s, a) ==> g != 0 && g !in s.nodes && g !in s.created
  {
    ReachableInv(s, steps, build);
    FreshGrant(s, a);
    FreshGroup(s, a, build);
  }

  // ---------------------------------------------------------------- when nothing is missed

  /** The two moments at which a change can be missed: a joining peer that is already in a group completes a
      connection, and the host's greeting leaves its send queue after the host's own memberships have changed. */
  ghost predicate Tactful(s: State, a: Step)
    requires Enabled(s, a)
  {
    && (IsGreeting(s, a) ==> forall g :: a.q !in Members(s.nodes[a.q], g))
    && (a.Promote? ==> Promise(s, a.q) == MemberOf(s.nodes[HOST], HOST))
  }

  ghost predicate TactfulRun(s: State, steps: seq<Step>, build: Build)
    decreases |steps|
  {
    steps != [] ==> Enabled(s, steps[0]) && Tactful(s, steps[0])
                    && TactfulRun(Next(s, steps[0], build), steps[1..], build)
  }

  lemma TactfulStep(s: State, a: Step, build: Build)
    requires Links(s) && Enabled(s, a) && Tactful(s, a) && s.missed == {}
    requires a.Erase? ==> s.nodes[a.p].erasing <= s.nodes[a.p].tombs
    ensures Next(s, a, build).missed == {}
  {
    var t := Next(s, a, build);
    if IsQuiet(s, a, build) {
      QuietSteps(s, a, build);
    } else if a.Deliver? {
      GreetingSteps(s, a, build);
    } else if a.Link? {
      LinkSteps(s, a, build);
    } else if a.LetIn? {
      LetInSteps(s, a, build);
    } else if a.Transmit? || a.Promote? {
      SentSteps(s, a, build);
    }
  }

  /** ... and each of them makes one missed. */
  lemma UntactfulStep(s: State, a: Step, build: Build)
    requires Links(s) && Enabled(s, a) && !Tactful(s, a)
    ensures Next(s, a, build).missed != {}
  {
    var t := Next(s, a, build);
    if a.Promote? {
      SentSteps(s, a, build);
      UntactfulPromote(s, a, t);
    } else {
      GreetingSteps(s, a, build);
      UntactfulGreeting(s, a, t);
    }
  }

  lemma UntactfulGreeting(s: State, a: Step, t: State)
    requires GreetedTo(s, a, t) && !forall g :: a.q !in Members(s.nodes[a.q], g)
    ensures t.missed != {}
  {
    var g: GroupId :| a.q in Members(s.nodes[a.q], g);
    assert (a.q, a.p, g) in t.missed;
  }

  lemma UntactfulPromote(s: State, a: Step, t: State)
    requires SentTo(s, a, t) && a.Promote? && Promise(s, a.q) != MemberOf(s.nodes[HOST], HOST)
    ensures t.missed != {}
  {
    var then', now := Promise(s, a.q), MemberOf(s.nodes[HOST], HOST);
    var g: GroupId :| (g in then') != (g in now);
    assert (HOST, a.q, g) in t.missed;
  }

  /** Nothing is missed at any time of a run. */
  ghost predicate NeverMissed(s: State, steps: seq<Step>, build: Build)
    decreases |steps|
  {
    && s.missed == {}
    && (steps != [] ==> Enabled(s, steps[0]) && NeverMissed(Next(s, steps[0], build), steps[1..], build))
  }

  /** Changes are never missed if and only if the run is without those two coincidences. */
  lemma {:induction false} NothingMissed(s: State, steps: seq<Step>, build: Build, t: State)
    requires Inv(s) && s.missed == {} && Runs(s, steps, build, t)
    ensures NeverMissed(s, steps, build) <==> TactfulRun(s, steps, build)
    ensures TactfulRun(s, steps, build) ==> t.missed == {}
    decreases |steps|
  {
    if steps != [] {
      var a := steps[0];
      InvStep(s, a, build);
      if Tactful(s, a) {
        if a.Erase? { assert NodeSound(s, s.nodes[a.p]); }
        TactfulStep(s, a, build);
        NothingMissed(Next(s, a, build), steps[1..], build, t);
      } else {
        UntactfulStep(s, a, build);
      }
    }
  }

  /** In particular in the runs of a session. */
  lemma NeverMissedExactly(t: State, steps: seq<Step>, build: Build)
    requires Reachable(t, steps, build)
    ensures NeverMissed(Initial(), steps, build) <==> TactfulRun(Initial(), steps, build)
  {
    InvInitial();
    NothingMissed(Initial(), steps, build, t);
  }

  lemma SameGroup(t: State, steps: seq<Step>, build: Build, q: PlayerId, r: PlayerId, g: GroupId)
    requires Reachable(t, steps, build) && Quiescent(t) && q in t.nodes && r in t.nodes
    requires g in t.created && g !in t.destroyed && Untroubled(t, g)
    ensures g in t.nodes[q].groups && g in t.nodes[r].groups && t.nodes[q].groups[g] == t.nodes[r].groups[g]
  {
    SameMembers(t, steps, build, q, r, g);
    MetadataAgreement(t, steps, build, q, r, g);
  }

  lemma SameGroups(t: State, steps: seq<Step>, build: Build, q: PlayerId, r: PlayerId)
    requires Reachable(t, steps, build) && Quiescent(t) && q in t.nodes && r in t.nodes
    requires forall g :: g in t.created && g !in t.destroyed ==> Untroubled(t, g)
    ensures t.nodes[q].groups == t.nodes[r].groups && t.nodes[q].tombs == t.nodes[r].tombs
  {
    GroupsConverge(t, steps, build, q);
    GroupsConverge(t, steps, build, r);
    forall g | g in t.nodes[q].groups ensures g in t.nodes[r].groups && t.nodes[q].groups[g] == t.nodes[r].groups[g] {
      SameGroup(t, steps, build, q, r, g);
    }
  }

  lemma SameThenUntroubled(t: State, steps: seq<Step>, build: Build, g: GroupId)
    requires Reachable(t, steps, build) && Quiescent(t) && g in t.created && g !in t.destroyed
    requires forall q, r :: q in t.nodes && r in t.nodes ==> t.nodes[q].groups == t.nodes[r].groups
    ensures Untroubled(t, g)
  {
    forall p, q | p in t.nodes && q in t.nodes && p != q ensures (p, q, g) !in t.missed {
      MembersConverge(t, steps, build, p, q, g);
    }
  }

  /** When a run comes to rest, all peers hold the very same groups (identifiers, names, data and members) if and only
      if nothing was missed about a group that is alive. */
  lemma ConvergesExactly(t: State, steps: seq<Step>, build: Build)
    requires Reachable(t, steps, build) && Quiescent(t)
    ensures (forall q, r :: q in t.nodes && r in t.nodes ==> t.nodes[q].groups == t.nodes[r].groups)
            <==> forall g :: g in t.created && g !in t.destroyed ==> Untroubled(t, g)
  {
    if forall g :: g in t.created && g !in t.destroyed ==> Untroubled(t, g) {
      forall q, r | q in t.nodes && r in t.nodes ensures t.nodes[q].groups == t.nodes[r].groups {
        SameGroups(t, steps, build, q, r);
      }
    }
    if forall q, r :: q in t.nodes && r in t.nodes ==> t.nodes[q].groups == t.nodes[r].groups {
      forall g | g in t.created && g !in t.destroyed ensures Untroubled(t, g) {
        SameThenUntroubled(t, steps, build, g);
      }
    }
  }

  /** That is so at the end of every run without the two coincidences. */
  lemma SessionConverges(t: State, steps: seq<Step>, build: Build, q: PlayerId, r: PlayerId)
    requires Reachable(t, steps, build) && TactfulRun(Initial(), steps, build) && Quiescent(t)
    requires q in t.nodes && r in t.nodes
    ensures t.nodes[q].groups == t.nodes[r].groups && t.nodes[q].tombs == t.nodes[r].tombs
  {
    InvInitial();
    NothingMissed(Initial(), steps, build, t);
    SameGroups(t, steps, build, q, r);
  }

  // ---------------------------------------------------------------- the shadowed variable

  /** A handler that goes on after it has instantiated a group finds the group gone again. */
  ghost predicate Spare(s: State, a: Step)
    requires Enabled(s, a)
  {
    a.Resume? ==> Wire(s, a.p, a.q)[0].g !in s.nodes[a.q].groups
  }

  ghost predicate Spared(s: State, steps: seq<Step>, build: Build)
    decreases |steps|
  {
    steps != [] ==>
      Enabled(s, steps[0]) && Spare(s, steps[0]) && Spared(Next(s, steps[0], build), steps[1..], build)
  }

  lemma OneProgram(s: State, a: Step)
    requires Enabled(s, a) && !a.Resume?
    ensures Next(s, a, Shipped) == Next(s, a, Documented) && Next(s, a, Documented).crashed == s.crashed
  {
  }

  /** One step: the programs differ, and the shipped one crashes, exactly where nothing is spared. */
  lemma SpareStep(s: State, a: Step)
    requires Enabled(s, a)
    ensures Next(s, a, Documented).crashed == s.crashed
    ensures Spare(s, a) ==> Next(s, a, Shipped) == Next(s, a, Documented)
    ensures !Spare(s, a) ==> Next(s, a, Shipped).crashed > s.crashed
  {
    if !a.Resume? {
      OneProgram(s, a);
    }
  }

  lemma {:induction false} CrashesStay(s: State, steps: seq<Step>, t: State)
    requires Runs(s, steps, Shipped, t)
    ensures s.crashed <= t.crashed
    decreases |steps|
  {
    if steps != [] {
      SpareStep(s, steps[0]);
      CrashesStay(Next(s, steps[0], Shipped), steps[1..], t);
    }
  }

  /** A run of the shipped program crashes exactly when some handler of a JOIN or JOINED goes on and its group is still
      there; and a run without a crash is a run of the documented program. */
  lemma {:induction false} CrashExactly(s: State, steps: seq<Step>, t: State)
    requires Runs(s, steps, Shipped, t)
    ensures t.crashed == s.crashed <==> Spared(s, steps, Shipped)
    ensures t.crashed == s.crashed ==> Runs(s, steps, Documented, t)
    decreases |steps|
  {
    if steps != [] {
      var u := Next(s, steps[0], Shipped);
      SpareStep(s, steps[0]);
      CrashExactly(u, steps[1..], t);
      CrashesStay(u, steps[1..], t);
    }
  }

  lemma {:induction false} NoCrash(s: State, steps: seq<Step>, t: State)
    requires Runs(s, steps, Documented, t)
    ensures t.crashed == s.crashed
    decreases |steps|
  {
    if steps != [] {
      SpareStep(s, steps[0]);
      NoCrash(Next(s, steps[0], Documented), steps[1..], t);
    }
  }

  /** A run of the documented program is one of the shipped program, to the same end, exactly when every such handler
      finds its group gone. */
  lemma {:induction false} ShippedAsDocumented(s: State, steps: seq<Step>, t: State)
    requires Runs(s, steps, Documented, t)
    ensures Runs(s, steps, Shipped, t) <==> Spared(s, steps, Documented)
    decreases |steps|
  {
    if steps != [] {
      var u := Next(s, steps[0], Documented);
      SpareStep(s, steps[0]);
      NoCrash(u, steps[1..], t);
      if Spare(s, steps[0]) {
        ShippedAsDocumented(u, steps[1..], t);
      } else if Runs(s, steps, Shipped, t) {
        CrashesStay(Next(s, steps[0], Shipped), steps[1..], t);
      }
    }
  }
}
