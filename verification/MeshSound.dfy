/** Nobody ever knows or says anything about a group that is not so: every name and data block is the creator's, every
    tombstone stands for a group that some player destroyed, and a group behind a tombstone is on its way out.
 */
module MeshSound {
  import opened GroupProtocol
  import opened Mesh
  import opened MeshLinks
  import opened MeshOutput
  import opened MeshSteps
  import opened MeshIds

  ghost predicate NodeSound(s: State, n: Node) {
    && (forall g :: g in n.groups ==> g in s.created && n.groups[g].info == s.created[g].info)
    && n.tombs <= s.destroyed.Keys
    && n.erasing <= n.tombs
    && (forall g :: g in n.groups && g in n.tombs ==> g in n.erasing)
  }

  ghost predicate MessageSound(s: State, m: Message) {
    match m
    case Create(g, info) => g in s.created && info == s.created[g].info
    case Destroy(g) => g in s.destroyed
    case Join(g, info) => g in s.created && info == s.created[g].info
    case Joined(g, info) => g in s.created && info == s.created[g].info
    case Leave(g) => g in s.created
    case Left(g) => g in s.created
    case Welcome(memberOf, _) => memberOf <= s.created.Keys
    case _ => true
  }

  ghost predicate ChanSound(s: State, x: PlayerId, y: PlayerId) {
    && (forall m :: m in Chan(s, x, y) ==> MessageSound(s, m))
    && (x in s.nodes && y in s.nodes[x].held ==> MessageSound(s, s.nodes[x].held[y]))
  }

  ghost predicate Sound(s: State) {
    && s.destroyed.Keys <= s.created.Keys
    && (forall p :: p in s.nodes ==> NodeSound(s, s.nodes[p]))
    && (forall x, y :: ChanSound(s, x, y))
  }

  /** History only grows. */
  ghost predicate Later(s: State, t: State) {
    && (forall g :: g in s.created ==> g in t.created && t.created[g] == s.created[g])
    && s.destroyed.Keys <= t.destroyed.Keys
  }

  lemma SoundLater(s: State, t: State)
    requires Later(s, t)
    ensures forall n :: NodeSound(s, n) ==> NodeSound(t, n)
    ensures forall m :: MessageSound(s, m) ==> MessageSound(t, m)
  {
  }

  /** What was sound is, when one peer changes. */
  lemma NodesLater(s: State, t: State, p: PlayerId, n': Node)
    requires Later(s, t) && t.nodes == s.nodes[p := n'] && NodeSound(t, n')
    requires forall x :: x in s.nodes ==> NodeSound(s, s.nodes[x])
    ensures forall x :: x in t.nodes ==> NodeSound(t, t.nodes[x])
  {
    forall x | x in t.nodes ensures NodeSound(t, t.nodes[x]) {
      if x != p {
        assert NodeSound(s, s.nodes[x]);
      }
    }
  }

  lemma QuietLater(s: State, a: Step, build: Build, t: State)
    requires Links(s) && Ids(s) && Enabled(s, a)
    requires t.created == s.created + NewGroup(s, a) && t.destroyed == s.destroyed + NewTomb(s, a)
    ensures Later(s, t)
  {
    FreshGroup(s, a, build);
  }

  // ---------------------------------------------------------------- handlers

  lemma SettleSound(t: State, n: Node, self: PlayerId, from: PlayerId, m: Message)
    requires NodeSound(t, n) && (m.Join? || m.Joined?)
    ensures NodeSound(t, Settle(n, self, from, m))
    ensures !SettleOutput(n, self, m).Silent? ==> MessageSound(t, SettleOutput(n, self, m).m)
  {
  }

  lemma CreateSound(t: State, n: Node, g: GroupId, info: Info)
    requires NodeSound(t, n) && g in t.created && t.created[g].info == info && g !in n.tombs
    ensures NodeSound(t, CreateHere(n, g, info)) && MessageSound(t, Create(g, info))
  {
    var e := Emplace(n, g, info);
    assert NodeSound(t, e);
    assert CreateHere(n, g, info) == e.(out := CreateHere(n, g, info).out);
  }

  lemma GrantedSound(t: State, n: Node, self: PlayerId, from: PlayerId, m: Message)
    requires NodeSound(t, n) && m.Granted?
    requires m.ack in n.pending ==> m.g in t.created && t.created[m.g].info == n.pending[m.ack] && m.g !in n.tombs
    ensures NodeSound(t, Handle(n, self, from, m))
    ensures !HandleOutput(n, self, from, m).Silent? ==> MessageSound(t, HandleOutput(n, self, from, m).m)
  {
    if m.ack in n.pending {
      CreateSound(t, n.(pending := n.pending - {m.ack}), m.g, n.pending[m.ack]);
    }
  }

  lemma LeaveSound(t: State, n: Node, self: PlayerId, from: PlayerId, m: Message)
    requires NodeSound(t, n) && (m.Leave? || m.Left?)
    ensures NodeSound(t, Handle(n, self, from, m))
    ensures !HandleOutput(n, self, from, m).Silent? ==> MessageSound(t, HandleOutput(n, self, from, m).m)
  {
  }

  lemma HandleSound(t: State, n: Node, self: PlayerId, from: PlayerId, m: Message)
    requires NodeSound(t, n) && MessageSound(t, m)
    requires m.Granted? && m.ack in n.pending ==> m.g in t.created && t.created[m.g].info == n.pending[m.ack]
    requires m.Granted? && m.ack in n.pending ==> m.g !in n.tombs
    ensures NodeSound(t, Handle(n, self, from, m))
    ensures !HandleOutput(n, self, from, m).Silent? ==> MessageSound(t, HandleOutput(n, self, from, m).m)
  {
    match m
    case Join(_, _) => SettleSound(t, n, self, from, m);
    case Joined(_, _) => SettleSound(t, n, self, from, m);
    case Granted(_, _) => GrantedSound(t, n, self, from, m);
    case Leave(_) => LeaveSound(t, n, self, from, m);
    case Left(_) => LeaveSound(t, n, self, from, m);
    case _ =>
  }

  lemma CallSound(s: State, a: Step, t: State)
    requires a.CreateGroup? || a.DestroyGroup? || a.AddPlayer? || a.RemovePlayer? || a.Erase?
    requires Enabled(s, a) && NodeSound(t, s.nodes[a.p])
    requires t.created == s.created + NewGroup(s, a) && t.destroyed == s.destroyed + NewTomb(s, a)
    requires a.CreateGroup? && a.p == HOST ==> s.nodes[a.p].next !in s.nodes[a.p].tombs
    ensures NodeSound(t, After(s, a))
    ensures !Emits(s, a).Silent? ==> MessageSound(t, Emits(s, a).m)
  {
    if a.CreateGroup? && a.p == HOST {
      CreateSound(t, s.nodes[a.p], s.nodes[a.p].next, a.info);
    }
  }

  /** The group a step creates is not behind a tombstone. */
  lemma NotDestroyed(s: State, a: Step, build: Build, n: Node)
    requires Links(s) && Ids(s) && Sound(s) && Enabled(s, a) && NodeSound(s, n)
    ensures forall g :: g in NewGroup(s, a) ==> g !in n.tombs && g !in n.groups && g !in s.destroyed
  {
    FreshGroup(s, a, build);
  }

  lemma ReceiveSound(s: State, a: Step, t: State)
    requires Sound(s) && Enabled(s, a) && a.Deliver? && Later(s, t)
    requires t.created == s.created + NewGroup(s, a)
    requires forall g :: g in NewGroup(s, a) ==> g !in s.nodes[a.q].tombs
    ensures NodeSound(t, After(s, a))
    ensures !Emits(s, a).Silent? ==> MessageSound(t, Emits(s, a).m)
  {
    var n := s.nodes[a.q];
    var m := Wire(s, a.p, a.q)[0];
    assert m in Chan(s, a.p, a.q);
    assert ChanSound(s, a.p, a.q);
    SoundLater(s, t);
    if !MustInstantiate(n, a.p, m) {
      HandleSound(t, n, a.q, a.p, m);
    }
  }

  lemma ActorSound(s: State, a: Step, build: Build, t: State)
    requires Links(s) && Ids(s) && Sound(s) && Later(s, t)
    requires Enabled(s, a) && IsQuiet(s, a, build) && Actor(a) in s.nodes
    requires t.created == s.created + NewGroup(s, a) && t.destroyed == s.destroyed + NewTomb(s, a)
    ensures NodeSound(t, After(s, a))
    ensures !Emits(s, a).Silent? ==> MessageSound(t, Emits(s, a).m)
  {
    var n := s.nodes[Actor(a)];
    assert NodeSound(s, n);
    SoundLater(s, t);
    NotDestroyed(s, a, build, n);
    if a.Deliver? {
      ReceiveSound(s, a, t);
    } else if a.Resume? {
      SettleSound(t, n, a.q, a.p, Wire(s, a.p, a.q)[0]);
    } else {
      CallSound(s, a, t);
    }
  }

  lemma ChanSoundQuiet(s: State, a: Step, build: Build, t: State, x: PlayerId, y: PlayerId)
    requires ChanSound(s, x, y) && QuietTo(s, a, build, t) && Later(s, t)
    requires !Emits(s, a).Silent? ==> MessageSound(t, Emits(s, a).m)
    ensures ChanSound(t, x, y)
  {
    SoundLater(s, t);
    ChanStep(s, t, Actor(a), After(s, a), Source(s, a), x, y);
    StepSends(s, a, build, y);
  }

  lemma SoundQuiet(s: State, a: Step, build: Build, t: State)
    requires Links(s) && Ids(s) && Sound(s) && QuietTo(s, a, build, t)
    ensures Sound(t)
  {
    QuietLater(s, a, build, t);
    ActorSound(s, a, build, t);
    NodesLater(s, t, Actor(a), After(s, a));
    forall x, y ensures ChanSound(t, x, y) {
      assert ChanSound(s, x, y);
      ChanSoundQuiet(s, a, build, t, x, y);
    }
    DestroyedKnown(s, a, t);
  }

  lemma DestroyedKnown(s: State, a: Step, t: State)
    requires Sound(s) && Enabled(s, a) && Later(s, t) && t.destroyed == s.destroyed + NewTomb(s, a)
    ensures t.destroyed.Keys <= t.created.Keys
  {
    if a.DestroyGroup? {
      assert NodeSound(s, s.nodes[a.p]);
    }
  }

  lemma ErasingBuried(s: State, a: Step)
    requires Sound(s) && Enabled(s, a) && a.Erase?
    ensures s.nodes[a.p].erasing <= s.nodes[a.p].tombs
  {
    assert NodeSound(s, s.nodes[a.p]);
  }

  // ---------------------------------------------------------------- connections

  lemma SnapshotSound(s: State, n: Node, self: PlayerId, ds: seq<GroupId>, cs: seq<GroupId>)
    requires NodeSound(s, n) && Lists(n, ds, cs)
    ensures forall m :: m in Snapshot(n, ds, cs) ==> MessageSound(s, m)
    ensures MemberOf(n, self) <= s.created.Keys
  {
    forall m | m in Snapshot(n, ds, cs) ensures MessageSound(s, m) {
      var i :| 0 <= i < |Snapshot(n, ds, cs)| && Snapshot(n, ds, cs)[i] == m;
      if i < |ds| {
        assert ds[i] in ds;
      } else {
        assert cs[i - |ds|] in cs;
      }
    }
  }

  /** Soundness of what is said, where history stands still. */
  lemma MessagesLater(s: State, t: State)
    requires t.created == s.created && t.destroyed == s.destroyed
    ensures forall m :: MessageSound(s, m) ==> MessageSound(t, m)
  {
  }

  lemma ChanSoundSame(s: State, t: State, x: PlayerId, y: PlayerId)
    requires ChanSound(s, x, y) && Chan(t, x, y) == Chan(s, x, y)
    requires t.created == s.created && t.destroyed == s.destroyed
    requires x in t.nodes && y in t.nodes[x].held ==>
               x in s.nodes && y in s.nodes[x].held && s.nodes[x].held[y] == t.nodes[x].held[y]
    ensures ChanSound(t, x, y)
  {
    MessagesLater(s, t);
  }

  lemma ChanSoundNew(s: State, a: Step, t: State)
    requires LinkedTo(s, a, t) && ChanSound(s, a.r, a.q) && NodeSound(s, s.nodes[a.r])
    ensures ChanSound(t, a.r, a.q)
  {
    var n := s.nodes[a.r];
    MessagesLater(s, t);
    SnapshotSound(s, n, a.r, a.ds, a.cs);
    AllSound(t, Snapshot(n, a.ds, a.cs), Welcome(MemberOf(n, a.r), {}));
  }

  lemma AllSound(t: State, c: seq<Message>, w: Message)
    requires (forall m :: m in c ==> MessageSound(t, m)) && MessageSound(t, w)
    ensures forall m :: m in c + [w] ==> MessageSound(t, m)
  {
  }

  lemma ChanSoundLink(s: State, a: Step, t: State, x: PlayerId, y: PlayerId)
    requires LinkedTo(s, a, t) && ChanSound(s, x, y) && NodeSound(s, s.nodes[a.r])
    ensures ChanSound(t, x, y)
  {
    if x == a.r && y == a.q {
      ChanSoundNew(s, a, t);
    } else {
      ChanSoundSame(s, t, x, y);
    }
  }

  lemma SoundLink(s: State, a: Step, t: State)
    requires Sound(s) && LinkedTo(s, a, t)
    ensures Sound(t)
  {
    assert NodeSound(s, s.nodes[a.r]);
    assert NodeSound(t, t.nodes[a.r]);
    NodesLater(s, t, a.r, t.nodes[a.r]);
    forall x, y ensures ChanSound(t, x, y) {
      assert ChanSound(s, x, y);
      ChanSoundLink(s, a, t, x, y);
    }
  }

  lemma ChanSoundLetIn(s: State, a: Step, t: State, x: PlayerId, y: PlayerId)
    requires LetInTo(s, a, t) && ChanSound(s, x, y) && NodeSound(s, s.nodes[HOST])
    ensures ChanSound(t, x, y)
  {
    MessagesLater(s, t);
    SnapshotSound(s, s.nodes[HOST], HOST, a.ds, a.cs);
  }

  lemma SoundLetIn(s: State, a: Step, t: State)
    requires Sound(s) && LetInTo(s, a, t)
    ensures Sound(t)
  {
    assert NodeSound(s, s.nodes[HOST]);
    forall x | x in t.nodes ensures NodeSound(t, t.nodes[x]) {
      if x in s.nodes {
        assert NodeSound(s, s.nodes[x]);
      }
    }
    forall x, y ensures ChanSound(t, x, y) {
      assert ChanSound(s, x, y);
      ChanSoundLetIn(s, a, t, x, y);
    }
  }

  lemma ChanSoundSent(s: State, a: Step, t: State, x: PlayerId, y: PlayerId)
    requires SentTo(s, a, t) && ChanSound(s, x, y)
    ensures ChanSound(t, x, y)
  {
    MessagesLater(s, t);
  }

  lemma SoundSent(s: State, a: Step, t: State)
    requires Sound(s) && SentTo(s, a, t)
    ensures Sound(t)
  {
    assert NodeSound(s, s.nodes[Actor(a)]);
    assert NodeSound(t, t.nodes[Actor(a)]);
    NodesLater(s, t, Actor(a), t.nodes[Actor(a)]);
    forall x, y ensures ChanSound(t, x, y) {
      assert ChanSound(s, x, y);
      ChanSoundSent(s, a, t, x, y);
    }
  }

  lemma WelcomedSound(s: State, n: Node, self: PlayerId, from: PlayerId, m: Message)
    requires NodeSound(s, n) && m.Welcome?
    ensures NodeSound(s, Welcomed(n, self, from, m))
  {
  }

  lemma SoundGreeting(s: State, a: Step, t: State)
    requires Sound(s) && GreetedTo(s, a, t)
    ensures Sound(t)
  {
    SoundLater(s, t);
    assert NodeSound(s, s.nodes[a.q]);
    WelcomedSound(s, s.nodes[a.q], a.q, a.p, Wire(s, a.p, a.q)[0]);
    forall x, y ensures ChanSound(t, x, y) {
      assert ChanSound(s, x, y);
      GreetingChan(s, a, t, x, y);
    }
  }
}
