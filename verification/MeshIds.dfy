/** The host hands out every identifier, player or group, once; and a group identifier is used by the one player it
    was granted to.
 */
module MeshIds {
  import opened GroupProtocol
  import opened Mesh
  import opened MeshLinks
  import opened MeshSteps
  import opened MeshOutput

  // ---------------------------------------------------------------- the invariant

  ghost predicate GrantsOk(s: State, p: PlayerId, q: PlayerId) {
    var c := Chan(s, p, q);
    && (forall i :: 0 <= i < |c| && c[i].Granted? ==>
          p == HOST && c[i].g in s.grants && s.grants[c[i].g] == q && c[i].g !in s.created)
    && (forall i, j :: 0 <= i < j < |c| && c[i].Granted? && c[j].Granted? ==> c[i].g != c[j].g)
  }

  /** Only a player in the session asks for an identifier, and it asks the host. */
  ghost predicate AsksOk(s: State, p: PlayerId, q: PlayerId) {
    && (forall m :: m in Chan(s, p, q) && m.Allocate? ==> q == HOST && p in s.nodes && InSession(s.nodes[p]))
    && (forall m :: m in Chan(s, p, q) && m.Granted? ==> q in s.nodes && InSession(s.nodes[q]))
  }

  ghost predicate Ids(s: State) {
    && HOST in s.nodes
    && (forall g :: g in s.grants ==> 0 < g < s.nodes[HOST].next && g !in s.nodes)
    && s.created.Keys <= s.grants.Keys
    && (forall g :: g in s.created ==>
          s.created[g].creator == s.grants[g] && s.grants[g] in s.nodes && InSession(s.nodes[s.grants[g]]))
    && (forall p, q :: GrantsOk(s, p, q))
    && (forall p, q :: AsksOk(s, p, q))
  }

  /** The group a step creates did not exist, and no grant for it is left anywhere. */
  lemma FreshGroup(s: State, a: Step, build: Build)
    requires Links(s) && Ids(s) && Enabled(s, a)
    ensures forall g :: g in NewGroup(s, a) ==>
              && g !in s.created
              && NewGroup(s, a)[g].creator == Actor(a) && Actor(a) in s.nodes && InSession(s.nodes[Actor(a)])
              && (s.grants + NewGrant(s, a)).Keys >= {g} && (s.grants + NewGrant(s, a))[g] == Actor(a)
  {
    if a.Deliver? {
      var c := Chan(s, a.p, a.q);
      assert c[0] == Wire(s, a.p, a.q)[0];
      assert GrantsOk(s, a.p, a.q) && AsksOk(s, a.p, a.q);
    }
  }

  /** The identifier a step grants is the host's next one. */
  lemma FreshGrant(s: State, a: Step)
    requires Ids(s) && Enabled(s, a)
    ensures forall g :: g in NewGrant(s, a) ==>
              g == s.nodes[HOST].next && Actor(a) == HOST && g !in s.grants && After(s, a).next == g + 1
  {
    if a.Deliver? {
      assert Chan(s, a.p, a.q)[0] == Wire(s, a.p, a.q)[0];
      assert AsksOk(s, a.p, a.q);
    }
  }

  lemma GrantsGrow(c: seq<Message>, s: State, t: State, p: PlayerId, q: PlayerId)
    requires GrantsOk(s, p, q) && (c <= Chan(s, p, q) || (Chan(s, p, q) != [] && c == Chan(s, p, q)[1..]))
    requires forall g :: g in s.grants ==> g in t.grants && t.grants[g] == s.grants[g]
    requires forall i :: 0 <= i < |c| && c[i].Granted? ==> c[i].g !in t.created
    requires Chan(t, p, q) == c
    ensures GrantsOk(t, p, q)
  {
  }

  lemma GrantsAppend(s: State, t: State, p: PlayerId, q: PlayerId, m: Message)
    requires GrantsOk(s, p, q)
    requires forall g :: g in s.grants ==> g in t.grants && t.grants[g] == s.grants[g]
    requires forall g :: g in t.created && g !in s.created ==> g !in s.grants || s.grants[g] != q || p != HOST
    requires Chan(t, p, q) == Chan(s, p, q) + [m]
    requires m.Granted? ==> p == HOST && m.g !in s.grants && m.g in t.grants && t.grants[m.g] == q && m.g !in t.created
    ensures GrantsOk(t, p, q)
  {
    var c, d := Chan(s, p, q), Chan(t, p, q);
    forall i | 0 <= i < |d| && d[i].Granted?
      ensures p == HOST && d[i].g in t.grants && t.grants[d[i].g] == q && d[i].g !in t.created
    {
      assert i < |c| ==> d[i] == c[i];
    }
    forall i, j | 0 <= i < j < |d| && d[i].Granted? && d[j].Granted? ensures d[i].g != d[j].g {
      assert d[i] == c[i];
    }
  }

  /** A created group leaves no grant behind, because grants for one player differ from each other. */
  lemma NoGrantLeft(s: State, a: Step, build: Build, x: PlayerId, y: PlayerId, i: nat)
    requires Links(s) && Ids(s) && Enabled(s, a) && IsQuiet(s, a, build)
    requires i < |Chan(s, x, y)| && Chan(s, x, y)[i].Granted?
    requires x == Source(s, a) && x != Actor(a) && y == Actor(a) ==> i > 0
    ensures Chan(s, x, y)[i].g !in NewGroup(s, a)
  {
    assert GrantsOk(s, x, y);
    FreshGrant(s, a);
    if a.Deliver? {
      assert Chan(s, a.p, a.q)[0] == Wire(s, a.p, a.q)[0];
      assert GrantsOk(s, a.p, a.q);
      NoSelfChannel(s, a.q);
    }
  }

  /** A grant answers a request of the player it goes to; a request goes to the host. */
  lemma EmitsIds(s: State, a: Step)
    requires Ids(s) && Enabled(s, a)
    ensures var o := Emits(s, a);
            && (!o.Silent? && o.m.Granted? ==>
                  o.To? && NewGrant(s, a) == map[o.m.g := o.q] && o.q in s.nodes && InSession(s.nodes[o.q]))
            && (!o.Silent? && o.m.Allocate? ==>
                  o.To? && o.q == HOST && Actor(a) in s.nodes && InSession(s.nodes[Actor(a)]))
  {
    if a.Deliver? {
      assert Chan(s, a.p, a.q)[0] == Wire(s, a.p, a.q)[0];
      assert AsksOk(s, a.p, a.q);
    }
  }

  lemma GrantsSent(s: State, a: Step, build: Build, t: State, x: PlayerId, y: PlayerId)
    requires Links(s) && Ids(s) && QuietTo(s, a, build, t)
    requires x == Actor(a) && Extra(s.nodes[x], After(s, a), y) != []
    ensures GrantsOk(t, x, y)
  {
    assert GrantsOk(s, x, y) && LinkOk(s, x, y);
    ChanStep(s, t, x, After(s, a), Source(s, a), x, y);
    StepSends(s, a, build, y);
    EmitsIds(s, a);
    FreshGrant(s, a);
    FreshGroup(s, a, build);
    var m := Extra(s.nodes[x], After(s, a), y)[0];
    if m.Granted? {
      assert m.g in NewGrant(s, a);
      assert m.g !in NewGroup(s, a);
    }
    GrantsAppend(s, t, x, y, m);
  }

  lemma GrantsKept(s: State, a: Step, build: Build, t: State, x: PlayerId, y: PlayerId)
    requires Links(s) && Ids(s) && QuietTo(s, a, build, t)
    requires x == Actor(a) ==> Extra(s.nodes[x], After(s, a), y) == []
    ensures GrantsOk(t, x, y)
  {
    var c, d := Chan(s, x, y), Chan(t, x, y);
    assert GrantsOk(s, x, y);
    ChanStep(s, t, Actor(a), After(s, a), Source(s, a), x, y);
    FreshGrant(s, a);
    forall i | 0 <= i < |d| && d[i].Granted? ensures d[i].g !in t.created {
      NoGrantLeft(s, a, build, x, y, if d == c then i else i + 1);
    }
    GrantsGrow(d, s, t, x, y);
  }

  /** Whoever was in the session is. */
  ghost predicate Stay(s: State, t: State) {
    forall p :: p in s.nodes && InSession(s.nodes[p]) ==> p in t.nodes && InSession(t.nodes[p])
  }

  lemma AsksMore(s: State, t: State, x: PlayerId, y: PlayerId, e: seq<Message>)
    requires AsksOk(s, x, y) && Stay(s, t)
    requires Chan(t, x, y) == Chan(s, x, y) + e || (Chan(s, x, y) != [] && Chan(t, x, y) == Chan(s, x, y)[1..])
    requires forall m :: m in e && m.Allocate? ==> y == HOST && x in s.nodes && InSession(s.nodes[x])
    requires forall m :: m in e && m.Granted? ==> y in s.nodes && InSession(s.nodes[y])
    ensures AsksOk(t, x, y)
  {
  }

  lemma AsksQuiet(s: State, a: Step, build: Build, t: State, x: PlayerId, y: PlayerId)
    requires Ids(s) && Enabled(s, a) && IsQuiet(s, a, build) && Actor(a) in s.nodes
    requires Local(s, t, Actor(a), After(s, a), Source(s, a)) && After(s, a).todo == s.nodes[Actor(a)].todo
    ensures AsksOk(t, x, y)
  {
    assert AsksOk(s, x, y);
    ChanStep(s, t, Actor(a), After(s, a), Source(s, a), x, y);
    if x == Actor(a) {
      StepSends(s, a, build, y);
      EmitsIds(s, a);
      AsksMore(s, t, x, y, Extra(s.nodes[x], After(s, a), y));
    } else {
      assert Chan(s, x, y) + [] == Chan(s, x, y);
      AsksMore(s, t, x, y, []);
    }
  }

  lemma RangesQuiet(s: State, a: Step, t: State)
    requires Ids(s) && Enabled(s, a) && Actor(a) in s.nodes
    requires t.nodes == s.nodes[Actor(a) := After(s, a)] && s.nodes[Actor(a)].next <= After(s, a).next
    requires t.grants == s.grants + NewGrant(s, a) && s.nodes[HOST].next !in s.nodes && 0 < s.nodes[HOST].next
    ensures HOST in t.nodes
    ensures forall g :: g in t.grants ==> 0 < g < t.nodes[HOST].next && g !in t.nodes
  {
    FreshGrant(s, a);
  }

  lemma NewCreator(s: State, a: Step, build: Build, t: State, g: GroupId)
    requires Links(s) && Ids(s) && Enabled(s, a) && Actor(a) in s.nodes
    requires t.nodes == s.nodes[Actor(a) := After(s, a)] && s.nodes[Actor(a)].todo == After(s, a).todo
    requires t.created == s.created + NewGroup(s, a) && t.grants == s.grants + NewGrant(s, a)
    requires g in NewGroup(s, a)
    ensures g in t.grants
    ensures t.created[g].creator == t.grants[g] && t.grants[g] in t.nodes && InSession(t.nodes[t.grants[g]])
  {
    FreshGroup(s, a, build);
  }

  lemma OldCreator(s: State, a: Step, t: State, g: GroupId)
    requires Ids(s) && Enabled(s, a) && Actor(a) in s.nodes
    requires t.nodes == s.nodes[Actor(a) := After(s, a)] && s.nodes[Actor(a)].todo == After(s, a).todo
    requires g in s.created && g in t.created && t.created[g] == s.created[g]
    requires t.grants == s.grants + NewGrant(s, a)
    ensures g in t.grants
    ensures t.created[g].creator == t.grants[g] && t.grants[g] in t.nodes && InSession(t.nodes[t.grants[g]])
  {
    FreshGrant(s, a);
    assert g !in NewGrant(s, a);
  }

  lemma CreatorsQuiet(s: State, a: Step, build: Build, t: State, g: GroupId)
    requires Links(s) && Ids(s) && Enabled(s, a) && Actor(a) in s.nodes
    requires t.nodes == s.nodes[Actor(a) := After(s, a)] && s.nodes[Actor(a)].todo == After(s, a).todo
    requires t.created == s.created + NewGroup(s, a) && t.grants == s.grants + NewGrant(s, a)
    requires g in t.created
    ensures g in t.grants
    ensures t.created[g].creator == t.grants[g] && t.grants[g] in t.nodes && InSession(t.nodes[t.grants[g]])
  {
    if g in NewGroup(s, a) {
      NewCreator(s, a, build, t, g);
    } else {
      OldCreator(s, a, t, g);
    }
  }

  lemma IdsQuiet(s: State, a: Step, build: Build, t: State)
    requires Links(s) && Ids(s) && QuietTo(s, a, build, t)
    ensures Ids(t)
  {
    RangesQuiet(s, a, t);
    forall g | g in t.created
      ensures g in t.grants && t.created[g].creator == t.grants[g]
      ensures t.grants[g] in t.nodes && InSession(t.nodes[t.grants[g]])
    {
      CreatorsQuiet(s, a, build, t, g);
    }
    forall x, y ensures GrantsOk(t, x, y) {
      if x == Actor(a) && Extra(s.nodes[x], After(s, a), y) != [] {
        GrantsSent(s, a, build, t, x, y);
      } else {
        GrantsKept(s, a, build, t, x, y);
      }
    }
    forall x, y ensures AsksOk(t, x, y) {
      AsksQuiet(s, a, build, t, x, y);
    }
  }

  // ---------------------------------------------------------------- steps that create and grant nothing

  ghost predicate NoIds(c: seq<Message>) {
    forall i :: 0 <= i < |c| ==> !c[i].Granted? && !c[i].Allocate?
  }

  /** The channel is what it was, without its first message or with some that carry no identifiers. */
  ghost predicate Plain(s: State, t: State, x: PlayerId, y: PlayerId, e: seq<Message>) {
    && NoIds(e)
    && (Chan(t, x, y) == Chan(s, x, y) + e
        || (Chan(s, x, y) != [] && Chan(t, x, y) == Chan(s, x, y)[1..]))
  }

  lemma PlainGrants(s: State, t: State, x: PlayerId, y: PlayerId, e: seq<Message>)
    requires GrantsOk(s, x, y) && Plain(s, t, x, y, e) && t.grants == s.grants && t.created == s.created
    ensures GrantsOk(t, x, y)
  {
    var c, d := Chan(s, x, y), Chan(t, x, y);
    if d == c + e {
      assert forall i :: 0 <= i < |d| && d[i].Granted? ==> i < |c| && d[i] == c[i];
    } else {
      assert forall i :: 0 <= i < |d| ==> d[i] == c[i + 1];
    }
  }

  lemma PlainAsks(s: State, t: State, x: PlayerId, y: PlayerId, e: seq<Message>)
    requires AsksOk(s, x, y) && Plain(s, t, x, y, e) && Stay(s, t)
    ensures AsksOk(t, x, y)
  {
    AsksMore(s, t, x, y, e);
  }

  lemma IdsPlain(s: State, t: State, e: (PlayerId, PlayerId) -> seq<Message>)
    requires Ids(s) && t.grants == s.grants && t.created == s.created && s.nodes.Keys <= t.nodes.Keys
    requires s.nodes[HOST].next <= t.nodes[HOST].next && t.nodes.Keys <= s.nodes.Keys + {s.nodes[HOST].next}
    requires Stay(s, t)
    requires forall x, y :: Plain(s, t, x, y, e(x, y))
    ensures Ids(t)
  {
    forall x, y ensures GrantsOk(t, x, y) && AsksOk(t, x, y) {
      assert GrantsOk(s, x, y) && AsksOk(s, x, y) && Plain(s, t, x, y, e(x, y));
      PlainGrants(s, t, x, y, e(x, y));
      PlainAsks(s, t, x, y, e(x, y));
    }
  }

  lemma SameChan(s: State, t: State, x: PlayerId, y: PlayerId)
    requires Chan(t, x, y) == Chan(s, x, y)
    ensures Plain(s, t, x, y, [])
  {
    assert Chan(s, x, y) + [] == Chan(s, x, y);
  }

  lemma NewChan(s: State, t: State, x: PlayerId, y: PlayerId, e: seq<Message>)
    requires Chan(s, x, y) == [] && Chan(t, x, y) == e && NoIds(e)
    ensures Plain(s, t, x, y, e)
  {
    assert [] + e == e;
  }

  lemma IdsLink(s: State, a: Step, t: State)
    requires Ids(s) && LinkedTo(s, a, t)
    ensures Ids(t)
  {
    var n := s.nodes[a.r];
    SnapshotQuiet(n, a.ds, a.cs);
    var c := Snapshot(n, a.ds, a.cs) + [Welcome(MemberOf(n, a.r), {})];
    var e := (x: PlayerId, y: PlayerId) => if x == a.r && y == a.q then c else [];
    forall x, y ensures Plain(s, t, x, y, e(x, y)) {
      if x == a.r && y == a.q { NewChan(s, t, x, y, c); } else { SameChan(s, t, x, y); }
    }
    IdsPlain(s, t, e);
  }

  lemma IdsLetIn(s: State, a: Step, t: State)
    requires Ids(s) && LetInTo(s, a, t)
    ensures Ids(t)
  {
    var n := s.nodes[HOST];
    SnapshotQuiet(n, a.ds, a.cs);
    var c := Snapshot(n, a.ds, a.cs);
    var e := (x: PlayerId, y: PlayerId) => if x == HOST && y == n.next then c else [];
    forall x, y ensures Plain(s, t, x, y, e(x, y)) {
      if x == HOST && y == n.next { NewChan(s, t, x, y, c); } else { SameChan(s, t, x, y); }
    }
    IdsPlain(s, t, e);
  }

  ghost function Promoted(s: State, a: Step, x: PlayerId, y: PlayerId): seq<Message> {
    if a.Promote? && x == HOST && y == a.q && HOST in s.nodes && y in s.nodes[HOST].held
    then [s.nodes[HOST].held[y]] else []
  }

  lemma PromotedPlain(s: State, a: Step, t: State, x: PlayerId, y: PlayerId)
    requires Links(s) && SentTo(s, a, t)
    ensures Plain(s, t, x, y, Promoted(s, a, x, y))
  {
    assert LinkOk(s, x, y);
  }

  lemma IdsSent(s: State, a: Step, t: State)
    requires Links(s) && Ids(s) && SentTo(s, a, t)
    ensures Ids(t)
  {
    var e := (x: PlayerId, y: PlayerId) => Promoted(s, a, x, y);
    forall x, y ensures Plain(s, t, x, y, e(x, y)) {
      PromotedPlain(s, a, t, x, y);
    }
    IdsPlain(s, t, e);
  }

  lemma IdsGreeting(s: State, a: Step, t: State)
    requires Ids(s) && GreetedTo(s, a, t)
    ensures Ids(t)
  {
    var e := (x: PlayerId, y: PlayerId) => [];
    forall x, y ensures Plain(s, t, x, y, e(x, y)) {
      GreetingChan(s, a, t, x, y);
    }
    IdsPlain(s, t, e);
  }
}
