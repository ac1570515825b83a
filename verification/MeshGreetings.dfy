/** What a greeting says about the other players, and why everybody ends up connected to everybody: the host names
    every player it let in before, and those are exactly the ones with a smaller identifier.
 */
module MeshGreetings {
  import opened GroupProtocol
  import opened Mesh
  import opened MeshLinks
  import opened MeshSteps

  function Elders(s: State, q: PlayerId): set<PlayerId> {
    set r | r in s.nodes && HOST < r < q
  }

  function Named(s: State, p: PlayerId, q: PlayerId): set<PlayerId> {
    if p == HOST then Elders(s, q) else {}
  }

  ghost predicate GreetingOk(s: State, p: PlayerId, q: PlayerId) {
    && (forall m :: m in Chan(s, p, q) && m.Welcome? ==> m.others == Named(s, p, q))
    && (p in s.nodes && q in s.nodes[p].held && s.nodes[p].held[q].Welcome?
        ==> s.nodes[p].held[q].others == Named(s, p, q))
  }

  /** Until the host's greeting arrives a player is connected to nobody. */
  ghost predicate NewOk(s: State, q: PlayerId)
    requires q in s.nodes
  {
    HOST in s.nodes[q].todo ==> s.nodes[q].todo == {HOST} && s.nodes[q].conn == {}
  }

  /** The younger of two players connects to the older one. */
  ghost predicate PairOk(s: State, p: PlayerId, q: PlayerId)
    requires p in s.nodes && q in s.nodes
  {
    HOST < p < q ==>
      || HOST in s.nodes[q].todo
      || p in s.nodes[q].todo
      || (p in s.nodes[q].conn && q in s.nodes[p].conn)
  }

  ghost predicate Greetings(s: State) {
    && (forall p, q :: GreetingOk(s, p, q))
    && (forall q :: q in s.nodes ==> NewOk(s, q))
    && (forall p, q :: p in s.nodes && q in s.nodes ==> PairOk(s, p, q))
  }

  /** The players are the same, and their connections but for p's. */
  ghost predicate SamePlayers(s: State, t: State, p: PlayerId) {
    && t.nodes.Keys == s.nodes.Keys
    && forall q :: q in s.nodes && q != p ==> t.nodes[q].conn == s.nodes[q].conn && t.nodes[q].todo == s.nodes[q].todo
  }

  lemma SameNamed(s: State, t: State, p: PlayerId, q: PlayerId)
    requires t.nodes.Keys == s.nodes.Keys
    ensures Named(t, p, q) == Named(s, p, q)
  {
    assert Elders(t, q) == Elders(s, q);
  }

  lemma GreetingsKept(s: State, t: State, p: PlayerId)
    requires Greetings(s) && SamePlayers(s, t, p) && p in s.nodes
    requires forall x, y :: GreetingOk(t, x, y)
    requires t.nodes[p].todo == s.nodes[p].todo && s.nodes[p].conn <= t.nodes[p].conn
    requires HOST in s.nodes[p].todo ==> t.nodes[p].conn == s.nodes[p].conn
    ensures Greetings(t)
  {
    forall q | q in t.nodes ensures NewOk(t, q) {
      assert NewOk(s, q);
    }
    forall x, y | x in t.nodes && y in t.nodes ensures PairOk(t, x, y) {
      assert PairOk(s, x, y);
    }
  }

  lemma GreetingsQuiet(s: State, t: State, p: PlayerId, n': Node, from: PlayerId)
    requires Greetings(s) && Local(s, t, p, n', from) && Quiet(s.nodes[p], n')
    ensures Greetings(t)
  {
    forall a, b ensures GreetingOk(t, a, b) {
      assert GreetingOk(s, a, b);
      SameNamed(s, t, a, b);
      ChanStep(s, t, p, n', from, a, b);
    }
    GreetingsKept(s, t, p);
  }

  lemma GreetingOkSent(s: State, a: Step, t: State, x: PlayerId, y: PlayerId)
    requires SentTo(s, a, t) && GreetingOk(s, x, y)
    ensures GreetingOk(t, x, y)
  {
    SameNamed(s, t, x, y);
  }

  lemma GreetingsSent(s: State, a: Step, t: State)
    requires Greetings(s) && SentTo(s, a, t)
    ensures Greetings(t)
  {
    forall x, y ensures GreetingOk(t, x, y) {
      assert GreetingOk(s, x, y);
      GreetingOkSent(s, a, t, x, y);
    }
    GreetingsKept(s, t, Actor(a));
  }

  lemma GreetingOkLinked(s: State, a: Step, t: State, x: PlayerId, y: PlayerId)
    requires LinkedTo(s, a, t) && GreetingOk(s, x, y)
    ensures GreetingOk(t, x, y)
  {
    SameNamed(s, t, x, y);
    SnapshotQuiet(s.nodes[a.r], a.ds, a.cs);
  }

  lemma GreetingsLink(s: State, a: Step, t: State)
    requires Greetings(s) && LinkedTo(s, a, t)
    ensures Greetings(t)
  {
    forall x, y ensures GreetingOk(t, x, y) {
      assert GreetingOk(s, x, y);
      GreetingOkLinked(s, a, t, x, y);
    }
    GreetingsKept(s, t, a.r);
  }

  lemma HostKnowsAll(s: State)
    requires Links(s)
    ensures s.nodes[HOST].conn == s.nodes.Keys - {HOST}
  {
    forall q | q in s.nodes[HOST].conn ensures q in s.nodes && q != HOST {
      assert LinkOk(s, HOST, q);
    }
  }

  lemma GreetingOkLetIn(s: State, a: Step, t: State, x: PlayerId, y: PlayerId)
    requires LetInTo(s, a, t) && GreetingOk(s, x, y) && LinkOk(s, x, y)
    requires s.nodes[HOST].conn == s.nodes.Keys - {HOST}
    requires forall r :: r in s.nodes ==> 0 < r < s.nodes[HOST].next
    ensures GreetingOk(t, x, y)
  {
    var q := s.nodes[HOST].next;
    assert s.nodes[HOST].conn - {q} == Elders(t, q);
    if y in s.nodes {
      assert Elders(t, y) == Elders(s, y);
    }
    SnapshotQuiet(s.nodes[HOST], a.ds, a.cs);
  }

  lemma GreetingsLetIn(s: State, a: Step, t: State)
    requires Links(s) && Greetings(s) && LetInTo(s, a, t)
    ensures Greetings(t)
  {
    HostKnowsAll(s);
    forall x, y ensures GreetingOk(t, x, y) {
      assert GreetingOk(s, x, y) && LinkOk(s, x, y);
      GreetingOkLetIn(s, a, t, x, y);
    }
    forall y | y in t.nodes ensures NewOk(t, y) {
      assert y in s.nodes ==> NewOk(s, y);
    }
    forall x, y | x in t.nodes && y in t.nodes ensures PairOk(t, x, y) {
      assert x in s.nodes && y in s.nodes ==> PairOk(s, x, y);
    }
  }

  /** The greeting that a joining peer takes from its connection names players it is not connected to. */
  lemma GreetingNames(s: State, a: Step)
    requires Links(s) && Greetings(s) && Enabled(s, a) && IsGreeting(s, a)
    ensures var others := Wire(s, a.p, a.q)[0].others;
            others == Named(s, a.p, a.q) && others <= s.nodes.Keys && a.p !in others && others !! s.nodes[a.q].conn
  {
    GreetingStep(s, a, Documented);
    assert Chan(s, a.p, a.q)[0] == Wire(s, a.p, a.q)[0];
    assert GreetingOk(s, a.p, a.q) && NewOk(s, a.q);
  }

  lemma GreetingOkGreeted(s: State, a: Step, t: State, x: PlayerId, y: PlayerId)
    requires GreetedTo(s, a, t) && GreetingOk(s, x, y)
    ensures GreetingOk(t, x, y)
  {
    SameNamed(s, t, x, y);
    GreetingChan(s, a, t, x, y);
  }

  lemma PairOkGreeted(s: State, a: Step, t: State, x: PlayerId, y: PlayerId)
    requires GreetedTo(s, a, t) && x in s.nodes && y in s.nodes && PairOk(s, x, y) && NewOk(s, y)
    requires Wire(s, a.p, a.q)[0].others == Named(s, a.p, a.q)
    ensures PairOk(t, x, y) && NewOk(t, y)
  {
  }

  lemma GreetingsGreeting(s: State, a: Step, t: State)
    requires Links(s) && Greetings(s) && GreetedTo(s, a, t)
    ensures Greetings(t)
  {
    GreetingNames(s, a);
    assert t.nodes.Keys == s.nodes.Keys;
    forall x, y ensures GreetingOk(t, x, y) {
      assert GreetingOk(s, x, y);
      GreetingOkGreeted(s, a, t, x, y);
    }
    forall x, y | x in t.nodes && y in t.nodes ensures PairOk(t, x, y) && NewOk(t, y) {
      assert PairOk(s, x, y) && NewOk(s, y);
      PairOkGreeted(s, a, t, x, y);
    }
  }

  /** Two players that have both joined are connected, both ways. */
  lemma AllConnected(s: State, p: PlayerId, q: PlayerId)
    requires Links(s) && Greetings(s) && p in s.nodes && q in s.nodes && p != q
    requires InSession(s.nodes[p]) && InSession(s.nodes[q])
    ensures q in s.nodes[p].conn && p in s.nodes[q].conn
  {
    if p == HOST {
      HostConnected(s, q);
    } else if q == HOST {
      HostConnected(s, p);
    } else {
      assert PairOk(s, p, q) && PairOk(s, q, p);
    }
  }
}
