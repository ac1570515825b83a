/** The end of a group's destruction: when the application has returned, the entry goes, and nothing else. Every peer
    that has not crashed can finish all its destructions, so a session in which nothing is in flight can come to rest.
 */
module MeshErasing {
  import opened GroupProtocol
  import opened Mesh
  import opened MeshTheorems
  import opened MeshWitness

  /** n' has the groups of n but for gs, and is like n otherwise. */
  ghost predicate WithoutGroups(n: Node, n': Node, gs: set<GroupId>) {
    && (forall g :: g in n'.groups <==> g in n.groups && g !in gs)
    && (forall g :: g in n'.groups ==> n'.groups[g] == n.groups[g])
    && n' == n.(groups := n'.groups, erasing := n.erasing - gs)
  }

  /** Peer p's groups gs are gone; all else is as it was. */
  ghost predicate ErasedAt(s: State, t: State, p: PlayerId, gs: set<GroupId>) {
    && p in s.nodes && p in t.nodes && WithoutGroups(s.nodes[p], t.nodes[p], gs)
    && t.nodes == s.nodes[p := t.nodes[p]]
    && t.wire == s.wire && t.busy == s.busy && t.crashed == s.crashed
    && t.created == s.created && t.destroyed == s.destroyed && t.grants == s.grants
  }

  /** One such step takes out its group, at its peer, and nothing else. */
  lemma EraseOne(s: State, p: PlayerId, g: GroupId, build: Build)
    requires Enabled(s, Erase(p, g))
    ensures ErasedAt(s, Next(s, Erase(p, g), build), p, {g})
  {
  }

  lemma ErasedTwice(s: State, t: State, u: State, p: PlayerId, gs: set<GroupId>, hs: set<GroupId>)
    requires ErasedAt(s, t, p, gs) && ErasedAt(t, u, p, hs)
    ensures ErasedAt(s, u, p, gs + hs)
  {
    assert s.nodes[p].erasing - (gs + hs) == s.nodes[p].erasing - gs - hs;
  }

  /** A run goes on with such steps only. */
  ghost predicate OnlyErases(before: seq<Step>, all: seq<Step>) {
    before <= all && forall i :: |before| <= i < |all| ==> all[i].Erase?
  }

  lemma StillErases(before: seq<Step>, some: seq<Step>, all: seq<Step>)
    requires OnlyErases(before, some) && OnlyErases(some, all)
    ensures OnlyErases(before, all)
  {
  }

  /** As many steps as there are destructions under way end them all. */
  lemma {:induction false} EraseAt(s0: State, before: seq<Step>, s: State, p: PlayerId, build: Build)
    returns (all: seq<Step>, t: State)
    requires Runs(s0, before, build, s) && p in s.nodes && p !in s.crashed
    ensures Runs(s0, all, build, t) && OnlyErases(before, all) && |all| == |before| + |s.nodes[p].erasing|
    ensures ErasedAt(s, t, p, s.nodes[p].erasing) && t.nodes[p].erasing == {}
    decreases |s.nodes[p].erasing|
  {
    var left := s.nodes[p].erasing;
    if left == {} {
      all, t := before, s;
      assert s.nodes == s.nodes[p := s.nodes[p]];
    } else {
      var g :| g in left;
      var u, more := EraseNext(s0, before, s, p, g, build);
      all, t := EraseAt(s0, more, u, p, build);
      ErasedTwice(s, u, t, p, {g}, left - {g});
      assert {g} + (left - {g}) == left;
    }
  }

  lemma EraseNext(s0: State, before: seq<Step>, s: State, p: PlayerId, g: GroupId, build: Build)
    returns (u: State, more: seq<Step>)
    requires Runs(s0, before, build, s) && Enabled(s, Erase(p, g))
    ensures Runs(s0, more, build, u) && more == before + [Erase(p, g)]
    ensures ErasedAt(s, u, p, {g})
  {
    u, more := Next(s, Erase(p, g), build), before + [Erase(p, g)];
    RunsFurther(s0, before, build, s, Erase(p, g));
    EraseOne(s, p, g, build);
  }

  /** The peers ps have ended all their destructions; the rest of the session is as it was. */
  ghost predicate ErasedAll(s: State, t: State, ps: set<PlayerId>) {
    && t.nodes.Keys == s.nodes.Keys && t.wire == s.wire && t.busy == s.busy && t.crashed == s.crashed
    && t.created == s.created && t.destroyed == s.destroyed && t.grants == s.grants
    && (forall p :: p in s.nodes && p in ps ==>
          WithoutGroups(s.nodes[p], t.nodes[p], s.nodes[p].erasing) && t.nodes[p].erasing == {})
    && (forall p :: p in s.nodes && p !in ps ==> t.nodes[p] == s.nodes[p])
  }

  lemma OneMorePeer(s: State, t: State, u: State, ps: set<PlayerId>, p: PlayerId)
    requires ErasedAll(s, t, ps) && p in s.nodes && p !in ps
    requires ErasedAt(t, u, p, t.nodes[p].erasing) && u.nodes[p].erasing == {}
    ensures ErasedAll(s, u, ps + {p})
  {
  }

  lemma {:induction false} EraseEverywhere(s0: State, before: seq<Step>, s: State, ps: set<PlayerId>, build: Build)
    returns (all: seq<Step>, t: State)
    requires Runs(s0, before, build, s) && ps <= s.nodes.Keys && ps !! s.crashed
    ensures Runs(s0, all, build, t) && OnlyErases(before, all) && ErasedAll(s, t, ps)
    decreases |ps|
  {
    if ps == {} {
      all, t := before, s;
    } else {
      var p :| p in ps;
      var u, some;
      some, u := EraseEverywhere(s0, before, s, ps - {p}, build);
      all, t := EraseAt(s0, some, u, p, build);
      assert OnlyErases(before, all) by {
        StillErases(before, some, all);
      }
      assert ErasedAll(s, t, ps) by {
        OneMorePeer(s, u, t, ps - {p}, p);
        assert (ps - {p}) + {p} == ps;
      }
    }
  }

  // ---------------------------------------------------------------- coming to rest

  /** Everybody has joined and nothing is in flight; destroy callbacks may be running. */
  ghost predicate Calm(t: State) {
    && (forall p :: p in t.nodes ==> InSession(t.nodes[p]) && t.nodes[p].held == map[])
    && (forall p, q :: Chan(t, p, q) == [])
  }

  lemma CalmThenQuiescent(s: State, t: State)
    requires Calm(s) && ErasedAll(s, t, s.nodes.Keys)
    ensures Quiescent(t)
  {
    forall p, q ensures Chan(t, p, q) == [] {
      assert Chan(s, p, q) == [];
      if p in s.nodes {
        assert Out(t.nodes[p], q) == Out(s.nodes[p], q);
      }
    }
  }

  /** From every reachable state without crashes in which nothing is in flight, the ends of the destructions under way
      lead to rest; and there every peer's groups are those created and not destroyed. */
  lemma ComesToRest(s: State, before: seq<Step>, build: Build) returns (all: seq<Step>, t: State)
    requires Reachable(s, before, build) && Calm(s) && s.crashed == {}
    ensures Reachable(t, all, build) && OnlyErases(before, all) && Quiescent(t)
    ensures t.nodes.Keys == s.nodes.Keys && t.created == s.created && t.destroyed == s.destroyed
    ensures forall p :: p in t.nodes ==> t.nodes[p].groups.Keys == s.created.Keys - s.destroyed.Keys
  {
    all, t := EraseEverywhere(Initial(), before, s, s.nodes.Keys, build);
    CalmThenQuiescent(s, t);
    forall p | p in t.nodes ensures t.nodes[p].groups.Keys == s.created.Keys - s.destroyed.Keys {
      GroupsConverge(t, all, build, p);
    }
  }
}
