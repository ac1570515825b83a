/** The loops that clear out peers, groups and queued sends although the lock is released in their middle: each starts
    over after a release, since anything may have changed by then.
 */
module Cleanup {
  import opened SendQueue

  type PeerId = nat
  type GroupId = nat
  type PlayerId = nat

  datatype PeerState = Accepted | Connecting | Requesting | Indicating | Connected | Closing

  datatype Peer = Peer(state: PeerState, sq: Queues)

  /** What the lock protects. */
  datatype World = World(peers: map<PeerId, Peer>, groups: map<GroupId, set<PlayerId>>, destroyed: set<GroupId>)

  /** The world that a loop finds at first, and then after each release of the lock. The application and the other
      threads decide what worlds these are; a loop that runs out of them is in a callback still. */
  function At(first: World, worlds: seq<World>, k: nat): World
    requires k <= |worlds|
  {
    if k == 0 then first else worlds[k - 1]
  }

  // ---------------------------------------------------------------- what the loops are for

  predicate Cancellable(sq: Queues) {
    Remove(sq, Any, Order(Any)).1.Some?
  }

  /** No queue holds an operation of the application's. */
  ghost predicate NothingToCancel(w: World) {
    forall p :: p in w.peers ==> !Cancellable(w.peers[p].sq)
  }

  ghost predicate AllClosing(w: World) {
    forall p :: p in w.peers ==> w.peers[p].state == Closing
  }

  ghost predicate InNoGroup(w: World, player: PlayerId) {
    forall g :: g in w.groups ==> player !in w.groups[g]
  }

  /** The first n worlds have something to cancel. */
  ghost predicate AllWithSome(first: World, worlds: seq<World>, n: nat)
    requires n <= |worlds| + 1
  {
    forall k :: 0 <= k < n && k <= |worlds| ==> !NothingToCancel(At(first, worlds, k))
  }

  lemma OneMoreWithSome(first: World, worlds: seq<World>, n: nat)
    requires n <= |worlds| && AllWithSome(first, worlds, n) && !NothingToCancel(At(first, worlds, n))
    ensures AllWithSome(first, worlds, n + 1)
  {
  }

  lemma Something(w: World, p: PeerId)
    requires p in w.peers && Cancellable(w.peers[p].sq)
    ensures !NothingToCancel(w)
  {
  }

  /** Nothing to cancel means that every operation still queued is one of the program's own. */
  lemma OnlyInternalLeft(w: World, p: PeerId, pri: Priority, i: nat)
    requires NothingToCancel(w) && p in w.peers && i < |Of(w.peers[p].sq, pri)|
    ensures Of(w.peers[p].sq, pri)[i].handle == 0
  {
    var sq := w.peers[p].sq;
    RemoveExact(sq, Any, Order(Any));
    assert !Cancellable(sq);
    assert pri in Order(Any);
    assert NoMatch(Of(sq, pri), Any);
    assert !Matches(Of(sq, pri)[i], Any);
  }

  class Session {
    var peers: map<PeerId, Peer>
    var groups: map<GroupId, set<PlayerId>>
    var destroyed: set<GroupId>

    ghost function Value(): World
      reads this
    {
      World(peers, groups, destroyed)
    }

    constructor (w: World)
      ensures Value() == w
    {
      peers, groups, destroyed := w.peers, w.groups, w.destroyed;
    }

    /** The lock is released and taken again. */
    method Release(w: World)
      modifies this
      ensures Value() == w
    {
      peers, groups, destroyed := w.peers, w.groups, w.destroyed;
    }

    /** Takes a send that can be cancelled out of a peer's queue, if there is one. */
    method TakeQueued(p: PeerId) returns (op: Option<Op>)
      requires p in peers
      modifies this`peers
      ensures op.Some? <==> Cancellable(old(peers)[p].sq)
      ensures op.None? ==> peers == old(peers)
      ensures op.Some? ==> op.value.handle != 0 && TakenFrom(old(Value()), Value(), p, op.value)
    {
      var (sq, taken) := Remove(peers[p].sq, Any, Order(Any));
      RemoveExact(peers[p].sq, Any, Order(Any));
      RemoveCancels(peers[p].sq, Any);
      op := taken;
      if op.Some? {
        peers := peers[p := peers[p].(sq := sq)];
      }
    }

    /** One peer's turn. */
    method CancelOne(ghost first: World, ghost worlds: seq<World>, p: PeerId, cancelled: seq<Op>,
                     ghost given: seq<World>)
      returns (taken: bool, cancelled': seq<Op>, ghost given': seq<World>)
      requires p in peers && AllTaken(first, worlds, given, cancelled) && |given| <= |worlds|
      requires Value() == At(first, worlds, |given|)
      modifies this`peers
      ensures taken <==> Cancellable(old(peers)[p].sq)
      ensures !taken ==> peers == old(peers) && cancelled' == cancelled && given' == given
      ensures taken ==> |cancelled'| == |cancelled| + 1 && AllTaken(first, worlds, given', cancelled')
    {
      taken, cancelled', given' := false, cancelled, given;
      var op := TakeQueued(p);
      if op.Some? {
        OneMoreTaken(first, worlds, given, cancelled, Value(), p, op.value);
        taken, cancelled', given' := true, cancelled + [op.value], given + [Value()];
      }
    }

    /** CancelAsyncOperation() with DPNCANCEL_ALL_OPERATIONS. The loop ends in the first world that has nothing to
        cancel, which it leaves as it is, and goes on as long as there is none. `given` has the worlds as the loop
        leaves them at each release: each is without one send, whose callback is called then. */
    method CancelAll(worlds: seq<World>)
      returns (n: nat, finished: bool, cancelled: seq<Op>, ghost given: seq<World>)
      modifies this
      ensures n <= |worlds| && |cancelled| == if finished then n else n + 1
      ensures AllWithSome(old(Value()), worlds, n)
      ensures AllTaken(old(Value()), worlds, given, cancelled)
      ensures finished <==> NothingToCancel(At(old(Value()), worlds, n))
      ensures finished ==> Value() == At(old(Value()), worlds, n)
      ensures !finished ==> n == |worlds|
    {
      n, finished, cancelled, given := 0, false, [], [];
      ghost var first := Value();
      var rest := peers.Keys;
      while rest != {}
        invariant n <= |worlds| && |cancelled| == n && rest <= peers.Keys
        invariant Value() == At(first, worlds, n)
        invariant AllWithSome(first, worlds, n)
        invariant AllTaken(first, worlds, given, cancelled)
        invariant forall p :: p in peers && p !in rest ==> !Cancellable(peers[p].sq)
        decreases |worlds| - n, |rest|
      {
        var p :| p in rest;
        ghost var was := Value();
        var taken;
        taken, cancelled, given := CancelOne(first, worlds, p, cancelled, given);
        if !taken {
          rest := rest - {p};
        } else {
          Something(was, p);
          OneMoreWithSome(first, worlds, n);
          if n == |worlds| {
            return;
          }
          Release(worlds[n]);
          n := n + 1;
          rest := peers.Keys;
        }
      }
      finished := true;
    }

    /** dispatch_destroy_player(), up to the point where it raises DPNMSG_DESTROY_PLAYER. Before each release the player
        is taken out of one group (`given`). */
    method LeaveGroups(player: PlayerId, worlds: seq<World>) returns (n: nat, finished: bool, ghost given: seq<World>)
      modifies this
      ensures n <= |worlds| && |given| == if finished then n else n + 1
      ensures forall k :: 0 <= k < n ==> !InNoGroup(At(old(Value()), worlds, k), player)
      ensures forall k :: 0 <= k < |given| ==> LeftGroup(At(old(Value()), worlds, k), given[k], player)
      ensures finished <==> InNoGroup(At(old(Value()), worlds, n), player)
      ensures finished ==> Value() == At(old(Value()), worlds, n)
      ensures !finished ==> n == |worlds|
    {
      n, finished, given := 0, false, [];
      ghost var first := Value();
      var rest := groups.Keys;
      while rest != {}
        invariant n <= |worlds| && |given| == n && rest <= groups.Keys
        invariant Value() == At(first, worlds, n)
        invariant forall k :: 0 <= k < n ==> !InNoGroup(At(first, worlds, k), player)
        invariant forall k :: 0 <= k < n ==> LeftGroup(At(first, worlds, k), given[k], player)
        invariant forall g :: g in groups && g !in rest ==> player !in groups[g]
        decreases |worlds| - n, |rest|
      {
        var g :| g in rest;
        if player in groups[g] {
          ghost var before := Value();
          assert !InNoGroup(before, player);
          groups := groups[g := groups[g] - {player}];
          given := given + [Value()];
          assert LeftGroup(before, given[n], player);
          if n == |worlds| {
            return;
          }
          Release(worlds[n]);
          n := n + 1;
          rest := groups.Keys;
        } else {
          rest := rest - {g};
        }
      }
      finished := true;
    }

    /** peer_shutdown(): a connected peer becomes PS_CLOSING before the release, any other is gone after it. */
    method Shutdown(p: PeerId, w: World) returns (ghost given: World)
      requires p in peers && peers[p].state != Closing
      modifies this
      ensures given == if old(peers)[p].state == Connected
                       then old(Value()).(peers := old(peers)[p := old(peers)[p].(state := Closing)])
                       else old(Value())
      ensures Value() == AfterShutdown(old(Value()), p, w)
    {
      if peers[p].state == Connected {
        peers := peers[p := peers[p].(state := Closing)];
        given := Value();
        Release(w);
      } else {
        given := Value();
        Release(w);
        peers := peers - {p};
      }
    }

    /** peer_shutdown_all(): whatever happens meanwhile, it ends in the first world that it sees in which every peer is
        closing. `seen` has the worlds that the loop scans, `given` those that it leaves at each release. */
    method ShutdownAll(worlds: seq<World>)
      returns (n: nat, finished: bool, ghost seen: seq<World>, ghost given: seq<World>)
      modifies this
      ensures |given| == n && ShutTurns(worlds, seen, given) && seen[0] == old(Value()) && seen[n] == Value()
      ensures finished <==> AllClosing(seen[n])
      ensures !finished ==> n == |worlds|
    {
      n, finished, seen, given := 0, false, [Value()], [];
      var rest := peers.Keys;
      while rest != {}
        invariant rest <= peers.Keys && |given| == n
        invariant ShutTurns(worlds, seen, given) && seen[0] == old(Value()) && seen[n] == Value()
        invariant forall p :: p in peers && p !in rest ==> peers[p].state == Closing
        decreases |worlds| - n, |rest|
      {
        var p :| p in rest;
        if peers[p].state == Closing {
          rest := rest - {p};
        } else {
          assert !AllClosing(seen[n]);
          if n == |worlds| {
            return;
          }
          ghost var left := Shutdown(p, worlds[n]);
          OneMoreShut(worlds, seen, given, p, left, Value());
          seen, given, n := seen + [Value()], given + [left], n + 1;
          rest := peers.Keys;
        }
      }
      finished := true;
    }

    /** peer_destroy_all(): each peer_destroy() leaves the peer gone; it ends in the first world that it sees without
        peers. */
    method DestroyAllPeers(worlds: seq<World>) returns (n: nat, finished: bool, ghost seen: seq<World>)
      modifies this
      ensures n <= |worlds| && |seen| == n + 1 && seen[0] == old(Value()) && seen[n] == Value()
      ensures forall k :: 0 <= k < n ==> Gone(seen[k], seen[k + 1], worlds[k])
      ensures forall k :: 0 <= k < n ==> seen[k].peers != map[]
      ensures finished <==> seen[n].peers == map[]
      ensures !finished ==> n == |worlds|
    {
      n, finished, seen := 0, false, [Value()];
      while peers != map[]
        invariant n <= |worlds| && |seen| == n + 1 && seen[0] == old(Value()) && seen[n] == Value()
        invariant forall k :: 0 <= k < n ==> Gone(seen[k], seen[k + 1], worlds[k])
        invariant forall k :: 0 <= k < n ==> seen[k].peers != map[]
        decreases |worlds| - n
      {
        var p :| p in peers;
        if n == |worlds| {
          return;
        }
        Release(worlds[n]);
        peers := peers - {p};
        seen := seen + [Value()];
        assert Gone(seen[n], seen[n + 1], worlds[n]);
        n := n + 1;
      }
      finished := true;
    }

    /** One turn of group_destroy_all(): `done` unless the lock is released and not yet taken again. */
    method EraseGroup(g: GroupId, worlds: seq<World>, n: nat, ghost given: seq<World>)
      returns (m: nat, done: bool, ghost given': seq<World>)
      requires g in groups && n <= |worlds| && |given| == n
      modifies this
      ensures !done ==> m == n == |worlds| && g !in old(destroyed)
      ensures !done ==> given' == given + [old(Value()).(destroyed := old(destroyed) + {g})]
      ensures done ==> |given'| == m && given <= given' && Erased(old(Value()), Value(), g, worlds, given', n, m)
      ensures done && m == n ==> |groups| < |old(groups)|
    {
      m, given' := n, given;
      if g !in destroyed {
        destroyed := destroyed + {g};
        given' := given + [Value()];
        if n == |worlds| {
          return m, false, given';
        }
        Release(worlds[n]);
        m := n + 1;
      }
      groups := groups - {g};
      done := true;
    }

    /** group_destroy_all(): takes out one group after the other, with a release for each that was not being destroyed
        already, and ends in the first world that it sees without groups. `seen` has the worlds of the loop's turns,
        `used` the number of releases before each, and `given` the worlds as they are left at each release. */
    method DestroyAllGroups(worlds: seq<World>)
      returns (n: nat, finished: bool, erased: seq<GroupId>,
               ghost seen: seq<World>, ghost used: seq<nat>, ghost given: seq<World>)
      modifies this
      ensures n <= |worlds| && |given| == (if finished then n else n + 1) && Turns(worlds, given, erased, seen, used)
      ensures seen[0] == old(Value()) && used[0] == 0 && used[|erased|] == n
      ensures finished <==> seen[|erased|].groups == map[]
      ensures finished ==> Value() == seen[|erased|]
      ensures !finished ==> n == |worlds| && Marked(seen[|erased|], given[n])
    {
      n, finished, erased := 0, false, [];
      seen, used, given := [Value()], [0], [];
      while groups != map[]
        invariant n <= |worlds| && |given| == n && Turns(worlds, given, erased, seen, used)
        invariant seen[0] == old(Value()) && used[0] == 0 && used[|erased|] == n && seen[|erased|] == Value()
        decreases |worlds| - n, |groups|
      {
        var g :| g in groups;
        ghost var was := Value();
        var m, done, given' := EraseGroup(g, worlds, n, given);
        if !done {
          TurnsMore(worlds, given, given', erased, seen, used);
          given := given';
          assert Marked(was, given[n]);
          return;
        }
        OneMoreTurn(worlds, given, given', erased, seen, used, g, Value(), m);
        given, erased, seen, used, n := given', erased + [g], seen + [Value()], used + [m], m;
      }
      finished := true;
    }
  }

  /** A send of the application's is out of one peer's queue. */
  ghost predicate TakenFrom(before: World, after: World, p: PeerId, op: Op) {
    && p in before.peers && p in after.peers
    && Cancels(before.peers[p].sq, after.peers[p].sq, Some(op), Any)
    && after == before.(peers := before.peers[p := before.peers[p].(sq := after.peers[p].sq)])
  }

  ghost predicate TakenOut(before: World, after: World, op: Op) {
    exists p :: TakenFrom(before, after, p, op)
  }

  /** Every release was after one send had been taken out. */
  ghost predicate AllTaken(first: World, worlds: seq<World>, given: seq<World>, cancelled: seq<Op>)
    decreases |given|
  {
    && |given| == |cancelled| <= |worlds| + 1
    && (given != [] ==>
          var n := |given| - 1;
          && AllTaken(first, worlds, given[..n], cancelled[..n])
          && TakenOut(At(first, worlds, n), given[n], cancelled[n]))
  }

  /** The k-th send cancelled was one of the application's, and was taken out of the k-th world. */
  lemma {:induction false} CancelledAt(first: World, worlds: seq<World>, given: seq<World>, cancelled: seq<Op>, k: nat)
    requires AllTaken(first, worlds, given, cancelled) && k < |cancelled|
    ensures TakenOut(At(first, worlds, k), given[k], cancelled[k]) && cancelled[k].handle != 0
    decreases |given|
  {
    var n := |given| - 1;
    if k < n {
      CancelledAt(first, worlds, given[..n], cancelled[..n], k);
    } else {
      TakenApplication(At(first, worlds, n), given[n], cancelled[n]);
    }
  }

  lemma TakenApplication(before: World, after: World, op: Op)
    requires TakenOut(before, after, op)
    ensures op.handle != 0
  {
    var p :| TakenFrom(before, after, p, op);
  }

  lemma OneMoreTaken(first: World, worlds: seq<World>, given: seq<World>, cancelled: seq<Op>, w: World,
                     p: PeerId, op: Op)
    requires AllTaken(first, worlds, given, cancelled) && |given| <= |worlds|
    requires TakenFrom(At(first, worlds, |given|), w, p, op)
    ensures AllTaken(first, worlds, given + [w], cancelled + [op])
  {
    assert (given + [w])[..|given|] == given && (cancelled + [op])[..|given|] == cancelled;
    assert TakenOut(At(first, worlds, |given|), w, op);
  }

  /** The player is out of one group. */
  ghost predicate LeftGroup(before: World, after: World, player: PlayerId) {
    exists g :: g in before.groups && player in before.groups[g]
                && after == before.(groups := before.groups[g := before.groups[g] - {player}])
  }

  /** One group has been put on record as destroyed. */
  ghost predicate Marked(before: World, after: World) {
    exists g :: g in before.groups && g !in before.destroyed && after == before.(destroyed := before.destroyed + {g})
  }

  /** The turns of group_destroy_all(). */
  ghost predicate Turns(worlds: seq<World>, given: seq<World>, erased: seq<GroupId>, seen: seq<World>, used: seq<nat>) {
    && |seen| == |used| == |erased| + 1
    && forall k :: 0 <= k < |erased| ==> Erased(seen[k], seen[k + 1], erased[k], worlds, given, used[k], used[k + 1])
  }

  lemma TurnsMore(worlds: seq<World>, given: seq<World>, given': seq<World>, erased: seq<GroupId>, seen: seq<World>,
                  used: seq<nat>)
    requires Turns(worlds, given, erased, seen, used) && given <= given'
    ensures Turns(worlds, given', erased, seen, used)
  {
  }

  lemma OneMoreTurn(worlds: seq<World>, given: seq<World>, given': seq<World>, erased: seq<GroupId>, seen: seq<World>,
                    used: seq<nat>, g: GroupId, w: World, m: nat)
    requires Turns(worlds, given, erased, seen, used) && given <= given'
    requires Erased(seen[|erased|], w, g, worlds, given', used[|erased|], m)
    ensures Turns(worlds, given', erased + [g], seen + [w], used + [m])
  {
    TurnsMore(worlds, given, given', erased, seen, used);
  }

  /** Nothing has been taken off the record of destroyed groups while the lock was released. */
  ghost predicate RecordKept(erased: seq<GroupId>, seen: seq<World>) {
    |seen| == |erased| + 1 &&
    forall k :: 0 <= k < |erased| && erased[k] !in seen[k].destroyed ==>
      seen[k].destroyed + {erased[k]} <= seen[k + 1].destroyed
  }

  /** Then every group that was taken out is on that record in the end. */
  lemma {:induction false} ErasedOnRecord(
    worlds: seq<World>, given: seq<World>, erased: seq<GroupId>, seen: seq<World>, used: seq<nat>, i: nat, j: nat)
    requires Turns(worlds, given, erased, seen, used) && RecordKept(erased, seen) && i < j <= |erased|
    ensures erased[i] in seen[j].destroyed
    decreases j
  {
    if i < j - 1 {
      ErasedOnRecord(worlds, given, erased, seen, used, i, j - 1);
    }
    assert Erased(seen[j - 1], seen[j], erased[j - 1], worlds, given, used[j - 1], used[j - 1 + 1]);
    assert seen[j - 1 + 1] == seen[j];
  }

  ghost predicate Gone(before: World, after: World, w: World) {
    exists p :: p in before.peers && after == w.(peers := w.peers - {p})
  }

  /** One turn of group_destroy_all(), with u releases before and v after it. A group that was not being destroyed is
      put on record before the release. */
  ghost predicate Erased(
    before: World, after: World, g: GroupId, worlds: seq<World>, given: seq<World>, u: nat, v: nat)
  {
    && g in before.groups
    && if g in before.destroyed then v == u && after == before.(groups := before.groups - {g})
       else
         && v == u + 1 <= |worlds| && v <= |given|
         && given[u] == before.(destroyed := before.destroyed + {g})
         && after == worlds[u].(groups := worlds[u].groups - {g})
  }

  /** The world after the peer_shutdown() of a peer. */
  function AfterShutdown(before: World, p: PeerId, w: World): World
    requires p in before.peers
  {
    if before.peers[p].state == Connected then w else w.(peers := w.peers - {p})
  }

  /** The turns of peer_shutdown_all(). */
  ghost predicate ShutTurns(worlds: seq<World>, seen: seq<World>, given: seq<World>) {
    && |seen| == |given| + 1 && |given| <= |worlds|
    && forall k :: 0 <= k < |given| ==> Shut(seen[k], given[k], seen[k + 1], worlds[k]) && !AllClosing(seen[k])
  }

  lemma OneMoreShut(worlds: seq<World>, seen: seq<World>, given: seq<World>, p: PeerId, left: World, after: World)
    requires ShutTurns(worlds, seen, given) && |given| < |worlds|
    requires var before := seen[|given|];
             && p in before.peers && before.peers[p].state != Closing
             && after == AfterShutdown(before, p, worlds[|given|])
             && left == if before.peers[p].state == Connected
                        then before.(peers := before.peers[p := before.peers[p].(state := Closing)])
                        else before
    ensures ShutTurns(worlds, seen + [after], given + [left])
  {
    assert Shut(seen[|given|], left, after, worlds[|given|]);
  }

  ghost predicate Shut(before: World, given: World, after: World, w: World) {
    exists p ::
      && p in before.peers && before.peers[p].state != Closing && after == AfterShutdown(before, p, w)
      && given == if before.peers[p].state == Connected
                  then before.(peers := before.peers[p := before.peers[p].(state := Closing)])
                  else before
  }
}
