/** No request for an identifier gets lost: it is in the queue, on its way to the host, or granted and on its way back.
    So when nothing is in flight every CreateGroup() has made its group.
 */
module MeshGrants {
  import opened GroupProtocol
  import opened Mesh
  import opened MeshLinks
  import opened MeshOutput
  import opened MeshSteps
  import opened MeshIds
  import opened MeshSound
  import opened MeshCreates
  import opened MeshTheorems

  ghost predicate HasGrant(c: seq<Message>, a: nat) {
    exists i :: 0 <= i < |c| && c[i].Granted? && c[i].ack == a
  }

  /** A request that has not been written is in the queue; one that has is on the wire, or the grant is coming. */
  ghost predicate Tracked(s: State, p: PlayerId, a: nat) {
    p in s.nodes && p != HOST ==>
      && (a in s.nodes[p].asked ==> Allocate(a) in Out(s.nodes[p], HOST))
      && (a in s.nodes[p].pending ==> Allocate(a) in Wire(s, p, HOST) || HasGrant(Chan(s, HOST, p), a))
  }

  lemma GrantMore(c: seq<Message>, c': seq<Message>, a: nat)
    requires HasGrant(c, a) && c <= c'
    ensures HasGrant(c', a)
  {
    var i :| 0 <= i < |c| && c[i].Granted? && c[i].ack == a;
    assert c'[i] == c[i];
  }

  lemma GrantTail(c: seq<Message>, a: nat)
    requires HasGrant(c, a) && !(c[0].Granted? && c[0].ack == a)
    ensures HasGrant(c[1..], a)
  {
    var i :| 0 <= i < |c| && c[i].Granted? && c[i].ack == a;
    assert c[1..][i - 1] == c[i];
  }

  /** What p has in hand is as before, and what is under way is there still. */
  lemma TrackedKept(s: State, t: State, p: PlayerId, a: nat)
    requires Tracked(s, p, a) && (p in t.nodes && p != HOST ==> p in s.nodes)
    requires p in t.nodes && p in s.nodes ==>
               && (a in t.nodes[p].asked ==> a in s.nodes[p].asked)
               && (a in t.nodes[p].pending ==> a in s.nodes[p].pending)
               && Out(s.nodes[p], HOST) <= Out(t.nodes[p], HOST)
    requires Wire(s, p, HOST) <= Wire(t, p, HOST)
    requires Chan(s, HOST, p) <= Chan(t, HOST, p)
    ensures Tracked(t, p, a)
  {
    if p in t.nodes && p != HOST && a in t.nodes[p].pending && HasGrant(Chan(s, HOST, p), a) {
      GrantMore(Chan(s, HOST, p), Chan(t, HOST, p), a);
    }
  }

  // ---------------------------------------------------------------- handlers and calls

  /** The host grants what it is asked for. */
  lemma AskArrives(s: State, a: Step, build: Build, t: State, p: PlayerId, k: nat)
    requires QuietTo(s, a, build, t) && Tracked(s, p, k) && a.Deliver? && a.p == p && a.q == HOST && p != HOST
    requires p in s.nodes[HOST].conn
    ensures Tracked(t, p, k)
  {
    var m, c, c' := Wire(s, p, HOST)[0], Chan(s, HOST, p), Chan(t, HOST, p);
    ChanStep(s, t, HOST, After(s, a), Source(s, a), HOST, p);
    assert c <= c';
    if p in t.nodes && k in t.nodes[p].pending {
      if HasGrant(c, k) {
        GrantMore(c, c', k);
      } else if m == Allocate(k) {
        StepSends(s, a, build, p);
        assert c'[|c|].Granted? && c'[|c|].ack == k;
      } else if Source(s, a) == p {
        assert Allocate(k) in Wire(s, p, HOST)[1..];
      }
    }
  }

  /** The player's own calls and handlers. */
  lemma OwnStep(s: State, a: Step, build: Build, t: State, k: nat)
    requires QuietTo(s, a, build, t) && Actor(a) != HOST && Tracked(s, Actor(a), k)
    ensures Tracked(t, Actor(a), k)
  {
    var p := Actor(a);
    var n, n', c := s.nodes[p], After(s, a), Chan(s, HOST, p);
    ChanStep(s, t, p, n', Source(s, a), HOST, p);
    if a.CreateGroup? {
      assert n' == AskHost(n, a.info);
      if k == n.nextAck {
        assert Out(n', HOST)[|Out(n, HOST)|] == Allocate(k);
      }
    } else if a.Deliver? && Source(s, a) == HOST && c != [] {
      assert c[0] == Wire(s, HOST, p)[0];
      if k in n'.pending && HasGrant(c, k) {
        OwnGrant(s, a, build, k);
        GrantTail(c, k);
      }
      OwnRequests(s, a, build);
    } else {
      OwnRequests(s, a, build);
    }
  }

  lemma OwnRequests(s: State, a: Step, build: Build)
    requires Enabled(s, a) && IsQuiet(s, a, build) && Actor(a) in s.nodes && !(a.CreateGroup? && a.p != HOST)
    ensures After(s, a).asked == s.nodes[Actor(a)].asked
    ensures forall k :: k in After(s, a).pending ==> k in s.nodes[Actor(a)].pending
  {
    if a.Deliver? {
      var n, m := s.nodes[a.q], Wire(s, a.p, a.q)[0];
      if m.Granted? && m.ack in n.pending {
        GrantRequests(n, a.q, a.p, m);
      } else {
        HandleRequests(n, a.q, a.p, m);
      }
    }
  }

  /** A grant that is handled is for a request that is not waiting any more. */
  lemma OwnGrant(s: State, a: Step, build: Build, k: nat)
    requires Enabled(s, a) && IsQuiet(s, a, build) && a.Deliver? && k in After(s, a).pending
    ensures var m := Wire(s, a.p, a.q)[0]; !(m.Granted? && m.ack == k)
  {
    var n, m := s.nodes[a.q], Wire(s, a.p, a.q)[0];
    if m.Granted? && m.ack in n.pending {
      GrantRequests(n, a.q, a.p, m);
    } else {
      HandleRequests(n, a.q, a.p, m);
    }
  }

  lemma ElsewhereStep(s: State, a: Step, build: Build, t: State, p: PlayerId, k: nat)
    requires QuietTo(s, a, build, t) && Tracked(s, p, k) && p != Actor(a) && !(Source(s, a) == p && Actor(a) == HOST)
    ensures Tracked(t, p, k)
  {
    ChanStep(s, t, Actor(a), After(s, a), Source(s, a), HOST, p);
    TrackedKept(s, t, p, k);
  }

  lemma QuietTracked(s: State, a: Step, build: Build, t: State, p: PlayerId, k: nat)
    requires Base(s) && QuietTo(s, a, build, t) && Tracked(s, p, k)
    ensures Tracked(t, p, k)
  {
    if p == HOST || p !in s.nodes {
    } else if p == Actor(a) {
      OwnStep(s, a, build, t, k);
    } else if Source(s, a) == p && Actor(a) == HOST {
      if a.Deliver? {
        AskArrives(s, a, build, t, p, k);
      } else {
        Resumed(s, a, build, t, p, k);
      }
    } else {
      ElsewhereStep(s, a, build, t, p, k);
    }
  }

  /** A handler that goes on is one for a JOIN or JOINED. */
  lemma Resumed(s: State, a: Step, build: Build, t: State, p: PlayerId, k: nat)
    requires QuietTo(s, a, build, t) && Tracked(s, p, k) && a.Resume? && a.p == p && a.q == HOST && p != HOST
    ensures Tracked(t, p, k)
  {
    var c, c', w := Chan(s, HOST, p), Chan(t, HOST, p), Wire(s, p, HOST);
    ChanStep(s, t, HOST, After(s, a), Source(s, a), HOST, p);
    assert c <= c' && w == [w[0]] + w[1..] && Wire(t, p, HOST) == w[1..];
    if p in t.nodes && k in t.nodes[p].pending && HasGrant(c, k) {
      GrantMore(c, c', k);
    }
  }

  // ---------------------------------------------------------------- requests leave

  lemma TransmitWire(s: State, a: Step, build: Build)
    requires Enabled(s, a) && a.Transmit?
    ensures Next(s, a, build).wire == s.wire[(a.p, a.q) := Wire(s, a.p, a.q) + [Out(s.nodes[a.p], a.q)[0]]]
  {
  }

  /** The first message to the host leaves. */
  lemma RequestLeaves(s: State, t: State, p: PlayerId, k: nat)
    requires Tracked(s, p, k) && p in s.nodes && p != HOST && |Out(s.nodes[p], HOST)| > 0
    requires t.nodes == s.nodes[p := Sent(s.nodes[p], HOST)]
    requires t.wire == s.wire[(p, HOST) := Wire(s, p, HOST) + [Out(s.nodes[p], HOST)[0]]]
    requires Chan(t, HOST, p) == Chan(s, HOST, p)
    ensures Tracked(t, p, k)
  {
    var n, w := s.nodes[p], Wire(s, p, HOST);
    var o := Out(n, HOST);
    SentRequests(n, HOST);
    SentOut(n, HOST, HOST);
    assert o == [o[0]] + o[1..];
    assert Wire(t, p, HOST)[|w|] == o[0];
  }

  lemma TransmitTracked(s: State, a: Step, build: Build, p: PlayerId, k: nat)
    requires Tracked(s, p, k) && Enabled(s, a) && a.Transmit? && AsksOk(s, a.p, a.q)
    ensures Tracked(Next(s, a, build), p, k)
  {
    var t := Next(s, a, build);
    TransmitNodes(s, a, build);
    TransmitWire(s, a, build);
    TransmitChan(s, a, build, HOST, p);
    if p == HOST {
    } else if p == a.p && a.q == HOST {
      RequestLeaves(s, t, p, k);
    } else {
      if p == a.p {
        var m := Out(s.nodes[p], a.q)[0];
        assert m in Chan(s, p, a.q);
        SentElsewhere(s.nodes[p], a.q);
      }
      TrackedLike(s, t, p, k);
    }
  }

  /** A message to anybody but the host is no request. */
  lemma SentElsewhere(n: Node, q: PlayerId)
    requires |Out(n, q)| > 0 && q != HOST && !Out(n, q)[0].Allocate?
    ensures Out(Sent(n, q), HOST) == Out(n, HOST)
    ensures SameRequests(n, Sent(n, q))
  {
    SentRequests(n, q);
    SentOut(n, q, HOST);
  }

  lemma TrackedLike(s: State, t: State, p: PlayerId, k: nat)
    requires Tracked(s, p, k) && Chan(t, HOST, p) == Chan(s, HOST, p) && Wire(t, p, HOST) == Wire(s, p, HOST)
    requires t.nodes.Keys == s.nodes.Keys
    requires p in s.nodes && p != HOST ==>
               && Out(t.nodes[p], HOST) == Out(s.nodes[p], HOST)
               && (k in t.nodes[p].asked ==> k in s.nodes[p].asked)
               && (k in t.nodes[p].pending ==> k in s.nodes[p].pending)
    ensures Tracked(t, p, k)
  {
  }

  // ---------------------------------------------------------------- all other steps

  lemma PromoteTracked(s: State, a: Step, build: Build, p: PlayerId, k: nat)
    requires Tracked(s, p, k) && Enabled(s, a) && a.Promote?
    ensures Tracked(Next(s, a, build), p, k)
  {
    PromoteChan(s, a, build, HOST, p);
    TrackedKept(s, Next(s, a, build), p, k);
  }

  lemma LinkedTracked(s: State, a: Step, t: State, p: PlayerId, k: nat)
    requires Tracked(s, p, k) && LinkedTo(s, a, t)
    ensures Tracked(t, p, k)
  {
    TrackedKept(s, t, p, k);
  }

  lemma LetInTracked(s: State, a: Step, t: State, p: PlayerId, k: nat)
    requires Tracked(s, p, k) && LetInTo(s, a, t)
    ensures Tracked(t, p, k)
  {
    if p in s.nodes {
      TrackedKept(s, t, p, k);
    }
  }

  lemma GreetedTracked(s: State, a: Step, t: State, p: PlayerId, k: nat)
    requires Tracked(s, p, k) && GreetedTo(s, a, t)
    ensures Tracked(t, p, k)
  {
    var c := Chan(s, HOST, p);
    GreetingChan(s, a, t, HOST, p);
    if a.p == HOST && a.q == p {
      assert c[0] == Wire(s, HOST, p)[0];
      if p in t.nodes && k in t.nodes[p].pending && HasGrant(c, k) {
        GrantTail(c, k);
      }
    } else {
      TrackedKept(s, t, p, k);
    }
  }

  lemma SameTracked(s: State, t: State, p: PlayerId, k: nat)
    requires Tracked(s, p, k) && Same(s, t)
    ensures Tracked(t, p, k)
  {
    assert Chan(t, HOST, p) == Chan(s, HOST, p);
  }

  lemma OtherTracked(s: State, a: Step, build: Build, p: PlayerId, k: nat)
    requires Links(s) && Tracked(s, p, k) && Enabled(s, a) && !IsQuiet(s, a, build) && !a.Transmit?
    ensures Tracked(Next(s, a, build), p, k)
  {
    var t := Next(s, a, build);
    if a.LetIn? {
      LetInSteps(s, a, build);
      LetInTracked(s, a, t, p, k);
    } else if a.Link? {
      LinkSteps(s, a, build);
      LinkedTracked(s, a, t, p, k);
    } else if a.Deliver? {
      GreetingSteps(s, a, build);
      GreetedTracked(s, a, t, p, k);
    } else if a.Resume? {
      CrashSame(s, a, build);
      SameTracked(s, t, p, k);
    } else {
      PromoteTracked(s, a, build, p, k);
    }
  }

  lemma StepTracked(s: State, a: Step, build: Build, p: PlayerId, k: nat)
    requires Inv(s) && Tracked(s, p, k) && Enabled(s, a)
    ensures Tracked(Next(s, a, build), p, k)
  {
    if IsQuiet(s, a, build) {
      if a.Erase? { ErasingBuried(s, a); }
      QuietSteps(s, a, build);
      QuietTracked(s, a, build, Next(s, a, build), p, k);
    } else if a.Transmit? {
      assert AsksOk(s, a.p, a.q);
      TransmitTracked(s, a, build, p, k);
    } else {
      OtherTracked(s, a, build, p, k);
    }
  }

  // ---------------------------------------------------------------- the host has no requests

  ghost predicate HostAsksNone(s: State) {
    HOST in s.nodes && s.nodes[HOST].asked == map[] && s.nodes[HOST].pending == map[]
  }

  lemma HostQuiet(s: State, a: Step, build: Build, t: State)
    requires HostAsksNone(s) && QuietTo(s, a, build, t)
    ensures HostAsksNone(t)
  {
    if Actor(a) == HOST {
      OwnRequests(s, a, build);
    }
  }

  lemma HostTransmit(s: State, a: Step, build: Build)
    requires HostAsksNone(s) && Enabled(s, a) && a.Transmit?
    ensures HostAsksNone(Next(s, a, build))
  {
    TransmitNodes(s, a, build);
    SentRequests(s.nodes[a.p], a.q);
  }

  lemma HostStep(s: State, a: Step, build: Build)
    requires Inv(s) && HostAsksNone(s) && Enabled(s, a)
    ensures HostAsksNone(Next(s, a, build))
  {
    if IsQuiet(s, a, build) {
      if a.Erase? { ErasingBuried(s, a); }
      QuietSteps(s, a, build);
      HostQuiet(s, a, build, Next(s, a, build));
    } else if a.Transmit? {
      HostTransmit(s, a, build);
    } else {
      OtherUntouched(s, a, build);
    }
  }

  // ---------------------------------------------------------------- every run

  lemma {:induction false} RunTracked(s: State, steps: seq<Step>, build: Build, t: State)
    requires Inv(s) && HostAsksNone(s) && (forall p, k :: Tracked(s, p, k)) && Runs(s, steps, build, t)
    ensures HostAsksNone(t) && forall p, k :: Tracked(t, p, k)
    decreases |steps|
  {
    if steps != [] {
      var u := Next(s, steps[0], build);
      InvStep(s, steps[0], build);
      HostStep(s, steps[0], build);
      forall p, k ensures Tracked(u, p, k) {
        assert Tracked(s, p, k);
        StepTracked(s, steps[0], build, p, k);
      }
      RunTracked(u, steps[1..], build, t);
    }
  }

  lemma NoneWaiting(t: State, p: PlayerId, info: Info)
    requires HostAsksNone(t) && (forall q, k :: Tracked(t, q, k)) && Quiescent(t)
    ensures Waiting(t, p, info) == 0
  {
    if p in t.nodes {
      var n := t.nodes[p];
      forall k ensures k !in n.asked && k !in n.pending {
        assert Tracked(t, p, k);
        assert Chan(t, p, HOST) == [] && Chan(t, HOST, p) == [];
      }
      assert As(n.asked, info) == {} && As(n.pending, info) == {};
    }
  }

  /** When nothing is in flight, every call of CreateGroup() has made one group: for each player and each name and data
      there are as many groups, alive or destroyed since, as calls. */
  lemma EachCallMadeAGroup(t: State, steps: seq<Step>, build: Build, p: PlayerId, info: Info)
    requires Reachable(t, steps, build) && Quiescent(t)
    ensures |GroupsOf(t, p, info)| == Calls(steps, p, info)
  {
    EachCallOnce(t, steps, build, p, info);
    InvInitial();
    RunTracked(Initial(), steps, build, t);
    NoneWaiting(t, p, info);
  }
}
