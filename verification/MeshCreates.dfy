/** What becomes of each CreateGroup(): on the host a group at once; on any other player a request that is queued, then
    waits for its grant, and then makes one group with the name and data of the call.
 */
module MeshCreates {
  import opened GroupProtocol
  import opened Mesh
  import opened MeshLinks
  import opened MeshSteps
  import opened MeshIds
  import opened MeshSound
  import opened MeshTheorems

  // ---------------------------------------------------------------- requests

  /** The entries with this name and data. */
  function As(m: map<nat, Info>, info: Info): set<nat> {
    set a | a in m && m[a] == info
  }

  lemma AsWith(m: map<nat, Info>, a: nat, i: Info, info: Info)
    requires a !in m
    ensures |As(m[a := i], info)| == |As(m, info)| + if i == info then 1 else 0
  {
    if i == info {
      assert As(m[a := i], info) == As(m, info) + {a};
    } else {
      assert As(m[a := i], info) == As(m, info);
    }
  }

  lemma AsWithout(m: map<nat, Info>, a: nat, info: Info)
    requires a in m
    ensures |As(m - {a}, info)| == |As(m, info)| - if m[a] == info then 1 else 0
  {
    if m[a] == info {
      assert As(m, info) == As(m - {a}, info) + {a};
    } else {
      assert As(m - {a}, info) == As(m, info);
    }
  }

  function GroupsOf(s: State, p: PlayerId, info: Info): set<GroupId> {
    set g | g in s.created && s.created[g] == Origin(p, info)
  }

  /** The requests of a player with this name and data that have not been granted. */
  function Waiting(s: State, p: PlayerId, info: Info): nat {
    if p in s.nodes then |As(s.nodes[p].asked, info)| + |As(s.nodes[p].pending, info)| else 0
  }

  /** The groups made for p with this name and data, and those that it is waiting for. */
  function Made(s: State, p: PlayerId, info: Info): nat {
    |GroupsOf(s, p, info)| + Waiting(s, p, info)
  }

  /** How often a run calls CreateGroup() on p with this name and data. */
  function Calls(steps: seq<Step>, p: PlayerId, info: Info): nat {
    if steps == [] then 0
    else (if steps[0] == CreateGroup(p, info) then 1 else 0) + Calls(steps[1..], p, info)
  }

  /** Acknowledgement identifiers are used once. */
  ghost predicate Numbered(n: Node) {
    && (forall a :: a in n.asked ==> a < n.nextAck)
    && (forall a :: a in n.pending ==> a < n.nextAck)
    && n.asked.Keys !! n.pending.Keys
  }

  ghost predicate AllNumbered(s: State) {
    forall p :: p in s.nodes ==> Numbered(s.nodes[p])
  }

  // ---------------------------------------------------------------- what steps do to requests

  /** Nothing about requests changes. */
  ghost predicate SameRequests(n: Node, n': Node) {
    n'.asked == n.asked && n'.pending == n.pending && n'.nextAck == n.nextAck
  }

  lemma HandleRequests(n: Node, self: PlayerId, from: PlayerId, m: Message)
    requires !(m.Granted? && m.ack in n.pending)
    ensures SameRequests(n, Handle(n, self, from, m))
  {
  }

  lemma GrantRequests(n: Node, self: PlayerId, from: PlayerId, m: Message)
    requires m.Granted? && m.ack in n.pending
    ensures var n' := Handle(n, self, from, m);
            n'.asked == n.asked && n'.nextAck == n.nextAck && n'.pending == n.pending - {m.ack}
  {
  }

  /** The peer whose requests a step may change, in its new state. */
  lemma QuietRequests(s: State, a: Step, build: Build)
    requires Enabled(s, a) && IsQuiet(s, a, build) && Actor(a) in s.nodes
    requires !(a.CreateGroup? && a.p != HOST)
    requires !(a.Deliver? && Wire(s, a.p, a.q)[0].Granted? && Wire(s, a.p, a.q)[0].ack in s.nodes[a.q].pending)
    ensures SameRequests(s.nodes[Actor(a)], After(s, a))
  {
    if a.Deliver? {
      HandleRequests(s.nodes[a.q], a.q, a.p, Wire(s, a.p, a.q)[0]);
    }
  }

  /** No player's requests change; a player that is new has none. */
  ghost predicate Untouched(s: State, t: State) {
    && t.created == s.created
    && (forall p :: p in s.nodes ==> p in t.nodes && SameRequests(s.nodes[p], t.nodes[p]))
    && (forall p :: p in t.nodes && p !in s.nodes ==> t.nodes[p].asked == map[] && t.nodes[p].pending == map[])
  }

  lemma UntouchedMade(s: State, t: State, p: PlayerId, info: Info)
    requires Untouched(s, t)
    ensures Made(t, p, info) == Made(s, p, info)
  {
    assert GroupsOf(t, p, info) == GroupsOf(s, p, info);
    assert As(map[], info) == {};
  }

  lemma UntouchedNumbered(s: State, t: State)
    requires Untouched(s, t) && AllNumbered(s)
    ensures AllNumbered(t)
  {
    forall p | p in t.nodes ensures Numbered(t.nodes[p]) {
      assert p in s.nodes ==> Numbered(s.nodes[p]);
    }
  }

  /** Made and numbered, after a step that is worth `call`. */
  ghost predicate Counted(s: State, t: State, p: PlayerId, info: Info, call: nat) {
    AllNumbered(t) && Made(t, p, info) == Made(s, p, info) + call
  }

  // ---------------------------------------------------------------- the host creates a group

  lemma GroupAdded(s: State, t: State, g: GroupId, o: Origin, p: PlayerId, info: Info)
    requires g !in s.created && t.created == s.created + map[g := o]
    ensures |GroupsOf(t, p, info)| == |GroupsOf(s, p, info)| + if o == Origin(p, info) then 1 else 0
  {
    if o == Origin(p, info) {
      assert GroupsOf(t, p, info) == GroupsOf(s, p, info) + {g};
    } else {
      assert GroupsOf(t, p, info) == GroupsOf(s, p, info);
    }
  }

  /** One player's requests as they were, all others untouched. */
  lemma WaitingSame(s: State, t: State, q: PlayerId, p: PlayerId, info: Info)
    requires q in s.nodes && q in t.nodes && t.nodes == s.nodes[q := t.nodes[q]]
    requires p == q ==> SameRequests(s.nodes[q], t.nodes[q])
    ensures Waiting(t, p, info) == Waiting(s, p, info)
  {
  }

  lemma NumberedAfter(s: State, t: State, q: PlayerId)
    requires AllNumbered(s) && q in s.nodes && q in t.nodes && t.nodes == s.nodes[q := t.nodes[q]]
    requires Numbered(t.nodes[q])
    ensures AllNumbered(t)
  {
    forall p | p in t.nodes ensures Numbered(t.nodes[p]) {
      assert p in s.nodes && (p != q ==> Numbered(s.nodes[p]));
    }
  }

  lemma HostCalls(s: State, a: Step, build: Build, t: State, p: PlayerId, info: Info)
    requires AllNumbered(s) && QuietTo(s, a, build, t) && a.CreateGroup? && a.p == HOST
    requires s.nodes[HOST].next !in s.created
    ensures Counted(s, t, p, info, if a == CreateGroup(p, info) then 1 else 0)
  {
    assert Numbered(s.nodes[HOST]);
    assert SameRequests(s.nodes[HOST], After(s, a));
    NumberedAfter(s, t, HOST);
    WaitingSame(s, t, HOST, p, info);
    GroupAdded(s, t, s.nodes[HOST].next, Origin(HOST, a.info), p, info);
  }

  // ---------------------------------------------------------------- another player asks

  lemma AskCounts(n: Node, asked: Info, info: Info)
    requires Numbered(n)
    ensures var n' := AskHost(n, asked);
            && Numbered(n') && n'.pending == n.pending
            && |As(n'.asked, info)| == |As(n.asked, info)| + if asked == info then 1 else 0
  {
    AsWith(n.asked, n.nextAck, asked, info);
  }

  lemma PlayerCalls(s: State, a: Step, build: Build, t: State, p: PlayerId, info: Info)
    requires AllNumbered(s) && QuietTo(s, a, build, t) && a.CreateGroup? && a.p != HOST
    ensures Counted(s, t, p, info, if a == CreateGroup(p, info) then 1 else 0)
  {
    var n := s.nodes[a.p];
    assert Numbered(n) && After(s, a) == AskHost(n, a.info);
    AskCounts(n, a.info, info);
    NumberedAfter(s, t, a.p);
    assert s.created + map[] == s.created;
    assert GroupsOf(t, p, info) == GroupsOf(s, p, info);
    if p != a.p {
      WaitingSame(s, t, a.p, p, info);
    }
  }

  // ---------------------------------------------------------------- a grant arrives

  lemma GrantCounts(n: Node, self: PlayerId, from: PlayerId, m: Message, info: Info)
    requires Numbered(n) && m.Granted? && m.ack in n.pending
    ensures var n' := Handle(n, self, from, m);
            && Numbered(n') && n'.asked == n.asked
            && |As(n'.pending, info)| == |As(n.pending, info)| - if n.pending[m.ack] == info then 1 else 0
  {
    GrantRequests(n, self, from, m);
    AsWithout(n.pending, m.ack, info);
  }

  lemma GrantMakes(s: State, a: Step, build: Build, t: State, p: PlayerId, info: Info)
    requires AllNumbered(s) && QuietTo(s, a, build, t) && a.Deliver?
    requires var m := Wire(s, a.p, a.q)[0]; m.Granted? && m.ack in s.nodes[a.q].pending && m.g !in s.created
    ensures Counted(s, t, p, info, 0)
  {
    var n, m := s.nodes[a.q], Wire(s, a.p, a.q)[0];
    assert Numbered(n) && After(s, a) == Handle(n, a.q, a.p, m);
    GrantCounts(n, a.q, a.p, m, info);
    NumberedAfter(s, t, a.q);
    GroupAdded(s, t, m.g, Origin(a.q, n.pending[m.ack]), p, info);
    if p != a.q {
      WaitingSame(s, t, a.q, p, info);
    }
  }

  // ---------------------------------------------------------------- a request leaves

  lemma SentRequests(n: Node, q: PlayerId)
    requires |Out(n, q)| > 0
    ensures var n', m := Sent(n, q), Out(n, q)[0];
            && n'.nextAck == n.nextAck
            && if m.Allocate? && m.ack in n.asked then
                 n'.asked == n.asked - {m.ack} && n'.pending == n.pending[m.ack := n.asked[m.ack]]
               else n'.asked == n.asked && n'.pending == n.pending
  {
  }

  lemma SentCounts(n: Node, q: PlayerId, info: Info)
    requires Numbered(n) && |Out(n, q)| > 0
    ensures var n' := Sent(n, q);
            && Numbered(n')
            && |As(n'.asked, info)| + |As(n'.pending, info)| == |As(n.asked, info)| + |As(n.pending, info)|
  {
    var m := Out(n, q)[0];
    SentRequests(n, q);
    if m.Allocate? && m.ack in n.asked {
      AsWithout(n.asked, m.ack, info);
      AsWith(n.pending, m.ack, n.asked[m.ack], info);
    }
  }

  lemma TransmitNodes(s: State, a: Step, build: Build)
    requires Enabled(s, a) && a.Transmit?
    ensures var t := Next(s, a, build); t.nodes == s.nodes[a.p := Sent(s.nodes[a.p], a.q)] && t.created == s.created
  {
  }

  lemma TransmitCounts(s: State, a: Step, build: Build, p: PlayerId, info: Info)
    requires AllNumbered(s) && Enabled(s, a) && a.Transmit?
    ensures Counted(s, Next(s, a, build), p, info, 0)
  {
    var t := Next(s, a, build);
    TransmitNodes(s, a, build);
    assert Numbered(s.nodes[a.p]);
    SentCounts(s.nodes[a.p], a.q, info);
    NumberedAfter(s, t, a.p);
    assert GroupsOf(t, p, info) == GroupsOf(s, p, info);
    if p != a.p {
      WaitingSame(s, t, a.p, p, info);
    }
  }

  // ---------------------------------------------------------------- all other steps

  lemma PromoteUntouched(s: State, a: Step, build: Build)
    requires Enabled(s, a) && a.Promote?
    ensures Untouched(s, Next(s, a, build))
  {
  }

  lemma GreetedUntouched(s: State, a: Step, t: State)
    requires GreetedTo(s, a, t)
    ensures Untouched(s, t)
  {
  }

  lemma LinkedUntouched(s: State, a: Step, t: State)
    requires LinkedTo(s, a, t)
    ensures Untouched(s, t)
  {
  }

  lemma LetInUntouched(s: State, a: Step, t: State)
    requires LetInTo(s, a, t)
    ensures Untouched(s, t)
  {
  }

  lemma QuietUntouched(s: State, a: Step, build: Build, t: State)
    requires QuietTo(s, a, build, t) && !a.CreateGroup?
    requires !(a.Deliver? && Wire(s, a.p, a.q)[0].Granted? && Wire(s, a.p, a.q)[0].ack in s.nodes[a.q].pending)
    ensures Untouched(s, t)
  {
    QuietRequests(s, a, build);
    assert s.created + map[] == s.created;
  }

  lemma OtherUntouched(s: State, a: Step, build: Build)
    requires Links(s) && Enabled(s, a) && !IsQuiet(s, a, build) && !a.Transmit?
    ensures Untouched(s, Next(s, a, build))
  {
    var t := Next(s, a, build);
    if a.LetIn? {
      LetInSteps(s, a, build);
      LetInUntouched(s, a, t);
    } else if a.Link? {
      LinkSteps(s, a, build);
      LinkedUntouched(s, a, t);
    } else if a.Deliver? {
      GreetingSteps(s, a, build);
      GreetedUntouched(s, a, t);
    } else if a.Resume? {
      CrashSame(s, a, build);
    } else {
      PromoteUntouched(s, a, build);
    }
  }

  lemma QuietCounted(s: State, a: Step, build: Build, t: State, p: PlayerId, info: Info)
    requires Links(s) && Ids(s) && AllNumbered(s) && QuietTo(s, a, build, t)
    ensures Counted(s, t, p, info, if a == CreateGroup(p, info) then 1 else 0)
  {
    FreshGroup(s, a, build);
    if a.CreateGroup? {
      if a.p == HOST {
        assert s.nodes[HOST].next in NewGroup(s, a);
        HostCalls(s, a, build, t, p, info);
      } else {
        PlayerCalls(s, a, build, t, p, info);
      }
    } else if a.Deliver? && Wire(s, a.p, a.q)[0].Granted? && Wire(s, a.p, a.q)[0].ack in s.nodes[a.q].pending {
      assert Wire(s, a.p, a.q)[0].g in NewGroup(s, a);
      GrantMakes(s, a, build, t, p, info);
    } else {
      QuietUntouched(s, a, build, t);
      UntouchedMade(s, t, p, info);
      UntouchedNumbered(s, t);
    }
  }

  lemma StepCounted(s: State, a: Step, build: Build, p: PlayerId, info: Info)
    requires Inv(s) && AllNumbered(s) && Enabled(s, a)
    ensures Counted(s, Next(s, a, build), p, info, if a == CreateGroup(p, info) then 1 else 0)
  {
    var t := Next(s, a, build);
    if IsQuiet(s, a, build) {
      if a.Erase? { ErasingBuried(s, a); }
      QuietSteps(s, a, build);
      QuietCounted(s, a, build, t, p, info);
    } else if a.Transmit? {
      TransmitCounts(s, a, build, p, info);
    } else {
      OtherUntouched(s, a, build);
      UntouchedMade(s, t, p, info);
      UntouchedNumbered(s, t);
    }
  }

  // ---------------------------------------------------------------- every run

  lemma {:induction false} RunCounted(s: State, steps: seq<Step>, build: Build, t: State, p: PlayerId, info: Info)
    requires Inv(s) && AllNumbered(s) && Runs(s, steps, build, t)
    ensures AllNumbered(t) && Made(t, p, info) == Made(s, p, info) + Calls(steps, p, info)
    decreases |steps|
  {
    if steps != [] {
      InvStep(s, steps[0], build);
      StepCounted(s, steps[0], build, p, info);
      RunCounted(Next(s, steps[0], build), steps[1..], build, t, p, info);
    }
  }

  /** In every run, for each player and each name and data: the groups made and the requests that are still waiting are
      together as many as the calls of CreateGroup(). */
  lemma EachCallOnce(t: State, steps: seq<Step>, build: Build, p: PlayerId, info: Info)
    requires Reachable(t, steps, build)
    ensures |GroupsOf(t, p, info)| + Waiting(t, p, info) == Calls(steps, p, info)
  {
    InvInitial();
    assert GroupsOf(Initial(), p, info) == {};
    assert As(map[], info) == {};
    RunCounted(Initial(), steps, build, t, p, info);
  }

  lemma {:induction false} CalledOnce(steps: seq<Step>, p: PlayerId, info: Info)
    ensures Calls(steps, p, info) > 0 <==> CreateGroup(p, info) in steps
  {
    if steps != [] {
      CalledOnce(steps[1..], p, info);
      assert steps == [steps[0]] + steps[1..];
    }
  }

  /** In every run each group has the name and data that its creator called CreateGroup() with. */
  lemma CreatedAsCalled(t: State, steps: seq<Step>, build: Build, g: GroupId)
    requires Reachable(t, steps, build) && g in t.created
    ensures CreateGroup(t.created[g].creator, t.created[g].info) in steps
  {
    var o := t.created[g];
    EachCallOnce(t, steps, build, o.creator, o.info);
    assert g in GroupsOf(t, o.creator, o.info);
    CalledOnce(steps, o.creator, o.info);
  }
}
