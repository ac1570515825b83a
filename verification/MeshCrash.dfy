/** A run of the shipped program that ends in the null pointer: three players, and news of a member that overtakes the
    news of the group.
 */
module MeshCrash {
  import opened GroupProtocol
  import opened Mesh
  import opened MeshTheorems
  import opened MeshWitness

  type Wires = map<(PlayerId, PlayerId), seq<Message>>

  const HELLO := Welcome({}, {})
  const MEET := Welcome({}, {2})
  const NEWS := Create(4, NO_INFO)
  const JOINED := Joined(4, NO_INFO)

  function Host(groups: map<GroupId, Group>, conn: set<PlayerId>, out: map<PlayerId, seq<Message>>,
                held: map<PlayerId, Message>, next: nat): Node {
    Node(groups, {}, {}, conn, {}, out, held, next, 1, map[], map[])
  }

  function Player(groups: map<GroupId, Group>, conn: set<PlayerId>, todo: set<PlayerId>,
                  out: map<PlayerId, seq<Message>>): Node {
    Node(groups, {}, {}, conn, todo, out, map[], 0, 1, map[], map[])
  }

  function Before(nodes: map<PlayerId, Node>, wire: Wires): State {
    State(nodes, wire, {}, {}, map[], map[], map[], {})
  }

  function After(nodes: map<PlayerId, Node>, wire: Wires, busy: set<(PlayerId, PlayerId)>,
                 crashed: set<PlayerId>): State {
    State(nodes, wire, busy, crashed, map[4 := Origin(1, NO_INFO)], map[], map[4 := 1], {})
  }

  // ---------------------------------------------------------------- the second player

  function S1(): State {
    Before(map[1 := Host(map[], {2}, map[2 := []], map[2 := HELLO], 3), 2 := Joiner()], map[])
  }

  function S2(): State {
    Before(map[1 := Host(map[], {2}, map[2 := []], map[], 3), 2 := Joiner()], map[(1, 2) := [HELLO]])
  }

  function Two(): Node {
    Player(map[], {1}, {}, map[])
  }

  function S3(): State {
    Before(map[1 := Host(map[], {2}, map[2 := []], map[], 3), 2 := Two()], map[(1, 2) := []])
  }

  lemma Step1()
    ensures Leads(Initial(), LetIn([], []), Shipped, S1())
  {
    var n := Hosting();
    var t := Next(Initial(), LetIn([], []), Shipped);
    assert MemberOf(n, 1) == {} && n.conn - {2} == {};
    assert Out(n, 2) + Snapshot(n, [], []) == [];
    assert t.nodes[1].out == map[2 := []] && t.nodes[1].held == map[2 := HELLO];
    assert t.nodes[1].conn == {2};
    assert t.nodes[1] == S1().nodes[1];
    assert t.nodes == S1().nodes;
  }

  lemma Step2()
    ensures Leads(S1(), Promote(2), Shipped, S2())
  {
    var t := Next(S1(), Promote(2), Shipped);
    assert MemberOf(S1().nodes[1], 1) == {};
    assert t.nodes[1].held == map[];
    assert Wire(S1(), 1, 2) + [HELLO] == [HELLO];
    assert t.nodes == S2().nodes && t.wire == S2().wire;
    assert t.missed == {};
  }

  lemma Step3()
    ensures Leads(S2(), Deliver(1, 2), Shipped, S3())
  {
    var t := Next(S2(), Deliver(1, 2), Shipped);
    assert t.nodes[2].groups == map[];
    assert t.nodes[2] == Two();
    assert t.nodes == S3().nodes && t.wire == S3().wire;
    assert t.missed == {};
  }

  // ---------------------------------------------------------------- the third player

  function OneWith3(held: map<PlayerId, Message>): Node {
    Host(map[], {2, 3}, map[2 := [], 3 := []], held, 4)
  }

  function S4(): State {
    Before(map[1 := OneWith3(map[3 := MEET]), 2 := Two(), 3 := Joiner()], map[(1, 2) := []])
  }

  function S5(): State {
    Before(map[1 := OneWith3(map[]), 2 := Two(), 3 := Joiner()], map[(1, 2) := [], (1, 3) := [MEET]])
  }

  function S6(): State {
    Before(map[1 := OneWith3(map[]), 2 := Two(), 3 := Player(map[], {1}, {2}, map[])], map[(1, 2) := [], (1, 3) := []])
  }

  function S7(): State {
    Before(map[1 := OneWith3(map[]), 2 := Player(map[], {1, 3}, {}, map[3 := [HELLO]]),
               3 := Player(map[], {1}, {2}, map[])], map[(1, 2) := [], (1, 3) := []])
  }

  function S8(): State {
    Before(map[1 := OneWith3(map[]), 2 := Player(map[], {1, 3}, {}, map[3 := []]),
               3 := Player(map[], {1}, {2}, map[])], map[(1, 2) := [], (1, 3) := [], (2, 3) := [HELLO]])
  }

  function S9(): State {
    Before(map[1 := OneWith3(map[]), 2 := Player(map[], {1, 3}, {}, map[3 := []]),
               3 := Player(map[], {1, 2}, {}, map[])], map[(1, 2) := [], (1, 3) := [], (2, 3) := []])
  }

  lemma Step4()
    ensures Leads(S3(), LetIn([], []), Shipped, S4())
  {
    var n := S3().nodes[1];
    var t := Next(S3(), LetIn([], []), Shipped);
    assert MemberOf(n, 1) == {} && n.conn - {3} == {2};
    assert Out(n, 3) + Snapshot(n, [], []) == [];
    assert t.nodes[1] == S4().nodes[1];
    assert t.nodes == S4().nodes;
  }

  lemma Step5()
    ensures Leads(S4(), Promote(3), Shipped, S5())
  {
    var t := Next(S4(), Promote(3), Shipped);
    assert MemberOf(S4().nodes[1], 1) == {};
    assert t.nodes[1].held == map[];
    assert Wire(S4(), 1, 3) + [MEET] == [MEET];
    assert t.nodes == S5().nodes && t.wire == S5().wire;
    assert t.missed == {};
  }

  lemma Step6()
    ensures Leads(S5(), Deliver(1, 3), Shipped, S6())
  {
    var t := Next(S5(), Deliver(1, 3), Shipped);
    assert t.nodes[3].groups == map[];
    assert t.nodes[3].todo == {2};
    assert t.nodes[3] == S6().nodes[3];
    assert t.nodes == S6().nodes && t.wire == S6().wire;
    assert t.missed == {};
  }

  lemma Step7()
    ensures Leads(S6(), Link(2, 3, [], []), Shipped, S7())
  {
    var n := Two();
    var t := Next(S6(), Link(2, 3, [], []), Shipped);
    assert MemberOf(n, 2) == {};
    assert Out(n, 3) + Snapshot(n, [], []) + [HELLO] == [HELLO];
    assert t.nodes[2] == S7().nodes[2];
    assert t.nodes == S7().nodes;
    assert t.missed == {};
  }

  lemma Step8()
    ensures Leads(S7(), Transmit(2, 3), Shipped, S8())
  {
    var t := Next(S7(), Transmit(2, 3), Shipped);
    assert t.nodes[2].out == map[3 := []];
    assert Wire(S7(), 2, 3) + [HELLO] == [HELLO];
    assert t.nodes == S8().nodes && t.wire == S8().wire;
  }

  lemma Step9()
    ensures Leads(S8(), Deliver(2, 3), Shipped, S9())
  {
    var t := Next(S8(), Deliver(2, 3), Shipped);
    assert Wire(S8(), 2, 3) == [HELLO] && [HELLO][1..] == [];
    assert t.nodes[3].groups == map[];
    assert t.nodes[3].todo == {} && t.nodes[3].conn == {1, 2};
    assert t.nodes[3] == S9().nodes[3];
    assert t.nodes == S9().nodes;
    assert t.wire == S9().wire;
    assert t.missed == {};
  }

  // ---------------------------------------------------------------- the group

  const GROUP: map<GroupId, Group> := map[4 := Group(NO_INFO, {})]

  function OneCreated(to2: seq<Message>): Node {
    Host(GROUP, {2, 3}, map[2 := to2, 3 := [NEWS]], map[], 5)
  }

  function Three(groups: map<GroupId, Group>): Node {
    Player(groups, {1, 2}, {}, map[])
  }

  function S10(): State {
    After(map[1 := OneCreated([NEWS]), 2 := Player(map[], {1, 3}, {}, map[3 := []]), 3 := Three(map[])],
          map[(1, 2) := [], (1, 3) := [], (2, 3) := []], {}, {})
  }

  function S11(): State {
    After(map[1 := OneCreated([]), 2 := Player(map[], {1, 3}, {}, map[3 := []]), 3 := Three(map[])],
          map[(1, 2) := [NEWS], (1, 3) := [], (2, 3) := []], {}, {})
  }

  function S12(): State {
    After(map[1 := OneCreated([]), 2 := Player(GROUP, {1, 3}, {}, map[3 := []]), 3 := Three(map[])],
          map[(1, 2) := [], (1, 3) := [], (2, 3) := []], {}, {})
  }

  function TwoIn(to3: seq<Message>): Node {
    Player(map[4 := Group(NO_INFO, {2})], {1, 3}, {}, map[1 := [JOINED], 3 := to3])
  }

  function S13(): State {
    After(map[1 := OneCreated([]), 2 := TwoIn([JOINED]), 3 := Three(map[])],
          map[(1, 2) := [], (1, 3) := [], (2, 3) := []], {}, {})
  }

  function S14(): State {
    After(map[1 := OneCreated([]), 2 := TwoIn([]), 3 := Three(map[])],
          map[(1, 2) := [], (1, 3) := [], (2, 3) := [JOINED]], {}, {})
  }

  function S15(crashed: set<PlayerId>): State {
    After(map[1 := OneCreated([]), 2 := TwoIn([]), 3 := Three(GROUP)],
          map[(1, 2) := [], (1, 3) := [], (2, 3) := [JOINED]], {(2, 3)}, crashed)
  }

  lemma Step10()
    ensures Leads(S9(), CreateGroup(1, NO_INFO), Shipped, S10())
  {
    var t := Next(S9(), CreateGroup(1, NO_INFO), Shipped);
    assert Out(S9().nodes[1], 2) + [NEWS] == [NEWS] && Out(S9().nodes[1], 3) + [NEWS] == [NEWS];
    assert t.nodes[1].out == map[2 := [NEWS], 3 := [NEWS]];
    assert t.nodes == S10().nodes;
  }

  lemma Step11()
    ensures Leads(S10(), Transmit(1, 2), Shipped, S11())
  {
    var t := Next(S10(), Transmit(1, 2), Shipped);
    assert t.nodes[1].out == map[2 := [], 3 := [NEWS]];
    assert Wire(S10(), 1, 2) + [NEWS] == [NEWS];
    assert t.nodes == S11().nodes && t.wire == S11().wire;
  }

  lemma Step12()
    ensures Leads(S11(), Deliver(1, 2), Shipped, S12())
  {
    var t := Next(S11(), Deliver(1, 2), Shipped);
    assert t.nodes[2].groups == GROUP;
    assert t.nodes == S12().nodes && t.wire == S12().wire;
  }

  lemma Step13()
    ensures Leads(S12(), AddPlayer(2, 4, 2), Shipped, S13())
  {
    var n := S12().nodes[2];
    var t := Next(S12(), AddPlayer(2, 4, 2), Shipped);
    assert n.groups[4].members + {2} == {2};
    assert Out(n, 1) + [JOINED] == [JOINED] && Out(n, 3) + [JOINED] == [JOINED];
    assert t.nodes[2].out == map[1 := [JOINED], 3 := [JOINED]];
    assert t.nodes[2].groups == map[4 := Group(NO_INFO, {2})];
    assert t.nodes == S13().nodes;
  }

  lemma Step14()
    ensures Leads(S13(), Transmit(2, 3), Shipped, S14())
  {
    var t := Next(S13(), Transmit(2, 3), Shipped);
    assert t.nodes[2].out == map[1 := [JOINED], 3 := []];
    assert Wire(S13(), 2, 3) + [JOINED] == [JOINED];
    assert t.nodes == S14().nodes && t.wire == S14().wire;
  }

  lemma Step15()
    ensures Leads(S14(), Deliver(2, 3), Shipped, S15({}))
  {
    var t := Next(S14(), Deliver(2, 3), Shipped);
    assert t.nodes[3].groups == GROUP;
    assert t.nodes == S15({}).nodes;
  }

  lemma Step16()
    ensures Leads(S15({}), Resume(2, 3), Shipped, S15({3}))
  {
  }

  lemma RunToWaiting() returns (steps: seq<Step>)
    ensures Reachable(S8(), steps, Shipped)
  {
    Step1(); Step2(); Step3(); Step4(); Step5(); Step6(); Step7(); Step8();
    steps := Extend([], Shipped, Initial(), LetIn([], []), S1());
    steps := Extend(steps, Shipped, S1(), Promote(2), S2());
    steps := Extend(steps, Shipped, S2(), Deliver(1, 2), S3());
    steps := Extend(steps, Shipped, S3(), LetIn([], []), S4());
    steps := Extend(steps, Shipped, S4(), Promote(3), S5());
    steps := Extend(steps, Shipped, S5(), Deliver(1, 3), S6());
    steps := Extend(steps, Shipped, S6(), Link(2, 3, [], []), S7());
    steps := Extend(steps, Shipped, S7(), Transmit(2, 3), S8());
  }

  lemma RunToThree() returns (steps: seq<Step>)
    ensures Reachable(S9(), steps, Shipped)
  {
    steps := RunToWaiting();
    Step9();
    steps := Extend(steps, Shipped, S8(), Deliver(2, 3), S9());
  }

  /** Player 3 reads that player 2 has joined a group that it has not heard of yet, and crashes. */
  lemma ShippedCrashes() returns (t: State, steps: seq<Step>)
    ensures Reachable(t, steps, Shipped) && 3 in t.crashed
  {
    t := S15({3});
    steps := RunToThree();
    Step10(); Step11(); Step12(); Step13(); Step14(); Step15(); Step16();
    steps := Extend(steps, Shipped, S9(), CreateGroup(1, NO_INFO), S10());
    steps := Extend(steps, Shipped, S10(), Transmit(1, 2), S11());
    steps := Extend(steps, Shipped, S11(), Deliver(1, 2), S12());
    steps := Extend(steps, Shipped, S12(), AddPlayer(2, 4, 2), S13());
    steps := Extend(steps, Shipped, S13(), Transmit(2, 3), S14());
    steps := Extend(steps, Shipped, S14(), Deliver(2, 3), S15({}));
    steps := Extend(steps, Shipped, S15({}), Resume(2, 3), t);
  }
}
