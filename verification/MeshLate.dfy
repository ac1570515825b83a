/** A run to a lasting disagreement in which the host's greetings are all up to date: a player is put into a group after
    the host's greeting has arrived and before it has heard from another player that has let it in already.
 */
module MeshLate {
  import opened GroupProtocol
  import opened Mesh
  import opened MeshTheorems
  import opened MeshWitness
  import opened MeshCrash

  const ASK := Join(4, NO_INFO)

  function One(members: set<PlayerId>, to2: seq<Message>, to3: seq<Message>): Node {
    Host(map[4 := Group(NO_INFO, members)], {2, 3}, map[2 := to2, 3 := to3], map[], 5)
  }

  function Other(groups: map<GroupId, Group>): Node {
    Player(groups, {1, 3}, {}, map[3 := []])
  }

  /** Player 3, still waiting for the greeting of player 2, with what it knows of the group. */
  function Waiting(groups: map<GroupId, Group>, out: map<PlayerId, seq<Message>>): Node {
    Player(groups, {1}, {2}, out)
  }

  function Linked(to1: seq<Message>): Node {
    Player(IN, {1, 2}, {}, map[1 := to1])
  }

  const IN: map<GroupId, Group> := map[4 := Group(NO_INFO, {3})]

  function Late(one: Node, two: Node, three: Node, wire: Wires, missed: set<(PlayerId, PlayerId, GroupId)>): State {
    State(map[1 := one, 2 := two, 3 := three], wire, {}, {}, map[4 := Origin(1, NO_INFO)], map[], map[4 := 1], missed)
  }

  function Wired(w12: seq<Message>, w13: seq<Message>, w23: seq<Message>): Wires {
    map[(1, 2) := w12, (1, 3) := w13, (2, 3) := w23]
  }

  function L1(): State {
    Late(One({}, [NEWS], [NEWS]), Other(map[]), Waiting(map[], map[]), Wired([], [], [HELLO]), {})
  }

  function L2(): State {
    Late(One({}, [NEWS], [NEWS, ASK]), Other(map[]), Waiting(map[], map[]), Wired([], [], [HELLO]), {})
  }

  function L3(): State {
    Late(One({}, [NEWS], [ASK]), Other(map[]), Waiting(map[], map[]), Wired([], [NEWS], [HELLO]), {})
  }

  function L4(): State {
    Late(One({}, [NEWS], []), Other(map[]), Waiting(map[], map[]), Wired([], [NEWS, ASK], [HELLO]), {})
  }

  function L5(): State {
    Late(One({}, [NEWS], []), Other(map[]), Waiting(GROUP, map[]), Wired([], [ASK], [HELLO]), {})
  }

  function L6(): State {
    Late(One({}, [NEWS], []), Other(map[]), Waiting(IN, map[1 := [JOINED]]), Wired([], [], [HELLO]), {})
  }

  function L7(): State {
    Late(One({}, [NEWS], []), Other(map[]), Linked([JOINED]), Wired([], [], []), {(3, 2, 4)})
  }

  function L8(): State {
    Late(One({}, [NEWS], []), Other(map[]), Linked([]), Wired([], [], [])[(3, 1) := [JOINED]], {(3, 2, 4)})
  }

  function L9(): State {
    Late(One({3}, [NEWS], []), Other(map[]), Linked([]), Wired([], [], [])[(3, 1) := []], {(3, 2, 4)})
  }

  function L10(): State {
    Late(One({3}, [], []), Other(map[]), Linked([]), Wired([NEWS], [], [])[(3, 1) := []], {(3, 2, 4)})
  }

  function L11(): State {
    Late(One({3}, [], []), Other(GROUP), Linked([]), Wired([], [], [])[(3, 1) := []], {(3, 2, 4)})
  }

  lemma HostHasGroup()
    ensures CreateHere(OneWith3(map[]), 4, NO_INFO).(next := 5) == One({}, [NEWS], [NEWS])
  {
    var n, n' := OneWith3(map[]), CreateHere(OneWith3(map[]), 4, NO_INFO);
    assert Out(n, 2) + [NEWS] == [NEWS] && Out(n, 3) + [NEWS] == [NEWS];
    assert n'.out == map[2 := [NEWS], 3 := [NEWS]];
  }

  lemma HostCreatesGroup()
    ensures Leads(S8(), CreateGroup(1, NO_INFO), Shipped, L1())
  {
    var t := Next(S8(), CreateGroup(1, NO_INFO), Shipped);
    HostHasGroup();
    assert t.nodes[1] == One({}, [NEWS], [NEWS]);
    assert t.nodes == L1().nodes;
    assert t.created == L1().created && t.grants == L1().grants && t.missed == {};
  }

  lemma HostAsks()
    ensures Leads(L1(), AddPlayer(1, 4, 3), Shipped, L2())
  {
    var t := Next(L1(), AddPlayer(1, 4, 3), Shipped);
    assert Out(L1().nodes[1], 3) + [ASK] == [NEWS, ASK];
    assert t.nodes[1].out == map[2 := [NEWS], 3 := [NEWS, ASK]];
    assert t.nodes == L2().nodes;
  }

  lemma NewsLeaves()
    ensures Leads(L2(), Transmit(1, 3), Shipped, L3())
  {
    var t := Next(L2(), Transmit(1, 3), Shipped);
    assert [NEWS, ASK][1..] == [ASK];
    assert t.nodes[1].out == map[2 := [NEWS], 3 := [ASK]];
    assert t.nodes == L3().nodes;
    assert Wire(L2(), 1, 3) + [NEWS] == [NEWS];
    assert t.wire == L3().wire;
  }

  lemma AskLeaves()
    ensures Leads(L3(), Transmit(1, 3), Shipped, L4())
  {
    var t := Next(L3(), Transmit(1, 3), Shipped);
    assert t.nodes[1].out == map[2 := [NEWS], 3 := []];
    assert Wire(L3(), 1, 3) + [ASK] == [NEWS, ASK];
    assert t.nodes == L4().nodes && t.wire == L4().wire;
  }

  lemma NewsArrives()
    ensures Leads(L4(), Deliver(1, 3), Shipped, L5())
  {
    var t := Next(L4(), Deliver(1, 3), Shipped);
    assert [NEWS, ASK][1..] == [ASK];
    assert t.nodes[3].groups == GROUP;
    assert t.nodes == L5().nodes && t.wire == L5().wire;
  }

  /** Player 3 joins, and tells the one player that it is connected to. */
  lemma AskArrives()
    ensures Leads(L5(), Deliver(1, 3), Shipped, L6())
  {
    var t := Next(L5(), Deliver(1, 3), Shipped);
    assert [ASK][1..] == [];
    ThreeJoins();
    assert t.nodes[3] == Waiting(IN, map[1 := [JOINED]]);
    assert t.nodes == L6().nodes;
    assert t.wire == L6().wire;
  }

  lemma ThreeJoins()
    ensures Handle(Waiting(GROUP, map[]), 3, 1, ASK) == Waiting(IN, map[1 := [JOINED]])
  {
    var n := Waiting(GROUP, map[]);
    var n' := Handle(n, 3, 1, ASK);
    assert n.groups[4].members + {3} == {3} && Out(n, 1) + [JOINED] == [JOINED];
    assert n'.out == map[1 := [JOINED]];
    assert n'.groups == IN;
  }

  /** The greeting of player 2 arrives; from now on player 3 would tell it. */
  lemma GreetingComesLate()
    ensures Leads(L6(), Deliver(2, 3), Shipped, L7())
  {
    var n := L6().nodes[3];
    var t := Next(L6(), Deliver(2, 3), Shipped);
    assert [HELLO][1..] == [];
    ThreeLinked();
    assert t.nodes[3] == Linked([JOINED]);
    assert t.nodes == L7().nodes;
    assert t.wire == L7().wire;
    assert (set g | g in n.groups && 3 in n.groups[g].members) == {4};
    assert t.missed == {(3, 2, 4)};
  }

  lemma ThreeLinked()
    ensures Handle(Waiting(IN, map[1 := [JOINED]]), 3, 2, HELLO) == Linked([JOINED])
  {
    var n' := Handle(Waiting(IN, map[1 := [JOINED]]), 3, 2, HELLO);
    assert n'.groups == IN;
    assert n'.todo == {} && n'.conn == {1, 2};
  }

  lemma JoinedLeaves()
    ensures Leads(L7(), Transmit(3, 1), Shipped, L8())
  {
    var t := Next(L7(), Transmit(3, 1), Shipped);
    assert t.nodes[3].out == map[1 := []];
    assert Wire(L7(), 3, 1) + [JOINED] == [JOINED];
    assert t.nodes == L8().nodes && t.wire == L8().wire;
  }

  lemma JoinedArrives()
    ensures Leads(L8(), Deliver(3, 1), Shipped, L9())
  {
    var n := L8().nodes[1];
    var t := Next(L8(), Deliver(3, 1), Shipped);
    assert [JOINED][1..] == [];
    assert n.groups[4].members + {3} == {3};
    assert t.nodes[1].groups == map[4 := Group(NO_INFO, {3})];
    assert t.nodes == L9().nodes && t.wire == L9().wire;
    assert t.missed == {(3, 2, 4)};
  }

  lemma LastLeaves()
    ensures Leads(L9(), Transmit(1, 2), Shipped, L10())
  {
    var t := Next(L9(), Transmit(1, 2), Shipped);
    assert t.nodes[1].out == map[2 := [], 3 := []];
    assert t.nodes == L10().nodes;
    assert Wire(L9(), 1, 2) + [NEWS] == [NEWS];
    assert t.wire == L10().wire;
  }

  lemma LastArrives()
    ensures Leads(L10(), Deliver(1, 2), Shipped, L11())
  {
    var t := Next(L10(), Deliver(1, 2), Shipped);
    assert [NEWS][1..] == [];
    assert t.nodes[2].groups == GROUP;
    assert t.nodes == L11().nodes && t.wire == L11().wire;
    assert t.missed == {(3, 2, 4)};
  }

  lemma NothingLeft(p: PlayerId, q: PlayerId)
    ensures Wire(L11(), p, q) == []
    ensures p in L11().nodes ==> Out(L11().nodes[p], q) == []
  {
    assert p in L11().nodes ==> p == 1 || p == 2 || p == 3;
  }

  lemma LateQuiescent()
    ensures Quiescent(L11())
  {
    forall p, q ensures Chan(L11(), p, q) == [] {
      NothingLeft(p, q);
    }
  }

  lemma LateDisagrees()
    ensures var t := L11();
            && 2 in t.nodes && 3 in t.nodes && 4 in t.created && 4 !in t.destroyed
            && 3 in Members(t.nodes[3], 4) && 3 in Members(t.nodes[1], 4) && 3 !in Members(t.nodes[2], 4)
  {
  }

  lemma RunToJoined() returns (steps: seq<Step>)
    ensures Reachable(L6(), steps, Shipped)
  {
    steps := RunToWaiting();
    HostCreatesGroup(); HostAsks(); NewsLeaves(); AskLeaves(); NewsArrives(); AskArrives();
    steps := Extend(steps, Shipped, S8(), CreateGroup(1, NO_INFO), L1());
    steps := Extend(steps, Shipped, L1(), AddPlayer(1, 4, 3), L2());
    steps := Extend(steps, Shipped, L2(), Transmit(1, 3), L3());
    steps := Extend(steps, Shipped, L3(), Transmit(1, 3), L4());
    steps := Extend(steps, Shipped, L4(), Deliver(1, 3), L5());
    steps := Extend(steps, Shipped, L5(), Deliver(1, 3), L6());
  }

  /** A run, of both programs, at whose end nothing is in flight and player 2 does not list player 3 in the group that
      player 3 and the host list it in. */
  lemma DisagreementAfterLink() returns (t: State, steps: seq<Step>)
    ensures Reachable(t, steps, Shipped) && Reachable(t, steps, Documented) && Quiescent(t)
    ensures 2 in t.nodes && 3 in t.nodes && 4 in t.created && 4 !in t.destroyed
    ensures 3 in Members(t.nodes[3], 4) && 3 !in Members(t.nodes[2], 4)
  {
    t := L11();
    steps := RunToJoined();
    GreetingComesLate(); JoinedLeaves(); JoinedArrives(); LastLeaves(); LastArrives();
    steps := Extend(steps, Shipped, L6(), Deliver(2, 3), L7());
    steps := Extend(steps, Shipped, L7(), Transmit(3, 1), L8());
    steps := Extend(steps, Shipped, L8(), Deliver(3, 1), L9());
    steps := Extend(steps, Shipped, L9(), Transmit(1, 2), L10());
    steps := Extend(steps, Shipped, L10(), Deliver(1, 2), t);
    LateQuiescent();
    LateDisagrees();
    CrashExactly(Initial(), steps, t);
  }
}
