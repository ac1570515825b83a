/** Concrete runs that show what the theorems of MeshTheorems leave open does happen.
 */
module MeshWitness {
  import opened GroupProtocol
  import opened Mesh
  import opened MeshTheorems

  lemma {:induction false} RunsFurther(s: State, steps: seq<Step>, build: Build, t: State, a: Step)
    requires Runs(s, steps, build, t) && Enabled(t, a)
    ensures Runs(s, steps + [a], build, Next(t, a, build))
    decreases |steps|
  {
    if steps == [] {
      assert (steps + [a])[1..] == [];
    } else {
      assert (steps + [a])[1..] == steps[1..] + [a];
      RunsFurther(Next(s, steps[0], build), steps[1..], build, t, a);
    }
  }

  ghost predicate Leads(s: State, a: Step, build: Build, t: State) {
    Enabled(s, a) && Next(s, a, build) == t
  }

  lemma Extend(steps: seq<Step>, build: Build, s: State, a: Step, t: State) returns (more: seq<Step>)
    requires Reachable(s, steps, build) && Leads(s, a, build, t)
    ensures Reachable(t, more, build)
  {
    more := steps + [a];
    RunsFurther(Initial(), steps, build, s, a);
  }

  const NO_INFO := Info([], [])

  // ---------------------------------------------------------------- a greeting that is out of date

  /** Group 2 belongs to the host, player 1; player 3 joins. `mine` is whether the host is in the group. */
  function Session(mine: set<PlayerId>, out: seq<Message>, held: map<PlayerId, Message>, wire: seq<Message>,
                   young: Node, missed: set<(PlayerId, PlayerId, GroupId)>): State {
    State(map[1 := Node(map[2 := Group(NO_INFO, mine)], {}, {}, {3}, {}, map[3 := out], held, 4, 1, map[], map[]),
              3 := young],
          if wire == [] && held != map[] then map[] else map[(1, 3) := wire], {}, {},
          map[2 := Origin(1, NO_INFO)], map[], map[2 := 1], missed)
  }

  function Alone(mine: set<PlayerId>): State {
    State(map[1 := Node(map[2 := Group(NO_INFO, mine)], {}, {}, {}, {}, map[], map[], 3, 1, map[], map[])],
          map[], {}, {}, map[2 := Origin(1, NO_INFO)], map[], map[2 := 1], {})
  }

  const GREETING := Welcome({2}, {})

  lemma HostCreates()
    ensures Leads(Initial(), CreateGroup(1, NO_INFO), Documented, Alone({}))
  {
    var t := Next(Initial(), CreateGroup(1, NO_INFO), Documented);
    assert t.nodes[1].out == map[];
    assert t.nodes == Alone({}).nodes;
  }

  lemma HostJoins()
    ensures Leads(Alone({}), AddPlayer(1, 2, 1), Documented, Alone({1}))
  {
    var t := Next(Alone({}), AddPlayer(1, 2, 1), Documented);
    var none: set<PlayerId> := {};
    assert none + {1} == {1};
    assert t.nodes[1].out == map[];
    assert t.nodes[1].groups == Alone({1}).nodes[1].groups;
    assert t.nodes == Alone({1}).nodes;
  }

  lemma HostLetsIn()
    ensures Leads(Alone({1}), LetIn([], [2]), Documented,
                  Session({1}, [Create(2, NO_INFO)], map[3 := GREETING], [], Joiner(), {}))
  {
    var n := Alone({1}).nodes[1];
    var t := Next(Alone({1}), LetIn([], [2]), Documented);
    assert MemberOf(n, 1) == {2} && n.conn - {3} == {};
    assert Snapshot(n, [], [2]) == [Create(2, NO_INFO)];
    assert Out(n, 3) + Snapshot(n, [], [2]) == [Create(2, NO_INFO)];
    assert t.nodes[1].out == map[3 := [Create(2, NO_INFO)]];
    assert t.nodes[1].held == map[3 := GREETING];
    assert t.nodes[1].conn == {3};
    assert t.nodes == Session({1}, [Create(2, NO_INFO)], map[3 := GREETING], [], Joiner(), {}).nodes;
    assert t.missed == {};
  }

  lemma HostLeaves()
    ensures Leads(Session({1}, [Create(2, NO_INFO)], map[3 := GREETING], [], Joiner(), {}),
                  RemovePlayer(1, 2, 1), Documented,
                  Session({}, [Create(2, NO_INFO), Left(2)], map[3 := GREETING], [], Joiner(), {}))
  {
    var s := Session({1}, [Create(2, NO_INFO)], map[3 := GREETING], [], Joiner(), {});
    var t := Next(s, RemovePlayer(1, 2, 1), Documented);
    var me: set<PlayerId> := {1};
    assert me - {1} == {};
    assert Out(s.nodes[1], 3) + [Left(2)] == [Create(2, NO_INFO), Left(2)];
    assert t.nodes[1].out == map[3 := [Create(2, NO_INFO), Left(2)]];
    assert t.nodes[1].groups == map[2 := Group(NO_INFO, {})];
    assert t.nodes == Session({}, [Create(2, NO_INFO), Left(2)], map[3 := GREETING], [], Joiner(), {}).nodes;
  }

  lemma QueueDrains(m: Message, rest: seq<Message>, wire: seq<Message>)
    requires !m.Allocate?
    ensures Leads(Session({}, [m] + rest, map[3 := GREETING], wire, Joiner(), {}), Transmit(1, 3), Documented,
                  Session({}, rest, map[3 := GREETING], wire + [m], Joiner(), {}))
  {
    var s := Session({}, [m] + rest, map[3 := GREETING], wire, Joiner(), {});
    var t := Next(s, Transmit(1, 3), Documented);
    assert t.nodes[1].out == map[3 := rest];
    assert t.wire == map[(1, 3) := wire + [m]];
  }

  lemma GreetingLeaves(wire: seq<Message>)
    ensures Leads(Session({}, [], map[3 := GREETING], wire, Joiner(), {}), Promote(3), Documented,
                  Session({}, [], map[], wire + [GREETING], Joiner(), {(1, 3, 2)}))
  {
    var s := Session({}, [], map[3 := GREETING], wire, Joiner(), {});
    var t := Next(s, Promote(3), Documented);
    assert MemberOf(s.nodes[1], 1) == {};
    assert t.nodes[1].held == map[];
    assert t.wire == map[(1, 3) := wire + [GREETING]];
    assert t.missed == {(1, 3, 2)};
  }

  /** The new player once it has heard of the group: not connected to the host, then connected. */
  function Young(greeted: bool): Node {
    Node(map[2 := Group(NO_INFO, if greeted then {1} else {})], {}, {}, if greeted then {1} else {},
         if greeted then {} else {1}, map[], map[], 0, 1, map[], map[])
  }

  lemma CreateArrives()
    ensures Leads(Session({}, [], map[], [Create(2, NO_INFO), Left(2), GREETING], Joiner(), {(1, 3, 2)}),
                  Deliver(1, 3), Documented,
                  Session({}, [], map[], [Left(2), GREETING], Young(false), {(1, 3, 2)}))
  {
    var s := Session({}, [], map[], [Create(2, NO_INFO), Left(2), GREETING], Joiner(), {(1, 3, 2)});
    var t := Next(s, Deliver(1, 3), Documented);
    assert Wire(s, 1, 3)[1..] == [Left(2), GREETING];
    assert t.nodes[3] == Young(false);
    assert t.wire == map[(1, 3) := [Left(2), GREETING]];
  }

  /** The player is still waiting for the greeting and drops the LEFT as unexpected. */
  lemma LeftIsDropped()
    ensures Leads(Session({}, [], map[], [Left(2), GREETING], Young(false), {(1, 3, 2)}), Deliver(1, 3), Documented,
                  Session({}, [], map[], [GREETING], Young(false), {(1, 3, 2)}))
  {
    var s := Session({}, [], map[], [Left(2), GREETING], Young(false), {(1, 3, 2)});
    var t := Next(s, Deliver(1, 3), Documented);
    assert t.wire == map[(1, 3) := [GREETING]];
  }

  lemma GreetingArrives()
    ensures Leads(Session({}, [], map[], [GREETING], Young(false), {(1, 3, 2)}), Deliver(1, 3), Documented,
                  Session({}, [], map[], [], Young(true), {(1, 3, 2)}))
  {
    var s := Session({}, [], map[], [GREETING], Young(false), {(1, 3, 2)});
    var t := Next(s, Deliver(1, 3), Documented);
    assert t.nodes[3].groups == Young(true).groups by {
      var none: set<PlayerId> := {};
      assert none + {1} == {1};
    }
    assert t.nodes[3].todo == {} && t.nodes[3].conn == {1};
    assert t.nodes[3] == Young(true);
    assert t.wire == map[(1, 3) := []];
    assert t.missed == {(1, 3, 2)};
  }

  lemma RunToLeaving() returns (steps: seq<Step>)
    ensures Reachable(Session({}, [Create(2, NO_INFO), Left(2)], map[3 := GREETING], [], Joiner(), {}), steps,
                      Documented)
  {
    var s := Session({1}, [Create(2, NO_INFO)], map[3 := GREETING], [], Joiner(), {});
    var t := Session({}, [Create(2, NO_INFO), Left(2)], map[3 := GREETING], [], Joiner(), {});
    HostCreates(); HostJoins(); HostLetsIn(); HostLeaves();
    steps := Extend([], Documented, Initial(), CreateGroup(1, NO_INFO), Alone({}));
    steps := Extend(steps, Documented, Alone({}), AddPlayer(1, 2, 1), Alone({1}));
    steps := Extend(steps, Documented, Alone({1}), LetIn([], [2]), s);
    steps := Extend(steps, Documented, s, RemovePlayer(1, 2, 1), t);
  }

  lemma RunToGreeting() returns (steps: seq<Step>)
    ensures Reachable(Session({}, [], map[], [Create(2, NO_INFO), Left(2), GREETING], Joiner(), {(1, 3, 2)}),
                      steps, Documented)
  {
    var create, left := Create(2, NO_INFO), Left(2);
    var s0 := Session({}, [create, left], map[3 := GREETING], [], Joiner(), {});
    var s1 := Session({}, [left], map[3 := GREETING], [create], Joiner(), {});
    var s2 := Session({}, [], map[3 := GREETING], [create, left], Joiner(), {});
    var s3 := Session({}, [], map[], [create, left, GREETING], Joiner(), {(1, 3, 2)});
    steps := RunToLeaving();
    assert [create] + [left] == [create, left] && [] + [create] == [create] && [left] + [] == [left];
    assert [create, left] + [GREETING] == [create, left, GREETING];
    QueueDrains(create, [left], []);
    QueueDrains(left, [], [create]);
    GreetingLeaves([create, left]);
    steps := Extend(steps, Documented, s0, Transmit(1, 3), s1);
    steps := Extend(steps, Documented, s1, Transmit(1, 3), s2);
    steps := Extend(steps, Documented, s2, Promote(3), s3);
  }

  function End(): State {
    Session({}, [], map[], [], Young(true), {(1, 3, 2)})
  }

  lemma EndIsQuiescent()
    ensures Quiescent(End())
  {
    forall p, q ensures Chan(End(), p, q) == [] {
    }
  }

  lemma EndDisagrees()
    ensures var t := End();
            && 1 in t.nodes && 3 in t.nodes && 2 in t.created && 2 !in t.destroyed
            && 1 in Members(t.nodes[3], 2) && 1 !in Members(t.nodes[1], 2)
  {
  }

  /** A run at whose end nothing is in flight and the two players disagree for good about who is in the group: the
      host left it after it had let the player in and before its greeting was sent. */
  lemma DisagreementAfterJoin() returns (t: State, steps: seq<Step>)
    ensures Reachable(t, steps, Documented) && Quiescent(t)
    ensures 1 in t.nodes && 3 in t.nodes && 2 in t.created && 2 !in t.destroyed
    ensures 1 in Members(t.nodes[3], 2) && 1 !in Members(t.nodes[1], 2)
  {
    var left := Left(2);
    var s0 := Session({}, [], map[], [Create(2, NO_INFO), left, GREETING], Joiner(), {(1, 3, 2)});
    var s1 := Session({}, [], map[], [left, GREETING], Young(false), {(1, 3, 2)});
    var s2 := Session({}, [], map[], [GREETING], Young(false), {(1, 3, 2)});
    t := End();
    EndIsQuiescent();
    EndDisagrees();
    steps := RunToGreeting();
    CreateArrives(); LeftIsDropped(); GreetingArrives();
    steps := Extend(steps, Documented, s0, Deliver(1, 3), s1);
    steps := Extend(steps, Documented, s1, Deliver(1, 3), s2);
    steps := Extend(steps, Documented, s2, Deliver(1, 3), t);
  }
}
