/** A connection delivers: from every state that it can get into while it is open, sends, reads and handlers lead to a
    state in which everything that was queued and not cancelled has been dispatched.
 */
module ConnectionProgress {
  import opened Framing
  import opened SendQueue
  import opened Connection

  predicate Fits(ops: seq<Op>) {
    forall i :: 0 <= i < |ops| ==> |ops[i].data| <= MAX_PACKET_SIZE
  }

  predicate AllFit(cs: seq<Chosen>) {
    forall i :: 0 <= i < |cs| ==> |cs[i].op.data| <= MAX_PACKET_SIZE
  }

  /** Every packet is within the receiver's limit. */
  predicate Small(s: State) {
    Fits(s.log.q.high) && Fits(s.log.q.medium) && Fits(s.log.q.low) && AllFit(s.chosen)
  }

  ghost predicate Live(s: State) {
    Good(s) && s.fate == Open && !s.shut && !s.closing
  }

  predicate Rest(s: State) {
    s.inside == map[] && s.flight == [] && s.log.q == Empty()
  }

  /** The steps that carry data, and the one that gives up on a packet; nothing is added, cancelled or broken off. */
  predicate Carries(a: Step) {
    a.Write? || a.Claim? || a.Recv? || a.Dispatch? || a.Handled? || a.Leave? || a.Reject?
  }

  // ---------------------------------------------------------------- what is left to do

  function Load(ops: seq<Op>): nat {
    if ops == [] then 0 else 5 * |ops[0].data| + 1 + Load(ops[1..])
  }

  function Waits(q: Queues): nat {
    Load(q.low) + Load(q.medium) + Load(q.high)
  }

  function Owed(s: State): nat {
    if s.log.q.current.Some? then 5 * |Unsent(s)| + 1 else 0
  }

  ghost function Place(s: State): nat {
    if s.inside == map[] then 0
    else if exists t :: t in s.inside && s.inside[t] == Scanning then 2
    else 1
  }

  /** A byte is worth 5 in the queue, 4 in the socket and 1 in the buffer. */
  ghost function Work(s: State): nat {
    Waits(s.log.q) + Owed(s) + 4 * |s.flight| + |s.buf| + Place(s)
  }

  /** One step of data: less is left to do. */
  ghost predicate Carried(s: State, t: State) {
    Live(t) && Work(t) < Work(s) && SameCalls(s, t)
  }

  /** What the application has sent and cancelled is as it was, and no packet is over the limit if none was. */
  predicate SameCalls(s: State, t: State) {
    t.log.sent == s.log.sent && t.log.cancelled == s.log.cancelled && (Small(s) ==> Small(t))
  }

  // ---------------------------------------------------------------- sending

  /** The receiver's side and the history are as they were. */
  predicate SenderOnly(s: State, t: State) {
    && t == s.(log := t.log, chosen := t.chosen, written := t.written, flight := t.flight)
    && SameCalls(s, t)
  }

  lemma Promotes(s: State)
    ensures var p := Promote(s);
            && SenderOnly(s, p) && p.flight == s.flight
            && Waits(p.log.q) + Owed(p) == Waits(s.log.q) + Owed(s)
            && (p.log.q.current.None? ==> s.log.q == Empty())
  {
    PickHighest(s.log.q);
    if s.log.q.current.None? && NextClass(s.log.q).Some? {
      PromotesOne(s, NextClass(s.log.q).value);
    }
  }

  lemma Takeout(q: Queues, pri: Priority)
    requires Of(q, pri) != []
    ensures Waits(q) == 5 * |Of(q, pri)[0].data| + 1 + Waits(With(q, pri, Of(q, pri)[1..]))
  {
  }

  lemma PromotesOne(s: State, pri: Priority)
    requires s.log.q.current.None? && NextClass(s.log.q) == Some(pri)
    ensures var p := Promote(s);
            (Small(s) ==> Small(p)) && p.log.q.current.Some? && Waits(p.log.q) + Owed(p) == Waits(s.log.q)
  {
    var p, ops := Promote(s), Of(s.log.q, pri);
    Takeout(s.log.q, pri);
    assert Small(s) ==> Fits(ops);
    assert p.log.q == With(s.log.q, pri, ops[1..]).(current := Some(ops[0]));
    assert Unsent(p) == ops[0].data;
  }

  /** The whole of what is left of the current operation goes out. */
  lemma Puts(p: State)
    requires p.log.q.current.Some?
    ensures var v := Put(p, |Unsent(p)|).(log := After(p.log, Finished), written := 0);
            && SenderOnly(p, v)
            && Waits(v.log.q) + Owed(v) + 4 * |v.flight| < Waits(p.log.q) + Owed(p) + 4 * |p.flight|
  {
  }

  lemma Writes(s: State) returns (a: Step)
    requires Live(s) && s.log.q != Empty()
    ensures Carries(a) && Enabled(s, a) && Carried(s, Next(s, a))
  {
    Promotes(s);
    var p := Promote(s);
    var k := |Unsent(p)|;
    a := Write(k);
    GoodWrite(s, k);
    Puts(p);
    Promotes(Put(p, k).(log := After(p.log, Finished), written := 0));
  }

  // ---------------------------------------------------------------- receiving

  lemma Reads(s: State, t: nat)
    requires Live(s) && s.flight != [] && Idle(s.buf) && t in s.inside && s.inside[t] == Scanning
    ensures Enabled(s, Recv(t, 1)) && Carried(s, Next(s, Recv(t, 1)))
  {
    GoodRecv(s, t, 1);
  }

  lemma Claims(s: State)
    requires Live(s) && s.inside == map[] && s.flight != []
    ensures Enabled(s, Claim(0, 1)) && Carried(s, Next(s, Claim(0, 1)))
  {
    GoodClaim(s, 0, 1);
    var u := s.(busy := true, inside := s.inside[0 := Scanning]);
    GoodRecv(u, 0, 1);
    assert u.inside[0] == Scanning;
  }

  lemma Dispatches(s: State, t: nat)
    requires Live(s) && t in s.inside && s.inside[t] == Scanning && Complete(s.buf)
    ensures Enabled(s, Dispatch(t)) && Carried(s, Next(s, Dispatch(t)))
  {
    GoodDispatch(s, t);
    var u := Next(s, Dispatch(t));
    forall x | x in u.inside ensures u.inside[x] != Scanning {
      assert x == t;
    }
  }

  lemma Leaves(s: State, t: nat)
    requires Live(s) && t in s.inside && s.inside[t] == Scanning && Idle(s.buf)
    ensures Enabled(s, Leave(t)) && Carried(s, Next(s, Leave(t)))
  {
    GoodLeave(s, t);
    assert Next(s, Leave(t)).inside == map[];
  }

  /** A thread that scans has found that it can go on no further. */
  predicate Rejects(s: State, t: nat) {
    t in s.inside && s.inside[t] == Scanning && !Complete(s.buf) && EndingOf(s.buf) != More
  }

  /** A thread that scans dispatches, reads on, or leaves. */
  lemma Scans(s: State, t: nat) returns (a: Step)
    requires Live(s) && t in s.inside && s.inside[t] == Scanning && !Rejects(s, t)
    ensures Carries(a) && Enabled(s, a) && Carried(s, Next(s, a))
  {
    if Complete(s.buf) {
      a := Dispatch(t);
      Dispatches(s, t);
    } else {
      assert Idle(s.buf);
      if s.flight != [] {
        a := Recv(t, 1);
        Reads(s, t);
      } else {
        a := Leave(t);
        Leaves(s, t);
      }
    }
  }

  lemma Handles(s: State, t: nat)
    requires Live(s) && t in s.inside && s.inside[t].Handling?
    ensures Enabled(s, Handled(t)) && Carried(s, Next(s, Handled(t)))
  {
    GoodHandled(s, t);
    assert Place(s) >= 1;
  }

  // ---------------------------------------------------------------- to rest

  lemma NextStep(s: State) returns (a: Step)
    requires Live(s) && !Rest(s) && forall t :: !Rejects(s, t)
    ensures Carries(a) && Enabled(s, a) && Carried(s, Next(s, a))
  {
    if s.inside != map[] {
      var t :| t in s.inside;
      if s.inside[t] == Scanning {
        a := Scans(s, t);
      } else {
        a := Handled(t);
        Handles(s, t);
      }
    } else if s.flight != [] {
      a := Claim(0, 1);
      Claims(s);
    } else {
      a := Writes(s);
    }
  }

  /** A run of such steps. */
  ghost predicate Delivery(s: State, steps: seq<Step>, t: State) {
    Connection.Runs(s, steps, t) && forall i :: 0 <= i < |steps| ==> Carries(steps[i])
  }

  lemma AndThen(s: State, a: Step, more: seq<Step>, t: State)
    requires Carries(a) && Enabled(s, a) && Delivery(Next(s, a), more, t)
    ensures Delivery(s, [a] + more, t)
  {
    assert ([a] + more)[1..] == more;
  }

  /** It ends at rest, or with a packet that the receiver gives up on. */
  ghost predicate Ended(s: State, t: State) {
    && Good(t) && !t.shut && !t.closing && SameCalls(s, t)
    && (t.fate == Oversize || (t.fate == Open && Rest(t)))
  }

  lemma GivesUp(s: State, t: nat)
    requires Live(s) && Rejects(s, t)
    ensures Delivery(s, [Reject(t)], Next(s, Reject(t))) && Ended(s, Next(s, Reject(t)))
  {
    GoodReject(s, t);
    var u := Next(s, Reject(t));
    assert Told(u);
    AndThen(s, Reject(t), [], u);
    assert [Reject(t)] + [] == [Reject(t)];
  }

  lemma {:induction false} ComesToRest(s: State) returns (steps: seq<Step>, t: State)
    requires Live(s)
    ensures Delivery(s, steps, t) && Ended(s, t)
    decreases Work(s)
  {
    if Rest(s) {
      steps, t := [], s;
    } else if u :| Rejects(s, u) {
      steps, t := [Reject(u)], Next(s, Reject(u));
      GivesUp(s, u);
    } else {
      var a := NextStep(s);
      var more;
      more, t := ComesToRest(Next(s, a));
      steps := [a] + more;
      AndThen(s, a, more, t);
    }
  }

  /** In every reachable state with both ends open, sends, reads and handlers alone lead to an end. Either everything
      has arrived: in each class, the packets dispatched are exactly those that were sent and not cancelled, in the
      order in which they were sent. Or the receiver has given up on a packet over the limit, with all before it
      dispatched. The first happens exactly when no packet that left is over the limit, and always when none is that
      could leave. */
  lemma Delivers(s: State, before: seq<Step>) returns (steps: seq<Step>, t: State)
    requires Reachable(s, before) && s.fate == Open && !s.shut && !s.closing
    ensures Delivery(s, steps, t) && t.log.cancelled == s.log.cancelled
    ensures t.fate == Open || t.fate == Oversize
    ensures t.fate == Open ==>
              && t.dispatched == Datas(t.chosen)
              && forall pri :: OfClass(t.chosen, pri) == Kept(Enqueued(before, pri), s.log.cancelled)
    ensures t.fate == Oversize ==>
              var n := |t.dispatched|;
              n < |t.chosen| && t.dispatched == Datas(t.chosen[..n]) && |t.chosen[n].op.data| > MAX_PACKET_SIZE
    ensures t.fate == Open <==> AllFit(t.chosen)
    ensures Small(s) ==> t.fate == Open
  {
    ReachableGood(s, before);
    steps, t := ComesToRest(s);
    if t.fate == Open {
      Drained(t);
      forall pri ensures OfClass(t.chosen, pri) == Kept(Enqueued(before, pri), s.log.cancelled) {
        Emptied(t, pri);
        SentAsCalled(s, before, pri);
      }
    } else {
      assert Datas(t.chosen[..|t.dispatched|]) == Datas(t.chosen)[..|t.dispatched|];
    }
  }

  lemma Emptied(t: State, pri: Priority)
    requires Sender(t) && t.log.q == Empty()
    ensures OfClass(t.chosen, pri) == Kept(History(t.log.sent, pri), t.log.cancelled)
  {
    assert InOrder(t.log, pri) && History(t.log.promoted, pri) == OfClass(t.chosen, pri);
    assert Of(t.log.q, pri) == [];
  }

  /** At rest the connection can be ended in good order: the sender shuts down, and the next recv() says so. */
  lemma EndsInOrder(s: State, before: seq<Step>, t: nat)
    requires Reachable(s, before) && s.fate == Open && !s.closing && Rest(s)
    ensures Enabled(s, Shutdown) && Enabled(Next(s, Shutdown), Claim(t, 0))
    ensures var u := Next(Next(s, Shutdown), Claim(t, 0)); u.fate == Eof && u.dispatched == Datas(u.chosen)
  {
    ReachableGood(s, before);
    Drained(s);
  }
}
