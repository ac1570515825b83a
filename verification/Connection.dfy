/** One direction of a connection, end to end: the send queue, a socket that takes and gives bytes in pieces of any
    size, and the threads that run io_peer_recv() on the far side, which drop the lock while they handle a packet.
 */
module Connection {
  import opened Packet
  import opened Framing
  import opened SendQueue

  /** What a thread that has claimed the receive section is doing. */
  datatype Stage = Scanning | Handling(size: nat)

  /** How the receiver's Peer came to its end, if it has. */
  datatype Fate = Open | Eof | Oversize | Garbled | Gone

  /** An operation promoted to `current`, with the class it came from. */
  datatype Chosen = Chosen(pri: Priority, op: Op)

  /** `log` is the sender's queue with its history, `written` the part of the current operation already sent, `shut`
      its shutdown(SD_SEND). `flight` is in the socket; `buf`, `closing` (PS_CLOSING) and `busy` (recv_busy) are the
      receiver's, `dropped` what it read and threw away; `inside` has the threads that believe they own the receive
      section. */
  datatype State = State(
    log: Log, chosen: seq<Chosen>, written: nat, shut: bool,
    flight: Bytestring,
    buf: Bytestring, dropped: Bytestring, dispatched: seq<Bytestring>, closing: bool, fate: Fate,
    busy: bool, inside: map<nat, Stage>)

  datatype Step =
    | Enqueue(pri: Priority, op: Op)
    | Cancel(target: Target)
    | Write(k: nat)
    | Shutdown
    | Claim(thread: nat, r: nat)
    | Recv(thread: nat, r: nat)
    | Dispatch(thread: nat)
    | Handled(thread: nat)
    | Reject(thread: nat)
    | Leave(thread: nat)
    | Close
    | Destroy

  function Init(): State {
    State(Start(), [], 0, false, [], [], [], [], false, Open, false, map[])
  }

  function Datas(cs: seq<Chosen>): (r: seq<Bytestring>)
    ensures |r| == |cs| && forall i :: 0 <= i < |cs| ==> r[i] == cs[i].op.data
  {
    seq(|cs|, i requires 0 <= i < |cs| => cs[i].op.data)
  }

  // ---------------------------------------------------------------- the sender

  /** get_pending() */
  function Promote(s: State): State {
    if s.log.q.current.Some? || NextClass(s.log.q).None? then s
    else
      var pri := NextClass(s.log.q).value;
      s.(log := After(s.log, Picked), chosen := s.chosen + [Chosen(pri, Of(s.log.q, pri)[0])], written := 0)
  }

  /** What is left to send of the current operation. */
  function Unsent(s: State): Bytestring {
    if s.log.q.current.Some? && s.written <= |s.log.q.current.value.data| then s.log.q.current.value.data[s.written..]
    else []
  }

  /** send() accepts k bytes. */
  function Put(s: State, k: nat): State
    requires k <= |Unsent(s)|
  {
    s.(flight := s.flight + Unsent(s)[..k], written := s.written + k)
  }

  /** One turn of io_peer_send(): the operation leaves, and the next is chosen, when all of it was taken. */
  function Sending(s: State, k: nat): State
    requires k <= |Unsent(Promote(s))| && Promote(s).log.q.current.Some?
  {
    var p := Promote(s);
    if k == |Unsent(p)| then Promote(Put(p, k).(log := After(p.log, Finished), written := 0)) else Put(p, k)
  }

  // ---------------------------------------------------------------- the receiver

  /** recv() may return any part of what is there that fits, and 0 only for an empty buffer or the end of the stream. */
  predicate MayReturn(s: State, r: nat) {
    && r <= |s.flight| && |s.buf| + r <= MAX_PACKET_SIZE
    && (r == 0 ==> |s.buf| == MAX_PACKET_SIZE || (s.shut && s.flight == []))
  }

  function Die(s: State, fate: Fate, thread: nat): State {
    s.(fate := fate, inside := s.inside - {thread})
  }

  /** What follows a recv() that returned r. */
  function Read(s: State, thread: nat, r: nat): State
    requires r <= |s.flight|
  {
    if r == 0 then Die(s, Eof, thread)
    else if s.closing then s.(dropped := s.dropped + s.flight[..r], flight := s.flight[r..])
    else s.(buf := s.buf + s.flight[..r], flight := s.flight[r..])
  }

  predicate Enabled(s: State, a: Step) {
    match a
    case Enqueue(pri, op) => Framed(op.data)
    case Cancel(_) => true
    case Write(k) => !s.shut && Promote(s).log.q.current.Some? && k <= |Unsent(Promote(s))|
    case Shutdown => s.log.q == Empty()
    case Claim(t, r) => s.fate == Open && t !in s.inside && !s.busy && MayReturn(s, r)
    case Recv(t, r) =>
      && s.fate == Open && t in s.inside && s.inside[t] == Scanning
      && !Complete(s.buf) && EndingOf(s.buf) == More && MayReturn(s, r)
    case Dispatch(t) => s.fate == Open && t in s.inside && s.inside[t] == Scanning && Complete(s.buf)
    case Handled(t) => t in s.inside && s.inside[t].Handling?
    case Reject(t) =>
      s.fate == Open && t in s.inside && s.inside[t] == Scanning && !Complete(s.buf) && EndingOf(s.buf) != More
    case Leave(t) =>
      s.fate == Open && t in s.inside && s.inside[t] == Scanning && !Complete(s.buf) && EndingOf(s.buf) == More
    case Close => true
    case Destroy => s.fate == Open
  }

  ghost predicate Allowed(s: State, a: Step) {
    Enabled(s, a) && (a.Enqueue? ==> Possible(s.log, Sent(a.pri, a.op)))
  }

  function Next(s: State, a: Step): State
    requires Enabled(s, a)
  {
    match a
    case Enqueue(pri, op) => s.(log := After(s.log, Sent(pri, op)))
    case Cancel(t) => s.(log := After(s.log, Cancelled(t)))
    case Write(k) => Sending(s, k)
    case Shutdown => s.(shut := true)
    case Claim(t, r) => Read(s.(busy := true, inside := s.inside[t := Scanning]), t, r)
    case Recv(t, r) => Read(s, t, r)
    case Dispatch(t) =>
      var size := SizeOf(s.buf);
      s.(dispatched := s.dispatched + [s.buf[..size]], inside := s.inside[t := Handling(size)])
    case Handled(t) =>
      var size := s.inside[t].size;
      if s.fate != Open || size > |s.buf| then s.(inside := s.inside - {t})
      else s.(buf := s.buf[size..], inside := s.inside[t := Scanning])
    case Reject(t) => Die(s, if EndingOf(s.buf) == TooBig then Oversize else Garbled, t)
    case Leave(t) => s.(busy := false, inside := s.inside - {t})
    case Close => s.(closing := true)
    case Destroy => s.(fate := Gone)
  }

  ghost predicate Runs(s: State, steps: seq<Step>, s': State)
    decreases |steps|
  {
    if steps == [] then s == s' else Allowed(s, steps[0]) && Runs(Next(s, steps[0]), steps[1..], s')
  }

  // ---------------------------------------------------------------- the invariant

  predicate Idle(b: Bytestring) {
    !Complete(b) && EndingOf(b) == More
  }

  /** The packets that have left: those dispatched, and then the bytes w, the dropped ones, those in the socket and the
      rest of the current one. */
  ghost predicate Accounts(s: State, w: Bytestring) {
    var all := Datas(s.chosen);
    s.dispatched <= all && Flat(all[|s.dispatched|..]) == w + (s.dropped + (s.flight + Unsent(s)))
  }

  /** The receive section has one owner, and the buffer is at rest when it has none. */
  ghost predicate Owned(s: State) {
    && (forall t, u :: t in s.inside && u in s.inside ==> t == u)
    && (s.fate == Open ==> (s.busy <==> s.inside != map[]))
    && (s.fate == Open && s.inside == map[] ==> Idle(s.buf))
    && |s.buf| <= MAX_PACKET_SIZE
  }

  ghost predicate Tracked(s: State) {
    && (s.inside == map[] ==> Accounts(s, s.buf))
    && (forall t :: t in s.inside ==>
          if s.inside[t].Handling? then
            s.dropped == [] && HEADER <= s.inside[t].size <= |s.buf| && Accounts(s, s.buf[s.inside[t].size..])
          else Accounts(s, s.buf))
    && (s.dropped != [] ==> s.closing && Idle(s.buf))
  }

  predicate FramedOps(ops: seq<Op>) {
    forall i :: 0 <= i < |ops| ==> Framed(ops[i].data)
  }

  predicate Queued(q: Queues) {
    && (forall pri :: FramedOps(Of(q, pri)))
    && (q.current.Some? ==> Framed(q.current.value.data))
  }

  /** The operations of one class among those chosen. */
  function OfClass(cs: seq<Chosen>, pri: Priority): seq<Op> {
    if cs == [] then []
    else OfClass(cs[..|cs| - 1], pri) + if cs[|cs| - 1].pri == pri then [cs[|cs| - 1].op] else []
  }

  ghost predicate Classed(promoted: map<Priority, seq<Op>>, cs: seq<Chosen>) {
    forall pri :: History(promoted, pri) == OfClass(cs, pri)
  }

  ghost predicate Sender(s: State) {
    && Inv(s.log)
    && Queued(s.log.q)
    && (s.log.q.current.Some? ==> s.written <= |s.log.q.current.value.data|)
    && AllFramed(Datas(s.chosen))
    && Classed(s.log.promoted, s.chosen)
    && (s.shut ==> s.log.q.current.None?)
  }

  /** What was dispatched is an initial part of what was chosen, packet by packet, and the ending is earned. */
  ghost predicate Told(s: State) {
    && s.dispatched <= Datas(s.chosen)
    && (forall i :: 0 <= i < |s.dispatched| ==> |s.dispatched[i]| <= MAX_PACKET_SIZE)
    && s.fate != Garbled
    && (s.fate == Oversize ==>
          |s.dispatched| < |s.chosen| && |s.chosen[|s.dispatched|].op.data| > MAX_PACKET_SIZE)
    && (s.fate == Eof ==> s.shut && (s.closing || s.dispatched == Datas(s.chosen)))
  }

  ghost predicate Good(s: State) {
    Owned(s) && Sender(s) && Told(s) && (s.fate == Open ==> Tracked(s))
  }

  // ---------------------------------------------------------------- the sender's steps

  /** The receiver's part is the same, and what the socket and the current operation hold grew by what was chosen. */
  ghost predicate Grows(s: State, t: State, more: seq<Chosen>) {
    && t == s.(log := t.log, chosen := s.chosen + more, written := t.written, flight := t.flight)
    && t.flight + Unsent(t) == (s.flight + Unsent(s)) + Flat(Datas(more))
  }

  lemma DatasConcat(a: seq<Chosen>, b: seq<Chosen>)
    ensures Datas(a + b) == Datas(a) + Datas(b)
  {
  }

  lemma AccountsGrow(s: State, t: State, more: seq<Chosen>, w: Bytestring)
    requires Accounts(s, w) && Grows(s, t, more)
    ensures Accounts(t, w)
  {
    var all, n := Datas(s.chosen), |s.dispatched|;
    DatasConcat(s.chosen, more);
    assert (all + Datas(more))[n..] == all[n..] + Datas(more);
    FlatConcat(all[n..], Datas(more));
    assert w + (s.dropped + (s.flight + Unsent(s))) + Flat(Datas(more))
        == w + (s.dropped + ((s.flight + Unsent(s)) + Flat(Datas(more))));
  }

  lemma TrackedGrow(s: State, t: State, more: seq<Chosen>)
    requires Tracked(s) && Grows(s, t, more)
    ensures Tracked(t)
  {
    if s.inside == map[] {
      AccountsGrow(s, t, more, s.buf);
    }
    forall u | u in t.inside
      ensures if t.inside[u].Handling? then
                t.dropped == [] && HEADER <= t.inside[u].size <= |t.buf| && Accounts(t, t.buf[t.inside[u].size..])
              else Accounts(t, t.buf)
    {
      AccountsGrow(s, t, more, if s.inside[u].Handling? then s.buf[s.inside[u].size..] else s.buf);
    }
  }

  lemma ToldGrow(s: State, t: State, more: seq<Chosen>)
    requires Told(s) && Grows(s, t, more) && (s.fate == Eof ==> more == [])
    ensures Told(t)
  {
    DatasConcat(s.chosen, more);
    if more == [] {
      assert s.chosen + more == s.chosen;
    }
  }

  lemma GoodGrow(s: State, t: State, more: seq<Chosen>)
    requires Good(s) && Grows(s, t, more) && Sender(t) && (s.fate == Eof ==> more == [])
    ensures Good(t)
  {
    ToldGrow(s, t, more);
    if s.fate == Open {
      TrackedGrow(s, t, more);
    }
  }

  lemma FlatOne(p: Bytestring)
    ensures Flat([p]) == p
  {
    assert Flat([p]) == p + Flat([]);
  }

  lemma QueuedWith(q: Queues, pri: Priority, ops: seq<Op>)
    requires Queued(q) && FramedOps(ops)
    ensures Queued(With(q, pri, ops))
  {
    forall r ensures FramedOps(Of(With(q, pri, ops), r)) {
      assert FramedOps(Of(q, r));
    }
  }

  lemma QueuedCurrent(q: Queues, current: Option<Op>)
    requires Queued(q) && (current.Some? ==> Framed(current.value.data))
    ensures Queued(q.(current := current))
  {
    forall r ensures FramedOps(Of(q.(current := current), r)) {
      assert FramedOps(Of(q, r));
    }
  }

  lemma FramedCut(ops: seq<Op>, i: nat)
    requires FramedOps(ops) && i < |ops|
    ensures FramedOps(ops[..i] + ops[i + 1..]) && Framed(ops[i].data) && FramedOps(ops[1..])
  {
  }

  lemma QueuedPick(q: Queues)
    requires Queued(q)
    ensures Queued(Pick(q))
  {
    if q.current.None? && NextClass(q).Some? {
      var pri := NextClass(q).value;
      var ops := Of(q, pri);
      assert FramedOps(ops);
      FramedCut(ops, 0);
      QueuedWith(q, pri, ops[1..]);
      QueuedCurrent(With(q, pri, ops[1..]), Some(ops[0]));
    }
  }

  lemma ClassedPick(promoted: map<Priority, seq<Op>>, cs: seq<Chosen>, pri: Priority, op: Op)
    requires Classed(promoted, cs)
    ensures Classed(promoted[pri := History(promoted, pri) + [op]], cs + [Chosen(pri, op)])
  {
    var cs' := cs + [Chosen(pri, op)];
    assert cs'[..|cs|] == cs;
    forall r ensures History(promoted[pri := History(promoted, pri) + [op]], r) == OfClass(cs', r) {
      assert History(promoted, r) == OfClass(cs, r);
    }
  }

  lemma SenderPromote(s: State)
    requires Sender(s) && !s.shut && s.log.q.current.None? && NextClass(s.log.q).Some?
    ensures Sender(Promote(s))
  {
    var pri := NextClass(s.log.q).value;
    var op := Of(s.log.q, pri)[0];
    InvPicked(s.log, Picked);
    QueuedPick(s.log.q);
    ClassedPick(s.log.promoted, s.chosen, pri, op);
    assert FramedOps(Of(s.log.q, pri));
    var t := Promote(s);
    DatasConcat(s.chosen, [Chosen(pri, op)]);
  }

  lemma GrowsPick(s: State, t: State, pri: Priority, op: Op)
    requires s.log.q.current == None && t.log.q.current == Some(op)
    requires t == s.(log := t.log, chosen := s.chosen + [Chosen(pri, op)], written := 0)
    ensures Grows(s, t, [Chosen(pri, op)])
  {
    assert Datas([Chosen(pri, op)]) == [op.data];
    FlatOne(op.data);
    assert Unsent(s) == [] && Unsent(t) == op.data;
    assert (s.flight + []) + op.data == s.flight + op.data;
  }

  lemma GrowsSame(s: State)
    ensures Grows(s, s, [])
  {
    assert s.chosen + [] == s.chosen && Flat(Datas([])) == [];
    assert (s.flight + Unsent(s)) + [] == s.flight + Unsent(s);
  }

  lemma PromoteGrows(s: State) returns (more: seq<Chosen>)
    requires Sender(s) && !s.shut
    ensures Sender(Promote(s)) && Grows(s, Promote(s), more)
  {
    if s.log.q.current.Some? || NextClass(s.log.q).None? {
      more := [];
      GrowsSame(s);
    } else {
      SenderPromote(s);
      var pri := NextClass(s.log.q).value;
      more := [Chosen(pri, Of(s.log.q, pri)[0])];
      GrowsPick(s, Promote(s), pri, Of(s.log.q, pri)[0]);
    }
  }

  lemma Advance(d: Bytestring, from: nat, k: nat, flight: Bytestring)
    requires from + k <= |d|
    ensures (flight + d[from..][..k]) + d[from + k..] == (flight + d[from..]) + []
  {
    assert d[from..][..k] + d[from + k..] == d[from..];
  }

  lemma PutGrows(s: State, k: nat)
    requires Sender(s) && s.log.q.current.Some? && k <= |Unsent(s)|
    ensures Sender(Put(s, k)) && Grows(s, Put(s, k), [])
  {
    assert Sender(Put(s, k));
    assert Grows(s, Put(s, k), []) by {
      assert s.chosen + [] == s.chosen && Flat(Datas([])) == [];
      Advance(s.log.q.current.value.data, s.written, k, s.flight);
    }
  }

  lemma FinishGrows(s: State)
    requires Sender(s) && Unsent(s) == []
    ensures var t := s.(log := After(s.log, Finished), written := 0); Sender(t) && Grows(s, t, [])
  {
    var t := s.(log := After(s.log, Finished), written := 0);
    QueuedCurrent(s.log.q, None);
    if s.log.q.current.Some? {
      InvStep(s.log, Finished);
    } else {
      assert After(s.log, Finished) == s.log;
    }
    assert s.chosen + [] == s.chosen && (s.flight + []) + Flat(Datas([])) == s.flight + [];
  }

  lemma GoodWrite(s: State, k: nat)
    requires Good(s) && Enabled(s, Write(k))
    ensures Good(Sending(s, k))
  {
    var p := Promote(s);
    var more := PromoteGrows(s);
    assert s.fate != Eof;
    GoodGrow(s, p, more);
    PutGrows(p, k);
    var u := Put(p, k);
    GoodGrow(p, u, []);
    if k == |Unsent(p)| {
      FinishGrows(u);
      var v := u.(log := After(u.log, Finished), written := 0);
      GoodGrow(u, v, []);
      more := PromoteGrows(v);
      GoodGrow(v, Promote(v), more);
    }
  }

  lemma GrowsNone(s: State, t: State)
    requires t == s.(log := t.log) && t.log.q.current == s.log.q.current
    ensures Grows(s, t, [])
  {
    assert s.chosen + [] == s.chosen && Flat(Datas([])) == [];
    assert (s.flight + Unsent(s)) + [] == s.flight + Unsent(s);
  }

  lemma SenderEnqueue(s: State, pri: Priority, op: Op)
    requires Sender(s) && Framed(op.data) && Possible(s.log, Sent(pri, op))
    ensures Sender(s.(log := After(s.log, Sent(pri, op))))
  {
    InvSent(s.log, Sent(pri, op));
    assert FramedOps(Of(s.log.q, pri));
    QueuedWith(s.log.q, pri, Of(s.log.q, pri) + [op]);
  }

  lemma QueuedRemove(q: Queues, t: Target)
    requires Queued(q)
    ensures var (q', op) := Remove(q, t, Order(t)); Queued(q') && q'.current == q.current
  {
    var (q', op) := Remove(q, t, Order(t));
    RemoveExact(q, t, Order(t));
    if op.Some? {
      var k: nat, i: nat :| RemovedAt(q, q', op.value, t, Order(t), k, i);
      var pri := Order(t)[k];
      QueuedWithout(q, q', op.value, pri, i);
    }
  }

  lemma QueuedWithout(q: Queues, q': Queues, op: Op, pri: Priority, i: nat)
    requires Queued(q) && Without(q, q', op, pri, i)
    ensures Queued(q')
  {
    assert FramedOps(Of(q, pri));
    FramedCut(Of(q, pri), i);
    QueuedWith(q, pri, Of(q, pri)[..i] + Of(q, pri)[i + 1..]);
  }

  lemma SenderCancel(s: State, t: Target)
    requires Sender(s)
    ensures Sender(s.(log := After(s.log, Cancelled(t)))) && After(s.log, Cancelled(t)).q.current == s.log.q.current
  {
    InvCancelled(s.log, Cancelled(t));
    QueuedRemove(s.log.q, t);
  }

  lemma PushKeepsCurrent(q: Queues, pri: Priority, op: Op)
    ensures Push(q, pri, op).current == q.current
  {
  }

  lemma GoodEnqueue(s: State, a: Step)
    requires Good(s) && Allowed(s, a) && a.Enqueue?
    ensures Good(Next(s, a))
  {
    var t := s.(log := After(s.log, Sent(a.pri, a.op)));
    SenderEnqueue(s, a.pri, a.op);
    PushKeepsCurrent(s.log.q, a.pri, a.op);
    GrowsNone(s, t);
    GoodGrow(s, t, []);
  }

  lemma GoodCancel(s: State, a: Step)
    requires Good(s) && a.Cancel?
    ensures Good(Next(s, a))
  {
    var t := s.(log := After(s.log, Cancelled(a.target)));
    SenderCancel(s, a.target);
    GrowsNone(s, t);
    GoodGrow(s, t, []);
  }

  // ---------------------------------------------------------------- the receiver's steps

  /** recv() is never called without room for a byte: its result 0 is the end of the stream. */
  lemma ZeroIsEnd(s: State, r: nat)
    requires |s.buf| <= MAX_PACKET_SIZE && Idle(s.buf) && MayReturn(s, r)
    ensures |s.buf| < MAX_PACKET_SIZE
    ensures r == 0 ==> s.shut && s.flight == []
  {
  }

  /** When everything sent has been read and nothing complete is left, everything has been dispatched. */
  lemma Drained(s: State)
    requires Sender(s) && Accounts(s, s.buf) && Idle(s.buf)
    requires s.dropped == [] && s.flight == [] && s.log.q.current.None?
    ensures s.dispatched == Datas(s.chosen) && s.buf == []
  {
    var all, n := Datas(s.chosen), |s.dispatched|;
    var ps := all[n..];
    assert Flat(ps) == s.buf + [];
    if ps != [] {
      assert Framed(ps[0]);
      assert |Flat(ps)| >= |ps[0]| >= HEADER;
      FirstPacket(ps, s.buf, []);
    }
  }

  lemma AccountsRead(s: State, r: nat)
    requires Accounts(s, s.buf) && r <= |s.flight| && s.dropped == []
    ensures Accounts(s.(buf := s.buf + s.flight[..r], flight := s.flight[r..]), s.buf + s.flight[..r])
  {
    assert (s.buf + s.flight[..r]) + ([] + (s.flight[r..] + Unsent(s))) == s.buf + ([] + (s.flight + Unsent(s)));
  }

  lemma AccountsDrop(s: State, r: nat)
    requires Accounts(s, s.buf) && r <= |s.flight|
    ensures Accounts(s.(dropped := s.dropped + s.flight[..r], flight := s.flight[r..]), s.buf)
  {
    assert (s.dropped + s.flight[..r]) + (s.flight[r..] + Unsent(s)) == s.dropped + (s.flight + Unsent(s));
  }

  /** The recv() of a thread that owns the receive section. */
  lemma GoodRecv(s: State, t: nat, r: nat)
    requires Good(s) && Enabled(s, Recv(t, r))
    ensures Good(Read(s, t, r))
  {
    ZeroIsEnd(s, r);
    if r == 0 {
      if !s.closing {
        Drained(s);
      }
    } else if s.closing {
      AccountsDrop(s, r);
    } else {
      AccountsRead(s, r);
    }
  }

  /** Claiming the section is entering it and then reading. */
  lemma GoodClaim(s: State, t: nat, r: nat)
    requires Good(s) && Enabled(s, Claim(t, r))
    ensures var u := s.(busy := true, inside := s.inside[t := Scanning]);
            Good(u) && Enabled(u, Recv(t, r)) && Next(s, Claim(t, r)) == Read(u, t, r)
  {
    var u := s.(busy := true, inside := s.inside[t := Scanning]);
    assert Accounts(u, u.buf);
    assert t in u.inside;
  }

  /** The packet at the front of the buffer is the next one that was chosen. */
  lemma NextPacket(s: State)
    requires AllFramed(Datas(s.chosen)) && Accounts(s, s.buf) && Complete(s.buf)
    ensures var p := s.buf[..SizeOf(s.buf)];
            Accounts(s.(dispatched := s.dispatched + [p]), s.buf[SizeOf(s.buf)..])
  {
    var all, n, more := Datas(s.chosen), |s.dispatched|, s.dropped + (s.flight + Unsent(s));
    var ps := all[n..];
    FirstPacket(ps, s.buf, more);
    OneFurther(all, n);
  }

  lemma OneFurther(all: seq<Bytestring>, n: nat)
    requires n < |all|
    ensures all[..n] + [all[n..][0]] <= all && all[n..][1..] == all[n + 1..]
  {
  }

  lemma GoodDispatch(s: State, t: nat)
    requires Good(s) && Enabled(s, Dispatch(t))
    ensures Good(Next(s, Dispatch(t)))
  {
    var u := Next(s, Dispatch(t));
    NextPacket(s);
    assert Accounts(u, u.buf[SizeOf(u.buf)..]);
    assert t in u.inside;
  }

  lemma GoodHandled(s: State, t: nat)
    requires Good(s) && Enabled(s, Handled(t))
    ensures Good(Next(s, Handled(t)))
  {
    var u := Next(s, Handled(t));
    if s.fate == Open {
      assert Accounts(u, u.buf);
      assert t in u.inside;
    }
  }

  lemma GoodReject(s: State, t: nat)
    requires Good(s) && Enabled(s, Reject(t))
    ensures Good(Next(s, Reject(t)))
  {
    var all, n, more := Datas(s.chosen), |s.dispatched|, s.dropped + (s.flight + Unsent(s));
    assert Accounts(s, s.buf);
    var ps := all[n..];
    FirstPacket(ps, s.buf, more);
    assert Framed(ps[0]) && ps[0] == s.chosen[n].op.data;
  }

  lemma GoodLeave(s: State, t: nat)
    requires Good(s) && Enabled(s, Leave(t))
    ensures Good(Next(s, Leave(t)))
  {
    var u := Next(s, Leave(t));
    assert Accounts(u, u.buf);
    assert u.inside == map[];
  }

  lemma GoodShutdown(s: State)
    requires Good(s) && s.log.q == Empty()
    ensures Good(s.(shut := true))
  {
    var u := s.(shut := true);
    assert forall w :: Accounts(s, w) ==> Accounts(u, w);
  }

  lemma GoodClose(s: State)
    requires Good(s)
    ensures Good(s.(closing := true))
  {
    var u := s.(closing := true);
    assert forall w :: Accounts(s, w) ==> Accounts(u, w);
  }

  lemma GoodStep(s: State, a: Step)
    requires Good(s) && Allowed(s, a)
    ensures Good(Next(s, a))
  {
    match a
    case Enqueue(_, _) => GoodEnqueue(s, a);
    case Cancel(_) => GoodCancel(s, a);
    case Write(k) => GoodWrite(s, k);
    case Shutdown => GoodShutdown(s);
    case Claim(t, r) =>
      GoodClaim(s, t, r);
      GoodRecv(s.(busy := true, inside := s.inside[t := Scanning]), t, r);
    case Recv(t, r) => GoodRecv(s, t, r);
    case Dispatch(t) => GoodDispatch(s, t);
    case Handled(t) => GoodHandled(s, t);
    case Reject(t) => GoodReject(s, t);
    case Leave(t) => GoodLeave(s, t);
    case Close => GoodClose(s);
    case Destroy =>
  }

  lemma GoodInit()
    ensures Good(Init())
  {
    StartInv();
    var none: Bytestring := [];
    assert none + (none + (none + none)) == none;
  }

  lemma {:induction false} GoodRun(s: State, steps: seq<Step>, s': State)
    requires Good(s) && Runs(s, steps, s')
    ensures Good(s')
    decreases |steps|
  {
    if steps != [] {
      GoodStep(s, steps[0]);
      GoodRun(Next(s, steps[0]), steps[1..], s');
    }
  }

  // ---------------------------------------------------------------- every run

  ghost predicate Reachable(s: State, steps: seq<Step>) {
    Runs(Init(), steps, s)
  }

  lemma ReachableGood(s: State, steps: seq<Step>)
    requires Reachable(s, steps)
    ensures Good(s)
  {
    GoodInit();
    GoodRun(Init(), steps, s);
  }

  /** For every schedule of enqueues, cancels, partial writes, partial reads, handlers, closes and losses: the packets
      dispatched are an initial part of those promoted to `current`, none split, merged, lost, duplicated or out of
      order. The receiver never finds a malformed packet, and drops the connection over a size only when the next
      packet really is over the limit. */
  lemma DispatchedInOrder(s: State, steps: seq<Step>)
    requires Reachable(s, steps)
    ensures s.dispatched <= Datas(s.chosen)
    ensures forall i :: 0 <= i < |s.dispatched| ==> |s.dispatched[i]| <= MAX_PACKET_SIZE
    ensures s.fate != Garbled
    ensures s.fate == Oversize ==>
              |s.dispatched| < |s.chosen| && |s.chosen[|s.dispatched|].op.data| > MAX_PACKET_SIZE
  {
    ReachableGood(s, steps);
  }

  lemma {:induction false} OfClassPrefix(cs: seq<Chosen>, n: nat, pri: Priority)
    requires n <= |cs|
    ensures OfClass(cs[..n], pri) <= OfClass(cs, pri)
  {
    if n < |cs| {
      OfClassPrefix(cs[..|cs| - 1], n, pri);
      assert cs[..|cs| - 1][..n] == cs[..n];
    } else {
      assert cs[..n] == cs;
    }
  }

  function SentIn(a: Step, pri: Priority): seq<Op> {
    if a.Enqueue? && a.pri == pri then [a.op] else []
  }

  /** The sends of one class that a run begins. */
  function Enqueued(steps: seq<Step>, pri: Priority): seq<Op> {
    if steps == [] then [] else SentIn(steps[0], pri) + Enqueued(steps[1..], pri)
  }

  lemma PromoteSent(s: State)
    ensures Promote(s).log.sent == s.log.sent
  {
  }

  lemma SendingSent(s: State, k: nat)
    requires Enabled(s, Write(k))
    ensures Sending(s, k).log.sent == s.log.sent
  {
    PromoteSent(s);
    PromoteSent(Put(Promote(s), k).(log := After(Promote(s).log, Finished), written := 0));
  }

  lemma SentByStep(s: State, a: Step, pri: Priority)
    requires Allowed(s, a)
    ensures History(Next(s, a).log.sent, pri) == History(s.log.sent, pri) + SentIn(a, pri)
  {
    if a.Write? {
      SendingSent(s, a.k);
    }
    if !a.Enqueue? {
      assert Next(s, a).log.sent == s.log.sent;
    }
    assert History(s.log.sent, pri) + [] == History(s.log.sent, pri);
  }

  lemma SentFirst(was: seq<Op>, steps: seq<Step>, pri: Priority)
    requires steps != []
    ensures (was + SentIn(steps[0], pri)) + Enqueued(steps[1..], pri) == was + Enqueued(steps, pri)
  {
  }

  lemma {:induction false} SentByRun(s: State, steps: seq<Step>, t: State, pri: Priority)
    requires Runs(s, steps, t)
    ensures History(t.log.sent, pri) == History(s.log.sent, pri) + Enqueued(steps, pri)
    decreases |steps|
  {
    if steps != [] {
      SentByStep(s, steps[0], pri);
      SentByRun(Next(s, steps[0]), steps[1..], t, pri);
      SentFirst(History(s.log.sent, pri), steps, pri);
    }
  }

  lemma SentAsCalled(s: State, steps: seq<Step>, pri: Priority)
    requires Reachable(s, steps)
    ensures History(s.log.sent, pri) == Enqueued(steps, pri)
  {
    SentByRun(Init(), steps, s, pri);
    assert [] + Enqueued(steps, pri) == Enqueued(steps, pri);
  }

  /** A cancellation takes what it is for out of the queue, and that operation is recorded as cancelled. */
  lemma CancelOnRecord(s: State, t: Target)
    ensures var u := Next(s, Cancel(t));
            exists op :: && Cancels(s.log.q, u.log.q, op, t)
                         && u.log.cancelled == s.log.cancelled + if op.Some? then {op.value.id} else {}
  {
    RemoveCancels(s.log.q, t);
    var (_, op) := Remove(s.log.q, t, Order(t));
    assert Cancels(s.log.q, Next(s, Cancel(t)).log.q, op, t);
  }

  /** From the application's send to the far side's handlers: within a priority class, packets arrive in the order in
      which the sends were made, leaving out exactly the cancelled ones, and with nothing missing in between. */
  lemma ClassArrivesInOrder(s: State, steps: seq<Step>, pri: Priority)
    requires Reachable(s, steps)
    ensures var n := |s.dispatched|;
            && n <= |s.chosen| && s.dispatched == Datas(s.chosen[..n])
            && OfClass(s.chosen[..n], pri) <= Kept(Enqueued(steps, pri), s.log.cancelled)
  {
    ReachableGood(s, steps);
    var n := |s.dispatched|;
    OfClassPrefix(s.chosen, n, pri);
    assert Datas(s.chosen[..n]) == Datas(s.chosen)[..n];
    assert InOrder(s.log, pri);
    assert History(s.log.promoted, pri) == OfClass(s.chosen, pri);
    SentAsCalled(s, steps, pri);
  }

  /** Only one thread at a time is in the receive section, handlers and all. */
  lemma OneReceiver(s: State, steps: seq<Step>, t: nat, u: nat)
    requires Reachable(s, steps) && t in s.inside && u in s.inside
    ensures t == u
    ensures s.fate == Open ==> s.busy
  {
    ReachableGood(s, steps);
  }

  /** Every recv() has room for at least one byte, so that 0 means the end of the stream: the other side has shut down
      and all that it sent has been read. */
  lemma RecvHasRoom(s: State, steps: seq<Step>, a: Step)
    requires Reachable(s, steps) && Allowed(s, a) && (a.Claim? || a.Recv?)
    ensures |s.buf| < MAX_PACKET_SIZE
    ensures a.r == 0 ==> s.shut && s.flight == []
  {
    ReachableGood(s, steps);
    ZeroIsEnd(s, a.r);
  }

  /** A connection that ends with the end of the stream, or that has come to rest, has delivered everything, unless it
      was closing. */
  lemma AllArrives(s: State, steps: seq<Step>)
    requires Reachable(s, steps) && !s.closing
    requires s.fate == Eof || (s.fate == Open && s.inside == map[] && s.flight == [] && s.log.q == Empty())
    ensures s.dispatched == Datas(s.chosen)
    ensures s.fate == Open ==> forall i :: 0 <= i < |s.chosen| ==> |s.chosen[i].op.data| <= MAX_PACKET_SIZE
  {
    ReachableGood(s, steps);
    if s.fate == Open {
      Drained(s);
    }
  }
}
