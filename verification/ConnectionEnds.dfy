/** What a connection does no more once it is closing or has ended.
 */
module ConnectionEnds {
  import opened Framing
  import opened SendQueue
  import opened Connection

  /** A handler is running with the packet of this size at the front of the buffer. */
  predicate HandlingAt(s: State, t: nat) {
    t in s.inside && s.inside[t].Handling? && s.inside[t].size <= |s.buf|
  }

  /** The bytes in the buffer that are not dispatched. */
  ghost function Undone(s: State): Bytestring {
    if t :| HandlingAt(s, t) then s.buf[s.inside[t].size..] else s.buf
  }

  lemma UndoneAt(s: State, t: nat)
    requires HandlingAt(s, t) && forall u :: u in s.inside ==> u == t
    ensures Undone(s) == s.buf[s.inside[t].size..]
  {
  }

  lemma UndoneAll(s: State)
    requires forall t :: !HandlingAt(s, t)
    ensures Undone(s) == s.buf
  {
  }

  // ---------------------------------------------------------------- closing

  /** The same bytes have been dispatched or are in the buffer. */
  ghost predicate SameBytes(s: State, t: State) {
    Flat(t.dispatched) + Undone(t) == Flat(s.dispatched) + Undone(s)
  }

  lemma SameReceiver(s: State, t: State)
    requires Owned(s) && t.inside == s.inside && t.buf == s.buf && t.dispatched == s.dispatched
    ensures SameBytes(s, t)
  {
    if u :| HandlingAt(s, u) {
      UndoneAt(s, u);
      assert HandlingAt(t, u);
      UndoneAt(t, u);
    } else {
      UndoneAll(s);
      assert forall u :: HandlingAt(t, u) ==> HandlingAt(s, u);
      UndoneAll(t);
    }
  }

  lemma PromoteSame(s: State)
    ensures var t := Promote(s);
            && t.inside == s.inside && t.buf == s.buf && t.dispatched == s.dispatched
            && t.fate == s.fate && t.closing == s.closing
  {
  }

  lemma SendingSame(s: State, k: nat)
    requires Enabled(s, Write(k))
    ensures var t := Sending(s, k);
            && t.inside == s.inside && t.buf == s.buf && t.dispatched == s.dispatched
            && t.fate == s.fate && t.closing == s.closing
  {
    PromoteSame(s);
    PromoteSame(Put(Promote(s), k).(log := After(Promote(s).log, Finished), written := 0));
  }

  lemma OneMore(ps: seq<Bytestring>, b: Bytestring, k: nat)
    requires k <= |b|
    ensures Flat(ps + [b[..k]]) + b[k..] == Flat(ps) + b
  {
    FlatConcat(ps, [b[..k]]);
    FlatOne(b[..k]);
    assert b == b[..k] + b[k..];
  }

  lemma DispatchBytes(s: State, t: nat)
    requires Good(s) && Enabled(s, Dispatch(t))
    ensures SameBytes(s, Next(s, Dispatch(t)))
  {
    var u := Next(s, Dispatch(t));
    GoodDispatch(s, t);
    assert HandlingAt(u, t);
    UndoneAt(u, t);
    UndoneAll(s);
    OneMore(s.dispatched, s.buf, SizeOf(s.buf));
  }

  lemma HandledBytes(s: State, t: nat)
    requires Good(s) && s.fate == Open && Enabled(s, Handled(t))
    ensures SameBytes(s, Next(s, Handled(t)))
  {
    assert HandlingAt(s, t);
    UndoneAt(s, t);
    UndoneAll(Next(s, Handled(t)));
  }

  /** A read, and the end of the loop, where no handler is running. */
  lemma ScanBytes(s: State, a: Step)
    requires Good(s) && s.fate == Open && s.closing && Enabled(s, a) && (a.Claim? || a.Recv? || a.Leave?)
    requires Next(s, a).fate == Open
    ensures SameBytes(s, Next(s, a))
  {
    UndoneAll(s);
    UndoneAll(Next(s, a));
  }

  lemma ClosingStep(s: State, a: Step)
    requires Good(s) && s.fate == Open && s.closing && Enabled(s, a) && Next(s, a).fate == Open
    ensures SameBytes(s, Next(s, a))
  {
    match a
    case Write(k) =>
      SendingSame(s, k);
      SameReceiver(s, Next(s, a));
    case Dispatch(t) => DispatchBytes(s, t);
    case Handled(t) => HandledBytes(s, t);
    case Claim(_, _) => ScanBytes(s, a);
    case Recv(_, _) => ScanBytes(s, a);
    case Leave(_) => ScanBytes(s, a);
    case Enqueue(_, _) => SameReceiver(s, Next(s, a));
    case Cancel(_) => SameReceiver(s, Next(s, a));
    case Shutdown => SameReceiver(s, Next(s, a));
    case Close => SameReceiver(s, Next(s, a));
    case Reject(_) =>
    case Destroy =>
  }

  lemma StaysClosed(s: State, a: Step)
    requires Enabled(s, a) && (s.closing || a == Close)
    ensures Next(s, a).closing
  {
    if a.Write? {
      SendingSame(s, a.k);
    }
  }

  lemma {:induction false} ClosedByRun(s: State, steps: seq<Step>, t: State)
    requires Connection.Runs(s, steps, t) && (s.closing || Close in steps)
    ensures t.closing
    decreases |steps|
  {
    if steps != [] {
      assert Close in steps ==> steps[0] == Close || Close in steps[1..];
      if s.closing || steps[0] == Close {
        StaysClosed(s, steps[0]);
      }
      ClosedByRun(Next(s, steps[0]), steps[1..], t);
    }
  }

  // ---------------------------------------------------------------- the end

  /** Nothing is dispatched by the step that ends a connection, nor by any after it. */
  lemma EndStep(s: State, a: Step)
    requires Enabled(s, a) && Next(s, a).fate != Open
    ensures Next(s, a).dispatched == s.dispatched && (s.fate != Open ==> Next(s, a).fate == s.fate)
  {
    if a.Write? {
      SendingSame(s, a.k);
    }
  }

  lemma DeadStep(s: State, a: Step)
    requires Enabled(s, a) && (s.fate != Open || a == Destroy)
    ensures Next(s, a).fate != Open
  {
    if a.Write? {
      SendingSame(s, a.k);
    }
  }

  lemma {:induction false} DeadByRun(s: State, steps: seq<Step>, t: State)
    requires Connection.Runs(s, steps, t) && (s.fate != Open || Destroy in steps)
    ensures t.fate != Open
    ensures s.fate != Open ==> t.fate == s.fate && t.dispatched == s.dispatched
    decreases |steps|
  {
    if steps != [] {
      assert Destroy in steps ==> steps[0] == Destroy || Destroy in steps[1..];
      if s.fate != Open || steps[0] == Destroy {
        DeadStep(s, steps[0]);
        EndStep(s, steps[0]);
      }
      DeadByRun(Next(s, steps[0]), steps[1..], t);
    }
  }

  /** After peer_destroy(), or any other end of the connection, no packet is dispatched any more. */
  lemma NothingAfterTheEnd(s: State, before: seq<Step>, steps: seq<Step>, t: State)
    requires Reachable(s, before) && Connection.Runs(s, steps, t) && (s.fate != Open || Destroy in before)
    ensures s.fate != Open && t.fate == s.fate && t.dispatched == s.dispatched
  {
    if Destroy in before {
      DeadByRun(Init(), before, s);
    }
    DeadByRun(s, steps, t);
  }

  lemma {:induction false} ClosingRun(s: State, steps: seq<Step>, t: State)
    requires Good(s) && s.fate == Open && s.closing && Connection.Runs(s, steps, t)
    ensures Flat(t.dispatched) <= Flat(s.dispatched) + Undone(s)
    decreases |steps|
  {
    if steps != [] {
      var u := Next(s, steps[0]);
      if u.fate == Open {
        ClosingStep(s, steps[0]);
        StaysClosed(s, steps[0]);
        GoodStep(s, steps[0]);
        ClosingRun(u, steps[1..], t);
      } else {
        EndStep(s, steps[0]);
        DeadByRun(u, steps[1..], t);
      }
    }
  }

  /** Once the peer is in PS_CLOSING nothing that is read is dispatched: whatever is dispatched from then on was in the
      buffer. */
  lemma NothingReadAfterClose(s: State, before: seq<Step>, steps: seq<Step>, t: State)
    requires Reachable(s, before) && Close in before && s.fate == Open && Connection.Runs(s, steps, t)
    ensures Flat(t.dispatched) <= Flat(s.dispatched) + Undone(s)
  {
    ReachableGood(s, before);
    ClosedByRun(Init(), before, s);
    ClosingRun(s, steps, t);
  }
}
