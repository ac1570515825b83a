/** The three-priority send queue of a connection.
 */
module SendQueue {
  import opened Bytes

  datatype Option<+T> = None | Some(value: T)

  datatype Priority = Low | Medium | High

  /** A queued send. `id` is its identity, `handle` the application's handle or 0 for the program's own messages. */
  datatype Op = Op(id: nat, data: seq<byte>, handle: nat)

  datatype Queues = Queues(low: seq<Op>, medium: seq<Op>, high: seq<Op>, current: Option<Op>)

  function Of(q: Queues, pri: Priority): seq<Op> {
    match pri
    case Low => q.low
    case Medium => q.medium
    case High => q.high
  }

  function With(q: Queues, pri: Priority, ops: seq<Op>): Queues {
    match pri
    case Low => q.(low := ops)
    case Medium => q.(medium := ops)
    case High => q.(high := ops)
  }

  function Empty(): Queues {
    Queues([], [], [], None)
  }

  function Push(q: Queues, pri: Priority, op: Op): Queues {
    With(q, pri, Of(q, pri) + [op])
  }

  /** The class that the next operation is taken from. */
  function NextClass(q: Queues): Option<Priority> {
    if q.high != [] then Some(High)
    else if q.medium != [] then Some(Medium)
    else if q.low != [] then Some(Low)
    else None
  }

  /** get_pending(): the current operation, which is chosen now if there is none. */
  function Pick(q: Queues): Queues {
    if q.current.Some? then q
    else match NextClass(q)
      case None => q
      case Some(pri) => With(q, pri, Of(q, pri)[1..]).(current := Some(Of(q, pri)[0]))
  }

  function Finish(q: Queues): Queues {
    q.(current := None)
  }

  // ---------------------------------------------------------------- cancelling

  /** What to cancel: anything with a handle, one handle, or anything with a handle in one class. */
  datatype Target = Any | Handle(handle: nat) | Class(pri: Priority)

  predicate Matches(op: Op, t: Target) {
    op.handle != 0 && (t.Handle? ==> op.handle == t.handle)
  }

  /** The first operation to match, or the length. */
  function FirstMatch(ops: seq<Op>, t: Target): (i: nat)
    ensures i <= |ops|
    ensures forall j :: 0 <= j < i ==> !Matches(ops[j], t)
    ensures i < |ops| ==> Matches(ops[i], t)
  {
    if ops == [] || Matches(ops[0], t) then 0 else 1 + FirstMatch(ops[1..], t)
  }

  function Order(t: Target): seq<Priority> {
    match t
    case Any => [High, Medium, Low]
    case Handle(_) => [Low, Medium, High]
    case Class(pri) => [pri]
  }

  /** The remove_queued() family: the first match in the first class that has one. */
  function Remove(q: Queues, t: Target, order: seq<Priority>): (Queues, Option<Op>) {
    if order == [] then (q, None)
    else
      var ops := Of(q, order[0]);
      var i := FirstMatch(ops, t);
      if i < |ops| then (With(q, order[0], ops[..i] + ops[i + 1..]), Some(ops[i]))
      else Remove(q, t, order[1..])
  }

  /** q' is q without the i-th operation of a class. */
  predicate Without(q: Queues, q': Queues, op: Op, pri: Priority, i: nat) {
    i < |Of(q, pri)| && Of(q, pri)[i] == op && q' == With(q, pri, Of(q, pri)[..i] + Of(q, pri)[i + 1..])
  }

  ghost predicate NoMatch(ops: seq<Op>, t: Target) {
    forall j :: 0 <= j < |ops| ==> !Matches(ops[j], t)
  }

  /** The operation is the i-th in the k-th class searched, and nothing before it matches. */
  ghost predicate RemovedAt(q: Queues, q': Queues, op: Op, t: Target, order: seq<Priority>, k: nat, i: nat) {
    && k < |order| && Without(q, q', op, order[k], i) && NoMatch(Of(q, order[k])[..i], t)
    && forall j :: 0 <= j < k ==> NoMatch(Of(q, order[j]), t)
  }

  /** The operation removed carries a handle and was queued; it is the first that matches, in the order of the search;
      all others stay, in order; the one being sent is never touched. Nothing is removed exactly when nothing
      matches. */
  lemma {:induction false} RemoveExact(q: Queues, t: Target, order: seq<Priority>)
    ensures var (q', op) := Remove(q, t, order);
            && q'.current == q.current
            && (op.None? ==> q' == q && forall pri :: pri in order ==> NoMatch(Of(q, pri), t))
            && (op.Some? ==>
                  Matches(op.value, t) && exists k: nat, i: nat :: RemovedAt(q, q', op.value, t, order, k, i))
  {
    if order != [] {
      var ops := Of(q, order[0]);
      var i := FirstMatch(ops, t);
      var (q', op) := Remove(q, t, order);
      if i < |ops| {
        assert RemovedAt(q, q', ops[i], t, order, 0, i);
      } else {
        RemoveExact(q, t, order[1..]);
        assert NoMatch(ops, t);
        if op.Some? {
          var k: nat, j: nat :| RemovedAt(q, q', op.value, t, order[1..], k, j);
          Later(q, q', op.value, t, order, k, j);
        } else {
          assert forall pri :: pri in order <==> pri == order[0] || pri in order[1..];
        }
      }
    }
  }

  lemma Later(q: Queues, q': Queues, op: Op, t: Target, order: seq<Priority>, k: nat, i: nat)
    requires order != [] && RemovedAt(q, q', op, t, order[1..], k, i) && NoMatch(Of(q, order[0]), t)
    ensures RemovedAt(q, q', op, t, order, k + 1, i)
  {
    forall j | 0 <= j < k + 1 ensures NoMatch(Of(q, order[j]), t) {
      if j > 0 {
        assert order[j] == order[1..][j - 1];
      }
    }
  }

  /** An operation of the application's that is meant: one with the handle in question, or one with any. */
  ghost predicate Meant(op: Op, t: Target) {
    match t
    case Handle(h) => h != 0 && op.handle == h
    case _ => op.handle != 0
  }

  ghost predicate Has(ops: seq<Op>, t: Target) {
    exists i :: 0 <= i < |ops| && Meant(ops[i], t)
  }

  /** The first that is meant leaves its list; the other lists and the current operation stay. */
  ghost predicate Takes(q: Queues, q': Queues, op: Option<Op>, pri: Priority, t: Target) {
    && q'.current == q.current
    && (forall r :: r != pri ==> Of(q', r) == Of(q, r))
    && exists i :: 0 <= i < |Of(q, pri)| && Meant(Of(q, pri)[i], t) && op == Some(Of(q, pri)[i])
                   && Of(q', pri) == Of(q, pri)[..i] + Of(q, pri)[i + 1..]
                   && forall j :: 0 <= j < i ==> !Meant(Of(q, pri)[j], t)
  }

  /** What the three removals do: one class is searched alone; for a handle LOW comes before MEDIUM before HIGH; for
      anything HIGH comes before MEDIUM before LOW. Without a match nothing happens. */
  ghost predicate Cancels(q: Queues, q': Queues, op: Option<Op>, t: Target) {
    match t
    case Class(pri) =>
      if Has(Of(q, pri), t) then Takes(q, q', op, pri, t) else q' == q && op == None
    case Handle(_) =>
      if Has(q.low, t) then Takes(q, q', op, Low, t)
      else if Has(q.medium, t) then Takes(q, q', op, Medium, t)
      else if Has(q.high, t) then Takes(q, q', op, High, t)
      else q' == q && op == None
    case Any =>
      if Has(q.high, t) then Takes(q, q', op, High, t)
      else if Has(q.medium, t) then Takes(q, q', op, Medium, t)
      else if Has(q.low, t) then Takes(q, q', op, Low, t)
      else q' == q && op == None
  }

  lemma WithOf(q: Queues, pri: Priority, ops: seq<Op>)
    ensures var r := With(q, pri, ops);
            Of(r, pri) == ops && r.current == q.current && forall x :: x != pri ==> Of(r, x) == Of(q, x)
  {
  }

  lemma MeantMatches(t: Target)
    ensures forall x :: Meant(x, t) <==> Matches(x, t)
  {
  }

  lemma TakesAt(q: Queues, pri: Priority, i: nat, t: Target)
    requires i < |Of(q, pri)| && Matches(Of(q, pri)[i], t) && NoMatch(Of(q, pri)[..i], t)
    ensures Takes(q, With(q, pri, Of(q, pri)[..i] + Of(q, pri)[i + 1..]), Some(Of(q, pri)[i]), pri, t)
  {
    var ops := Of(q, pri);
    MeantMatches(t);
    WithOf(q, pri, ops[..i] + ops[i + 1..]);
    forall j | 0 <= j < i ensures !Meant(ops[j], t) {
      assert ops[..i][j] == ops[j];
    }
  }

  /** One list of the search. */
  lemma RemoveList(q: Queues, t: Target, order: seq<Priority>)
    requires order != []
    ensures var (q', op) := Remove(q, t, order);
            if Has(Of(q, order[0]), t) then Takes(q, q', op, order[0], t) else (q', op) == Remove(q, t, order[1..])
  {
    var ops := Of(q, order[0]);
    var i := FirstMatch(ops, t);
    MeantMatches(t);
    if i < |ops| {
      TakesAt(q, order[0], i, t);
      assert Meant(ops[i], t);
    }
  }

  lemma RemoveCancels(q: Queues, t: Target)
    ensures var (q', op) := Remove(q, t, Order(t)); Cancels(q, q', op, t)
  {
    var order := Order(t);
    RemoveList(q, t, order);
    if |order| > 1 {
      RemoveList(q, t, order[1..]);
      RemoveList(q, t, order[1..][1..]);
      assert order[1..][0] == order[1] && order[1..][1..][0] == order[2] && order[1..][1..][1..] == [];
    } else {
      assert order[1..] == [];
    }
  }

  // ---------------------------------------------------------------- every run of the queue

  datatype Event =
    | Sent(pri: Priority, op: Op)
    | Picked
    | Finished
    | Cancelled(target: Target)

  /** The queue with its history: what was sent and what was promoted to `current`, by class, and what was
      cancelled. */
  datatype Log = Log(q: Queues, sent: map<Priority, seq<Op>>, promoted: map<Priority, seq<Op>>, cancelled: set<nat>)

  function History(m: map<Priority, seq<Op>>, pri: Priority): seq<Op> {
    if pri in m then m[pri] else []
  }

  /** Every operation is a new object. */
  ghost predicate Possible(l: Log, e: Event) {
    && (e.Sent? ==> e.op.id !in l.cancelled && forall pri, op :: op in History(l.sent, pri) ==> op.id != e.op.id)
    && (e.Finished? ==> l.q.current.Some?)
  }

  function After(l: Log, e: Event): Log {
    match e
    case Sent(pri, op) =>
      l.(q := Push(l.q, pri, op), sent := l.sent[pri := History(l.sent, pri) + [op]])
    case Picked =>
      if l.q.current.Some? || NextClass(l.q).None? then l
      else
        var pri := NextClass(l.q).value;
        l.(q := Pick(l.q), promoted := l.promoted[pri := History(l.promoted, pri) + [Of(l.q, pri)[0]]])
    case Finished => l.(q := Finish(l.q))
    case Cancelled(t) =>
      var (q', op) := Remove(l.q, t, Order(t));
      l.(q := q', cancelled := if op.Some? then l.cancelled + {op.value.id} else l.cancelled)
  }

  /** The operations of s that have not been cancelled. */
  function Kept(s: seq<Op>, gone: set<nat>): seq<Op> {
    if s == [] then []
    else Kept(s[..|s| - 1], gone) + if s[|s| - 1].id in gone then [] else [s[|s| - 1]]
  }

  /** In each class: the operations sent and not cancelled are those promoted and then those still queued, in the
      order in which they were sent. */
  ghost predicate InOrder(l: Log, pri: Priority) {
    Kept(History(l.sent, pri), l.cancelled) == History(l.promoted, pri) + Of(l.q, pri)
  }

  /** No two operations are the same object. */
  ghost predicate Distinct(l: Log) {
    && (forall pri, i, j :: 0 <= i < j < |History(l.sent, pri)| ==>
          History(l.sent, pri)[i].id != History(l.sent, pri)[j].id)
    && (forall p, r, i, j :: p != r && 0 <= i < |History(l.sent, p)| && 0 <= j < |History(l.sent, r)| ==>
          History(l.sent, p)[i].id != History(l.sent, r)[j].id)
  }

  ghost predicate Inv(l: Log) {
    Distinct(l) && forall pri :: InOrder(l, pri)
  }

  lemma {:induction false} KeptFrom(s: seq<Op>, gone: set<nat>)
    ensures forall op :: op in Kept(s, gone) ==> op in s
  {
    if s != [] {
      KeptFrom(s[..|s| - 1], gone);
    }
  }

  lemma {:induction false} KeptSame(s: seq<Op>, gone: set<nat>, id: nat)
    requires forall op :: op in s ==> op.id != id
    ensures Kept(s, gone + {id}) == Kept(s, gone)
  {
    if s != [] {
      KeptSame(s[..|s| - 1], gone, id);
    }
  }

  predicate DistinctIds(s: seq<Op>) {
    forall i, j :: 0 <= i < j < |s| ==> s[i].id != s[j].id
  }

  lemma {:induction false} KeptRemove(s: seq<Op>, gone: set<nat>, k: nat)
    requires DistinctIds(s) && k < |Kept(s, gone)|
    ensures var r := Kept(s, gone);
            Kept(s, gone + {r[k].id}) == r[..k] + r[k + 1..]
  {
    var r := Kept(s, gone);
    var id := r[k].id;
    var t, x := s[..|s| - 1], s[|s| - 1];
    var u := Kept(t, gone);
    KeptFrom(t, gone);
    if k < |u| {
      assert r[k] in t;
      KeptRemove(t, gone, k);
      assert r[..k] + r[k + 1..] == (u[..k] + u[k + 1..]) + if x.id in gone then [] else [x];
    } else {
      KeptSame(t, gone, id);
      assert r[..k] + r[k + 1..] == u;
    }
  }

  lemma DistinctSent(l: Log, e: Event)
    requires Distinct(l) && Possible(l, e) && e.Sent?
    ensures Distinct(After(l, e))
  {
    var l' := After(l, e);
    forall p, i, j | 0 <= i < j < |History(l'.sent, p)|
      ensures History(l'.sent, p)[i].id != History(l'.sent, p)[j].id
    {
      assert History(l'.sent, p)[i] == History(l.sent, p)[i] && History(l.sent, p)[i] in History(l.sent, p);
    }
    forall p, r, i, j | p != r && 0 <= i < |History(l'.sent, p)| && 0 <= j < |History(l'.sent, r)|
      ensures History(l'.sent, p)[i].id != History(l'.sent, r)[j].id
    {
      if i < |History(l.sent, p)| { assert History(l'.sent, p)[i] in History(l.sent, p); }
      if j < |History(l.sent, r)| { assert History(l'.sent, r)[j] in History(l.sent, r); }
    }
  }

  lemma KeptLast(s: seq<Op>, gone: set<nat>, op: Op)
    requires op.id !in gone
    ensures Kept(s + [op], gone) == Kept(s, gone) + [op]
  {
    assert (s + [op])[..|s|] == s;
  }

  lemma SentClass(l: Log, e: Event, pri: Priority)
    requires InOrder(l, pri) && Possible(l, e) && e.Sent?
    ensures InOrder(After(l, e), pri)
  {
    var l' := After(l, e);
    assert l'.promoted == l.promoted && l'.cancelled == l.cancelled;
    if pri != e.pri {
      assert Of(l'.q, pri) == Of(l.q, pri) && History(l'.sent, pri) == History(l.sent, pri);
    } else {
      var done, ops := History(l.promoted, pri), Of(l.q, pri);
      assert Of(l'.q, pri) == ops + [e.op] && History(l'.sent, pri) == History(l.sent, pri) + [e.op];
      KeptLast(History(l.sent, pri), l.cancelled, e.op);
      assert done + (ops + [e.op]) == (done + ops) + [e.op];
    }
  }

  lemma InvSent(l: Log, e: Event)
    requires Inv(l) && Possible(l, e) && e.Sent?
    ensures Inv(After(l, e))
  {
    DistinctSent(l, e);
    forall pri ensures InOrder(After(l, e), pri) {
      assert InOrder(l, pri);
      SentClass(l, e, pri);
    }
  }

  lemma PickedClass(l: Log, e: Event, pri: Priority)
    requires InOrder(l, pri) && e.Picked?
    ensures InOrder(After(l, e), pri)
  {
    var l' := After(l, e);
    PickHighest(l.q);
    if l.q.current.None? && NextClass(l.q) == Some(pri) {
      var done, ops := History(l.promoted, pri), Of(l.q, pri);
      assert Of(l'.q, pri) == ops[1..] && History(l'.promoted, pri) == done + [ops[0]];
      FrontMoves(done, ops);
      assert l'.sent == l.sent && l'.cancelled == l.cancelled;
    } else {
      assert Of(l'.q, pri) == Of(l.q, pri) && History(l'.promoted, pri) == History(l.promoted, pri);
      assert l'.sent == l.sent && l'.cancelled == l.cancelled;
    }
  }

  lemma FrontMoves(done: seq<Op>, ops: seq<Op>)
    requires ops != []
    ensures (done + [ops[0]]) + ops[1..] == done + ops
  {
  }

  lemma InvPicked(l: Log, e: Event)
    requires Inv(l) && e.Picked?
    ensures Inv(After(l, e))
  {
    forall pri ensures InOrder(After(l, e), pri) {
      assert InOrder(l, pri);
      PickedClass(l, e, pri);
    }
  }

  lemma InvCancelled(l: Log, e: Event)
    requires Inv(l) && e.Cancelled?
    ensures Inv(After(l, e))
  {
    var l' := After(l, e);
    var (q', op) := Remove(l.q, e.target, Order(e.target));
    RemoveExact(l.q, e.target, Order(e.target));
    if op.Some? {
      var k: nat, i: nat :| RemovedAt(l.q, q', op.value, e.target, Order(e.target), k, i);
      var p := Order(e.target)[k];
      forall pri ensures InOrder(l', pri) {
        CancelledClass(l, l', p, i, pri);
      }
    } else {
      forall pri ensures InOrder(l', pri) {
        assert InOrder(l, pri);
      }
    }
  }

  lemma CutMiddle(done: seq<Op>, ops: seq<Op>, i: nat)
    requires i < |ops|
    ensures (done + ops)[|done| + i] == ops[i]
    ensures (done + ops)[..|done| + i] + (done + ops)[|done| + i + 1..] == done + (ops[..i] + ops[i + 1..])
  {
  }

  lemma KeptWithout(sent: seq<Op>, gone: set<nat>, r: seq<Op>, k: nat)
    requires DistinctIds(sent) && Kept(sent, gone) == r && k < |r|
    ensures Kept(sent, gone + {r[k].id}) == r[..k] + r[k + 1..] && r[k] in sent
  {
    KeptFrom(sent, gone);
    assert r[k] in r;
    KeptRemove(sent, gone, k);
  }

  lemma CancelledHere(sent: seq<Op>, gone: set<nat>, done: seq<Op>, ops: seq<Op>, i: nat)
    requires DistinctIds(sent) && Kept(sent, gone) == done + ops && i < |ops|
    ensures Kept(sent, gone + {ops[i].id}) == done + (ops[..i] + ops[i + 1..])
    ensures ops[i] in sent
  {
    KeptWithout(sent, gone, done + ops, |done| + i);
    CutMiddle(done, ops, i);
  }

  lemma CancelledClass(l: Log, l': Log, p: Priority, i: nat, pri: Priority)
    requires Inv(l) && i < |Of(l.q, p)|
    requires l' == l.(q := With(l.q, p, Of(l.q, p)[..i] + Of(l.q, p)[i + 1..]),
                      cancelled := l.cancelled + {Of(l.q, p)[i].id})
    ensures InOrder(l', pri)
  {
    assert InOrder(l, p) && InOrder(l, pri);
    CancelledHere(History(l.sent, p), l.cancelled, History(l.promoted, p), Of(l.q, p), i);
    if pri != p {
      KeptSame(History(l.sent, pri), l.cancelled, Of(l.q, p)[i].id);
    }
  }

  lemma InvStep(l: Log, e: Event)
    requires Inv(l) && Possible(l, e)
    ensures Inv(After(l, e))
  {
    match e
    case Sent(_, _) => InvSent(l, e);
    case Picked => InvPicked(l, e);
    case Finished => forall pri ensures InOrder(After(l, e), pri) { assert InOrder(l, pri); }
    case Cancelled(_) => InvCancelled(l, e);
  }

  ghost predicate Runs(l: Log, es: seq<Event>, l': Log)
    decreases |es|
  {
    if es == [] then l == l' else Possible(l, es[0]) && Runs(After(l, es[0]), es[1..], l')
  }

  function Start(): Log {
    Log(Empty(), map[], map[], {})
  }

  /** In every run of sends, promotions, completions and cancellations, each class hands out its operations in the
      order in which they were queued, each once, leaving out exactly the cancelled ones. */
  lemma {:induction false} ClassesInOrder(l: Log, es: seq<Event>, l': Log, pri: Priority)
    requires Inv(l) && Runs(l, es, l')
    ensures Inv(l') && InOrder(l', pri)
    decreases |es|
  {
    if es != [] {
      InvStep(l, es[0]);
      ClassesInOrder(After(l, es[0]), es[1..], l', pri);
    }
  }

  lemma StartInv()
    ensures Inv(Start())
  {
    forall pri ensures InOrder(Start(), pri) {
      var none: seq<Op> := [];
      assert none + none == none;
    }
  }

  /** Selection never passes over a higher class, and never replaces an operation that is being sent. */
  lemma PickHighest(q: Queues)
    ensures q.current.Some? ==> Pick(q) == q
    ensures q.current.None? && NextClass(q).Some? ==>
              var pri := NextClass(q).value;
              && Pick(q).current == Some(Of(q, pri)[0]) && Of(Pick(q), pri) == Of(q, pri)[1..]
              && (forall r :: r != pri ==> Of(Pick(q), r) == Of(q, r))
              && (pri != High ==> q.high == []) && (pri == Low ==> q.medium == [])
    ensures q.current.None? && NextClass(q).None? ==> q == Empty() && Pick(q) == q
  {
  }

  // ---------------------------------------------------------------- the queue in place

  /** The lists and the current operation; `sent` is the sent_data counter of the operation being sent, the only one
      that is ever written out. */
  class SendQueue {
    var low: seq<Op>
    var medium: seq<Op>
    var high: seq<Op>
    var current: Option<Op>
    var sent: nat

    ghost function Value(): Queues
      reads this
    {
      Queues(low, medium, high, current)
    }

    ghost predicate Valid()
      reads this
    {
      (current.Some? ==> sent <= |current.value.data|) && (current.None? ==> sent == 0)
    }

    constructor ()
      ensures Valid() && Value() == Empty() && sent == 0
    {
      low, medium, high, current, sent := [], [], [], None, 0;
    }

    method Send(pri: Priority, op: Op)
      requires Valid()
      modifies this
      ensures Valid() && Value() == Push(old(Value()), pri, op) && sent == old(sent)
    {
      match pri
      case Low => low := low + [op];
      case Medium => medium := medium + [op];
      case High => high := high + [op];
    }

    method GetPending() returns (op: Option<Op>)
      requires Valid()
      modifies this
      ensures Valid() && Value() == Pick(old(Value())) && op == current && sent == old(sent)
    {
      if current.Some? {
        return current;
      }
      if high != [] {
        current, high := Some(high[0]), high[1..];
      } else if medium != [] {
        current, medium := Some(medium[0]), medium[1..];
      } else if low != [] {
        current, low := Some(low[0]), low[1..];
      }
      op := current;
    }

    method PopPending()
      requires Valid() && current.Some?
      modifies this
      ensures current == None && low == old(low) && medium == old(medium) && high == old(high)
      ensures Valid() && Value() == Finish(old(Value()))
    {
      current, sent := None, 0;
    }

    /** send() took k bytes of the pending data; the operation leaves when that was all of it. */
    method Wrote(k: nat)
      requires Valid() && current.Some? && sent + k <= |current.value.data|
      modifies this
      ensures Valid()
      ensures if old(sent) + k == |old(current).value.data| then Value() == Finish(old(Value()))
              else Value() == old(Value()) && sent == old(sent) + k
    {
      if k == |current.value.data| - sent {
        PopPending();
      } else {
        sent := sent + k;
      }
    }

    /** The scan of one list. */
    static method Find(ops: seq<Op>, t: Target) returns (i: nat)
      ensures i == FirstMatch(ops, t)
    {
      i := 0;
      assert ops[0..] == ops;
      while i < |ops| && !Matches(ops[i], t)
        invariant i <= |ops| && FirstMatch(ops, t) == i + FirstMatch(ops[i..], t)
      {
        assert ops[i..][1..] == ops[i + 1..];
        i := i + 1;
      }
    }

    /** The search of one list, and the removal of what it finds. */
    method RemoveFrom(pri: Priority, t: Target) returns (op: Option<Op>)
      modifies this
      ensures sent == old(sent) && current == old(current)
      ensures var ops := Of(old(Value()), pri);
              var k := FirstMatch(ops, t);
              if k < |ops| then Value() == With(old(Value()), pri, ops[..k] + ops[k + 1..]) && op == Some(ops[k])
              else Value() == old(Value()) && op == None
    {
      var ops := match pri case High => high case Medium => medium case Low => low;
      var k := Find(ops, t);
      if k == |ops| {
        return None;
      }
      var rest := ops[..k] + ops[k + 1..];
      match pri {
        case High => high := rest;
        case Medium => medium := rest;
        case Low => low := rest;
      }
      op := Some(ops[k]);
    }

    /** The loop over the lists. */
    method Search(t: Target) returns (op: Option<Op>)
      modifies this
      ensures sent == old(sent) && current == old(current)
      ensures (Value(), op) == Remove(old(Value()), t, Order(t))
    {
      var rest := Order(t);
      ghost var q := Value();
      while rest != []
        invariant sent == old(sent) && Value() == q
        invariant Remove(q, t, Order(t)) == Remove(q, t, rest)
        decreases |rest|
      {
        op := RemoveFrom(rest[0], t);
        if op.Some? {
          return;
        }
        rest := rest[1..];
      }
      op := None;
    }

    /** remove_queued(), remove_queued_by_handle() and remove_queued_by_priority(). */
    method RemoveQueued(t: Target) returns (op: Option<Op>)
      requires Valid()
      modifies this
      ensures Valid() && sent == old(sent)
      ensures Cancels(old(Value()), Value(), op, t)
      ensures (Value(), op) == Remove(old(Value()), t, Order(t))
    {
      RemoveCancels(Value(), t);
      op := Search(t);
    }

    method HandleIsPending(handle: nat) returns (b: bool)
      ensures b <==> current.Some? && current.value.handle == handle
    {
      b := current.Some? && current.value.handle == handle;
    }
  }
}
