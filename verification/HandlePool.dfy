/** The worker pool: which handles it waits for and which threads wait for them.

    The two vectors are cut into blocks of m slots (`max_handles_per_pool`, one more than the constructor's argument),
    each of which starts with the event that wakes the workers; `t` is `threads_per_pool`.
 */
module HandlePool {
  datatype Handle = Spin | Event(event: nat)

  /** Abort is the functor that must never be called. */
  datatype Callback = Abort | User(id: nat)

  datatype Table = Table(handles: seq<Handle>, callbacks: seq<Callback>)

  // ---------------------------------------------------------------- blocks

  /** A multiple of m. */
  predicate Base(i: nat, m: nat)
    requires m > 0
    decreases i
  {
    if i < m then i == 0 else Base(i - m, m)
  }

  /** Inside a block only its first slot is a base. */
  lemma {:induction false} Inside(base: nat, r: nat, m: nat)
    requires r < m && Base(base, m)
    ensures Base(base + r, m) <==> r == 0
    decreases base
  {
    if base > 0 {
      Inside(base - m, r, m);
    }
  }

  /** The block of a slot. */
  function BaseOf(i: nat, m: nat): (b: nat)
    requires m > 0
    ensures Base(b, m) && b <= i < b + m
    decreases i
  {
    if i < m then 0 else m + BaseOf(i - m, m)
  }

  lemma {:induction false} OneBlock(i: nat, b: nat, m: nat)
    requires m > 0 && Base(b, m) && b <= i < b + m
    ensures b == BaseOf(i, m)
    decreases i
  {
    if i >= m {
      OneBlock(i - m, b - m, m);
    }
  }

  // ---------------------------------------------------------------- the layout

  /** Slot i holds the wake-up event exactly when i is a base, and so does the functor that must not be called. */
  predicate Layout(t: Table, m: nat)
    requires m > 0
  {
    && |t.handles| == |t.callbacks|
    && (forall i :: 0 <= i < |t.handles| ==> (t.handles[i].Spin? <==> Base(i, m)))
    && (forall i :: 0 <= i < |t.callbacks| ==> (t.callbacks[i].Abort? <==> Base(i, m)))
  }

  /** What the table stands for: the handles with their callbacks. */
  function Registered(t: Table): multiset<(Handle, Callback)>
    decreases |t.handles|
  {
    var n := |t.handles|;
    if n == 0 || |t.callbacks| != n then multiset{}
    else
      var last := (t.handles[n - 1], t.callbacks[n - 1]);
      Registered(Front(t)) + if last.0.Spin? then multiset{} else multiset{last}
  }

  function Front(t: Table): Table
    requires |t.handles| == |t.callbacks| > 0
  {
    Table(t.handles[..|t.handles| - 1], t.callbacks[..|t.handles| - 1])
  }

  function Append(t: Table, h: Handle, c: Callback): Table {
    Table(t.handles + [h], t.callbacks + [c])
  }

  /** add_handle() starts a block when the last one is full. */
  function Added(t: Table, h: Handle, c: Callback, m: nat): Table
    requires m > 0
  {
    Append(if Base(|t.handles|, m) then Append(t, Spin, Abort) else t, h, c)
  }

  lemma AppendRegisters(t: Table, h: Handle, c: Callback)
    requires |t.handles| == |t.callbacks|
    ensures h.Spin? ==> Registered(Append(t, h, c)) == Registered(t)
    ensures h.Event? ==> Registered(Append(t, h, c)) == Registered(t) + multiset{(h, c)}
  {
    assert Front(Append(t, h, c)) == t;
    assert Registered(t) + multiset{} == Registered(t);
  }

  lemma AppendLayout(t: Table, h: Handle, c: Callback, m: nat)
    requires m > 0 && Layout(t, m) && (h.Spin? <==> Base(|t.handles|, m)) && (c.Abort? <==> Base(|t.handles|, m))
    ensures Layout(Append(t, h, c), m)
  {
  }

  /** The wake-up event starts a block. */
  lemma BlockStarts(t: Table, m: nat)
    requires m > 1 && Layout(t, m) && Base(|t.handles|, m)
    ensures Layout(Append(t, Spin, Abort), m) && Registered(Append(t, Spin, Abort)) == Registered(t)
    ensures !Base(|t.handles| + 1, m)
  {
    AppendLayout(t, Spin, Abort, m);
    AppendRegisters(t, Spin, Abort);
    Inside(|t.handles|, 1, m);
  }

  lemma Appended(t: Table, h: Handle, c: Callback, m: nat)
    requires m > 1 && Layout(t, m) && h.Event? && c.User? && !Base(|t.handles|, m)
    ensures Layout(Append(t, h, c), m) && Registered(Append(t, h, c)) == Registered(t) + multiset{(h, c)}
  {
    AppendLayout(t, h, c, m);
    AppendRegisters(t, h, c);
  }

  lemma AddedExactly(t: Table, h: Handle, c: Callback, m: nat)
    requires m > 1 && Layout(t, m) && h.Event? && c.User?
    ensures Layout(Added(t, h, c, m), m)
    ensures Registered(Added(t, h, c, m)) == Registered(t) + multiset{(h, c)}
  {
    if Base(|t.handles|, m) {
      BlockStarts(t, m);
      Appended(Append(t, Spin, Abort), h, c, m);
    } else {
      Appended(t, h, c, m);
    }
  }

  /** The first slot with a handle, or the length. */
  function Find(handles: seq<Handle>, h: Handle): (i: nat)
    ensures i <= |handles|
    ensures forall j :: 0 <= j < i ==> handles[j] != h
    ensures i < |handles| ==> handles[i] == h
  {
    if handles == [] || handles[0] == h then 0 else 1 + Find(handles[1..], h)
  }

  /** A wake-up event that is left alone in its block goes with the next removal. */
  function Trimmed(t: Table): Table
    requires |t.handles| == |t.callbacks| > 0
  {
    if t.handles[|t.handles| - 1].Spin? then Front(t) else t
  }

  /** Slot i gets what the last slot has, which goes. */
  function Swapped(t: Table, i: nat): Table
    requires i < |t.handles| == |t.callbacks|
  {
    var n := |t.handles| - 1;
    Front(Table(t.handles[i := t.handles[n]], t.callbacks[i := t.callbacks[n]]))
  }

  function Removed(t: Table, h: Handle): Table
    requires |t.handles| == |t.callbacks|
  {
    var i := Find(t.handles, h);
    if i == |t.handles| then t
    else if i < |Trimmed(t).handles| then Swapped(Trimmed(t), i)
    else Trimmed(t)
  }

  lemma {:induction false} RegisteredHas(t: Table, i: nat)
    requires i < |t.handles| == |t.callbacks| && t.handles[i].Event?
    ensures (t.handles[i], t.callbacks[i]) in Registered(t)
    decreases |t.handles|
  {
    if i < |t.handles| - 1 {
      RegisteredHas(Front(t), i);
    }
  }

  /** Nothing is registered that is not in a slot. */
  lemma {:induction false} RegisteredFrom(t: Table, e: (Handle, Callback))
    requires |t.handles| == |t.callbacks| && e in Registered(t)
    ensures e.0.Event? && exists i :: 0 <= i < |t.handles| && t.handles[i] == e.0 && t.callbacks[i] == e.1
    decreases |t.handles|
  {
    var n := |t.handles| - 1;
    if !(t.handles[n].Event? && e == (t.handles[n], t.callbacks[n])) {
      RegisteredFrom(Front(t), e);
      var i :| 0 <= i < n && Front(t).handles[i] == e.0 && Front(t).callbacks[i] == e.1;
      assert t.handles[i] == e.0 && t.callbacks[i] == e.1;
    }
  }

  lemma {:induction false} RegisteredUpdate(t: Table, i: nat, h: Handle, c: Callback)
    requires i < |t.handles| == |t.callbacks| && t.handles[i].Event? && h.Event?
    ensures Registered(Table(t.handles[i := h], t.callbacks[i := c]))
         == Registered(t) - multiset{(t.handles[i], t.callbacks[i])} + multiset{(h, c)}
    decreases |t.handles|
  {
    var n := |t.handles| - 1;
    var u := Table(t.handles[i := h], t.callbacks[i := c]);
    if i == n {
      assert Front(u) == Front(t);
    } else {
      RegisteredUpdate(Front(t), i, h, c);
      assert Front(u) == Table(Front(t).handles[i := h], Front(t).callbacks[i := c]);
      RegisteredHas(Front(t), i);
    }
  }

  lemma TrimmedSame(t: Table, m: nat)
    requires m > 1 && Layout(t, m) && |t.handles| > 0
    ensures Layout(Trimmed(t), m) && Registered(Trimmed(t)) == Registered(t)
    ensures |Trimmed(t).handles| > 0 ==> Trimmed(t).handles[|Trimmed(t).handles| - 1].Event?
  {
    var n := |t.handles| - 1;
    if t.handles[n].Spin? && n > 0 {
      if Base(n - 1, m) {
        Inside(n - 1, 1, m);
      }
    }
  }

  lemma Cancel(a: multiset<(Handle, Callback)>, b: multiset<(Handle, Callback)>, x: (Handle, Callback))
    requires a + multiset{x} == b + multiset{x}
    ensures a == b
  {
    assert (a + multiset{x}) - multiset{x} == a && (b + multiset{x}) - multiset{x} == b;
  }

  lemma LastRegistered(t: Table)
    requires |t.handles| == |t.callbacks| > 0 && t.handles[|t.handles| - 1].Event?
    ensures Registered(t) == Registered(Front(t)) + multiset{(t.handles[|t.handles| - 1], t.callbacks[|t.handles| - 1])}
  {
  }

  /** Swapping takes out the registration of slot i. */
  lemma SwappedRegisters(t: Table, i: nat)
    requires i < |t.handles| == |t.callbacks| && t.handles[i].Event? && t.handles[|t.handles| - 1].Event?
    ensures Registered(Swapped(t, i)) == Registered(t) - multiset{(t.handles[i], t.callbacks[i])}
  {
    var n := |t.handles| - 1;
    RegisteredUpdate(t, i, t.handles[n], t.callbacks[n]);
    LastRegistered(Table(t.handles[i := t.handles[n]], t.callbacks[i := t.callbacks[n]]));
    Cancel(Registered(Swapped(t, i)), Registered(t) - multiset{(t.handles[i], t.callbacks[i])},
           (t.handles[n], t.callbacks[n]));
  }

  lemma SwappedLayout(t: Table, i: nat, m: nat)
    requires m > 1 && Layout(t, m) && i < |t.handles| && t.handles[i].Event? && t.handles[|t.handles| - 1].Event?
    ensures Layout(Swapped(t, i), m)
  {
    assert t.callbacks[i].User? && t.callbacks[|t.handles| - 1].User?;
  }

  lemma NotRegistered(t: Table, h: Handle)
    requires |t.handles| == |t.callbacks| && forall i :: 0 <= i < |t.handles| ==> t.handles[i] != h
    ensures forall c :: (h, c) !in Registered(t)
  {
    forall c ensures (h, c) !in Registered(t) {
      if (h, c) in Registered(t) {
        RegisteredFrom(t, (h, c));
      }
    }
  }

  lemma TrimmedSlot(t: Table, i: nat)
    requires i < |t.handles| == |t.callbacks| && t.handles[i].Event?
    ensures var u := Trimmed(t);
            && i < |u.handles| == |u.callbacks|
            && u.handles[i] == t.handles[i] && u.callbacks[i] == t.callbacks[i]
  {
  }

  lemma RemovedLayout(t: Table, i: nat, m: nat)
    requires m > 1 && Layout(t, m) && i < |t.handles| && t.handles[i].Event?
    ensures i < |Trimmed(t).handles| && Layout(Swapped(Trimmed(t), i), m)
  {
    TrimmedSame(t, m);
    TrimmedSlot(t, i);
    SwappedLayout(Trimmed(t), i, m);
  }

  lemma RemovedRegisters(t: Table, u: Table, i: nat)
    requires i < |t.handles| == |t.callbacks| && i < |u.handles| == |u.callbacks|
    requires u.handles[i] == t.handles[i] && u.callbacks[i] == t.callbacks[i] && Registered(u) == Registered(t)
    requires u.handles[i].Event? && u.handles[|u.handles| - 1].Event?
    ensures Registered(Swapped(u, i)) == Registered(t) - multiset{(t.handles[i], t.callbacks[i])}
  {
    SwappedRegisters(u, i);
  }

  lemma RemovedFound(t: Table, i: nat)
    requires i < |t.handles| == |t.callbacks| && t.handles[i].Event? && Registered(Trimmed(t)) == Registered(t)
    requires |Trimmed(t).handles| > 0 ==> Trimmed(t).handles[|Trimmed(t).handles| - 1].Event?
    ensures i < |Trimmed(t).handles| == |Trimmed(t).callbacks|
    ensures Registered(Swapped(Trimmed(t), i)) == Registered(t) - multiset{(t.handles[i], t.callbacks[i])}
  {
    TrimmedSlot(t, i);
    RemovedRegisters(t, Trimmed(t), i);
  }

  /** Removal takes out one registration of the handle, if there is one, and keeps the layout. */
  lemma RemovedExactly(t: Table, h: Handle, m: nat)
    requires m > 1 && Layout(t, m) && h.Event?
    ensures Layout(Removed(t, h), m)
    ensures var i := Find(t.handles, h);
            if i == |t.handles| then
              Removed(t, h) == t && forall c :: (h, c) !in Registered(t)
            else
              && Registered(Removed(t, h)) == Registered(t) - multiset{(h, t.callbacks[i])}
              && (h, t.callbacks[i]) in Registered(t)
  {
    var i := Find(t.handles, h);
    if i == |t.handles| {
      NotRegistered(t, h);
    } else {
      RegisteredHas(t, i);
      RemovedLayout(t, i, m);
      TrimmedSame(t, m);
      RemovedFound(t, i);
    }
  }

  /** How often a handle is in the table. */
  function Times(t: Table, h: Handle): nat {
    Occurs(t.handles, h)
  }

  function Occurs(handles: seq<Handle>, h: Handle): nat {
    if handles == [] then 0
    else Occurs(handles[..|handles| - 1], h) + if handles[|handles| - 1] == h then 1 else 0
  }

  lemma OccursAppend(handles: seq<Handle>, h: Handle, x: Handle)
    ensures Occurs(handles + [h], x) == Occurs(handles, x) + if h == x then 1 else 0
  {
    assert (handles + [h])[..|handles|] == handles;
  }

  lemma TimesAdded(t: Table, h: Handle, c: Callback, m: nat, x: Handle)
    requires m > 0 && x.Event?
    ensures Times(Added(t, h, c, m), x) == Times(t, x) + if x == h then 1 else 0
  {
    OccursAppend(t.handles, Spin, x);
    OccursAppend(if Base(|t.handles|, m) then t.handles + [Spin] else t.handles, h, x);
  }

  lemma {:induction false} OccursUpdate(handles: seq<Handle>, i: nat, h: Handle, x: Handle)
    requires i < |handles|
    ensures Occurs(handles[i := h], x) + (if handles[i] == x then 1 else 0)
         == Occurs(handles, x) + if h == x then 1 else 0
  {
    var n := |handles| - 1;
    if i < n {
      OccursUpdate(handles[..n], i, h, x);
      assert handles[i := h][..n] == handles[..n][i := h];
    } else {
      assert handles[i := h][..n] == handles[..n];
    }
  }

  lemma {:induction false} OccursFound(handles: seq<Handle>, h: Handle)
    ensures Occurs(handles, h) > 0 <==> h in handles
  {
    if handles != [] {
      var n := |handles| - 1;
      OccursFound(handles[..n], h);
      assert handles == handles[..n] + [handles[n]];
    }
  }

  lemma TimesSwapped(t: Table, i: nat, x: Handle)
    requires i < |t.handles| == |t.callbacks|
    ensures Times(Swapped(t, i), x) == Times(t, x) - if t.handles[i] == x then 1 else 0
  {
    OccursUpdate(t.handles, i, t.handles[|t.handles| - 1], x);
  }

  lemma TimesRemoved(t: Table, h: Handle, m: nat, x: Handle)
    requires m > 1 && Layout(t, m) && h.Event? && x.Event?
    ensures Times(Removed(t, h), x) == if x == h && Times(t, h) > 0 then Times(t, h) - 1 else Times(t, x)
  {
    var i := Find(t.handles, h);
    OccursFound(t.handles, h);
    if i < |t.handles| {
      assert t.handles[i] in t.handles;
      TimesSwapped(Trimmed(t), i, x);
    }
  }

  // ---------------------------------------------------------------- waiting

  /** How many handles a worker waits for. */
  function Span(size: nat, base: nat, m: nat): nat
    requires base < size
  {
    if size - base < m then size - base else m
  }

  /** Whatever handle of its range a worker is woken for, except by the first, the callback that it calls is the one
      registered for that handle; the functor that aborts is never called. */
  lemma CallsRegistered(t: Table, base: nat, r: nat, m: nat)
    requires m > 1 && Layout(t, m) && Base(base, m) && base < |t.handles| && 1 <= r < Span(|t.handles|, base, m)
    ensures t.handles[base + r].Event? && t.callbacks[base + r].User?
    ensures (t.handles[base + r], t.callbacks[base + r]) in Registered(t)
  {
    Inside(base, r, m);
    RegisteredHas(t, base + r);
  }

  /** A handle is in the range of one block and no other. */
  lemma ServedOnce(t: Table, i: nat, m: nat)
    requires m > 1 && Layout(t, m) && i < |t.handles|
    ensures var b := BaseOf(i, m); b < |t.handles| && b <= i < b + Span(|t.handles|, b, m)
    ensures forall b: nat :: Base(b, m) && b < |t.handles| && b <= i < b + Span(|t.handles|, b, m) ==> b == BaseOf(i, m)
  {
    forall b: nat | Base(b, m) && b < |t.handles| && b <= i < b + Span(|t.handles|, b, m) ensures b == BaseOf(i, m) {
      OneBlock(i, b, m);
    }
  }
}
