/** The slots that hold hook trampolines (64-bit build): page-sized blocks, each with a list of free slots threaded
    through the slots themselves, and found again from a slot by rounding its address.
 */
module SlotAllocator {
  import opened Regions

  const MEMORY_SLOT_SIZE := 64

  /** pNext of each slot, in memory. */
  type Links = map<Addr, Addr>

  // ---------------------------------------------------------------- slots

  /** The block's header takes the place of slot 0. */
  predicate IsSlot(b: Addr, p: Addr) {
    b + MEMORY_SLOT_SIZE <= p <= b + MEMORY_BLOCK_SIZE - MEMORY_SLOT_SIZE && (p - b) % MEMORY_SLOT_SIZE == 0
  }

  function BlockOf(p: Addr): Addr {
    p / MEMORY_BLOCK_SIZE * MEMORY_BLOCK_SIZE
  }

  predicate Aligned(b: Addr) {
    b % MEMORY_BLOCK_SIZE == 0
  }

  /** Rounding a slot's address finds the block it was taken from. */
  lemma RoundingFindsBlock(b: Addr, p: Addr)
    requires Aligned(b) && IsSlot(b, p)
    ensures BlockOf(p) == b
  {
  }

  /** Slots do not overlap, neither with each other nor with the header. */
  lemma SlotsApart(b: Addr, p: Addr, c: Addr, q: Addr)
    requires Aligned(b) && Aligned(c) && IsSlot(b, p) && IsSlot(c, q) && p != q
    ensures p + MEMORY_SLOT_SIZE <= q || q + MEMORY_SLOT_SIZE <= p
    ensures b + MEMORY_SLOT_SIZE <= p && p + MEMORY_SLOT_SIZE <= b + MEMORY_BLOCK_SIZE
  {
  }

  // ---------------------------------------------------------------- the free list of a block

  /** The list that starts at p runs through these slots. */
  predicate Chain(links: Links, p: Addr, free: seq<Addr>)
    decreases |free|
  {
    if free == [] then p == NULL
    else p == free[0] && p in links && Chain(links, links[p], free[1..])
  }

  lemma {:induction false} ChainFrame(links: Links, links': Links, p: Addr, free: seq<Addr>)
    requires Chain(links, p, free)
    requires forall x :: x in free && x in links ==> x in links' && links'[x] == links[x]
    ensures Chain(links', p, free)
    decreases |free|
  {
    if free != [] {
      ChainFrame(links, links', links[p], free[1..]);
    }
  }

  predicate NoRepeats(s: seq<Addr>) {
    forall i, j :: 0 <= i < j < |s| ==> s[i] != s[j]
  }

  function LiveIn(live: set<Addr>, b: Addr): set<Addr> {
    set p | p in live && IsSlot(b, p)
  }

  /** The free list and the live slots share the block out between them, and usedCount counts the latter. */
  ghost predicate Shared(free: seq<Addr>, used: nat, live: set<Addr>, b: Addr) {
    && NoRepeats(free)
    && (forall p :: p in free ==> IsSlot(b, p) && p !in live)
    && (forall p :: IsSlot(b, p) ==> p in live || p in free)
    && used == |LiveIn(live, b)|
  }

  lemma TakeShared(free: seq<Addr>, used: nat, live: set<Addr>, b: Addr)
    requires Shared(free, used, live, b) && free != []
    ensures Shared(free[1..], used + 1, live + {free[0]}, b)
  {
    var p := free[0];
    assert LiveIn(live + {p}, b) == LiveIn(live, b) + {p};
    assert forall x :: x in free <==> x == p || x in free[1..];
  }

  lemma GiveShared(free: seq<Addr>, used: nat, live: set<Addr>, b: Addr, p: Addr)
    requires Shared(free, used, live, b) && p in live && IsSlot(b, p)
    ensures used > 0 && Shared([p] + free, used - 1, live - {p}, b)
  {
    assert LiveIn(live, b) == LiveIn(live - {p}, b) + {p};
  }

  /** Slots of other blocks do not matter to a block. */
  lemma OtherShared(free: seq<Addr>, used: nat, live: set<Addr>, live': set<Addr>, b: Addr)
    requires Shared(free, used, live, b)
    requires forall p :: IsSlot(b, p) ==> (p in live <==> p in live')
    ensures Shared(free, used, live', b)
  {
    assert LiveIn(live', b) == LiveIn(live, b);
  }

  // ---------------------------------------------------------------- the list of a new block

  /** The slots of a new block below address p, last first. */
  function FreshSlots(b: Addr, k: nat): seq<Addr> {
    if k == 0 then [] else [b + k * MEMORY_SLOT_SIZE] + FreshSlots(b, k - 1)
  }

  lemma {:induction false} FreshSlotsExact(b: Addr, k: nat)
    ensures |FreshSlots(b, k)| == k
    ensures forall i :: 0 <= i < k ==> FreshSlots(b, k)[i] == b + (k - i) * MEMORY_SLOT_SIZE
  {
    if k > 0 {
      FreshSlotsExact(b, k - 1);
    }
  }

  /** When all have been linked, every slot of the block is free. */
  lemma FreshShared(b: Addr, k: nat, live: set<Addr>)
    requires (k + 1) * MEMORY_SLOT_SIZE == MEMORY_BLOCK_SIZE && forall p :: p in live ==> !IsSlot(b, p)
    ensures Shared(FreshSlots(b, k), 0, live, b)
  {
    var free := FreshSlots(b, k);
    FreshSlotsExact(b, k);
    assert LiveIn(live, b) == {};
    forall p: Addr | IsSlot(b, p) ensures p in free {
      var i := (p - b) / MEMORY_SLOT_SIZE;
      assert p == b + i * MEMORY_SLOT_SIZE && 1 <= i <= k;
      assert free[k - i] == p;
    }
  }

  /** The loop that links the slots of a new block. */
  method BuildList(links: Links, block: Addr, ghost live: set<Addr>)
    returns (links': Links, head: Addr, ghost free: seq<Addr>)
    requires forall p :: p in live ==> !IsSlot(block, p)
    ensures Chain(links', head, free) && free != [] && Shared(free, 0, live, block)
    ensures forall x :: x in links && !IsSlot(block, x) ==> x in links' && links'[x] == links[x]
  {
    links', head := links, NULL;
    var slot := block + MEMORY_SLOT_SIZE;
    ghost var k := 0;
    while slot - block <= MEMORY_BLOCK_SIZE - MEMORY_SLOT_SIZE
      invariant 0 <= k <= 63 && slot == block + (k + 1) * MEMORY_SLOT_SIZE
      invariant Chain(links', head, FreshSlots(block, k))
      invariant forall x :: x in links && !IsSlot(block, x) ==> x in links' && links'[x] == links[x]
      decreases MEMORY_BLOCK_SIZE - (slot - block)
    {
      ghost var was := links';
      links' := links'[slot := head];
      FreshSlotsExact(block, k);
      ChainFrame(was, links', head, FreshSlots(block, k));
      assert IsSlot(block, slot);
      head := slot;
      slot := slot + MEMORY_SLOT_SIZE;
      k := k + 1;
      assert FreshSlots(block, k)[1..] == FreshSlots(block, k - 1);
    }
    free := FreshSlots(block, k);
    FreshShared(block, k, live);
  }

  // ---------------------------------------------------------------- the allocator

  ghost predicate Holds(
    pFree: map<Addr, Addr>, usedCount: map<Addr, nat>, links: Links, free: map<Addr, seq<Addr>>, live: set<Addr>,
    b: Addr)
  {
    && b in pFree && b in usedCount && b in free
    && b != NULL && Aligned(b)
    && Chain(links, pFree[b], free[b])
    && Shared(free[b], usedCount[b], live, b)
  }

  /** Linking a new block leaves the others as they are. */
  lemma HoldsStill(
    pFree: map<Addr, Addr>, usedCount: map<Addr, nat>, links: Links, free: map<Addr, seq<Addr>>, live: set<Addr>,
    b: Addr,
    block: Addr, head: Addr, links': Links, all: seq<Addr>)
    requires Holds(pFree, usedCount, links, free, live, b) && b != block && Aligned(block)
    requires forall x :: x in links && !IsSlot(block, x) ==> x in links' && links'[x] == links[x]
    ensures Holds(pFree[block := head], usedCount[block := 0], links', free[block := all], live, b)
  {
    NotOfOther(b, block, free[b]);
    ChainFrame(links, links', pFree[b], free[b]);
  }

  /** `order` is the list g_pMemoryBlocks; `free` and `live` are what the links and the callers' pointers stand for. */
  class Allocator {
    var order: seq<Addr>
    var pFree: map<Addr, Addr>
    var usedCount: map<Addr, nat>
    var links: Links
    ghost var free: map<Addr, seq<Addr>>
    ghost var live: set<Addr>

    ghost predicate BlockOk(b: Addr)
      reads this`pFree, this`usedCount, this`links, this`free, this`live
    {
      Holds(pFree, usedCount, links, free, live, b)
    }

    ghost predicate InUse(b: Addr)
      reads this`usedCount
    {
      b in usedCount && usedCount[b] > 0
    }

    ghost predicate Valid()
      reads this
    {
      && NoRepeats(order)
      && (forall b :: b in order ==> BlockOk(b) && InUse(b))
      && (forall p :: p in live ==> BlockOf(p) in order && IsSlot(BlockOf(p), p))
    }

    constructor ()
      ensures Valid() && order == [] && live == {}
    {
      order, pFree, usedCount, links, free, live := [], map[], map[], map[], map[], {};
    }

    ghost predicate BlocksOk()
      reads this
    {
      && NoRepeats(order)
      && (forall b :: b in order ==> BlockOk(b))
      && (forall p :: p in live ==> BlockOf(p) in order && IsSlot(BlockOf(p), p))
    }

    /** A caller may write into a slot that it has. */
    method Use(p: Addr, value: Addr)
      requires Valid() && p in live
      modifies this`links
      ensures Valid()
    {
      ghost var was := links;
      links := links[p := value];
      forall b | b in order ensures BlockOk(b) {
        ChainFrame(was, links, pFree[b], free[b]);
      }
    }

    /** Links a new block in, at the head of the list. */
    method AddBlock(block: Addr)
      requires Valid() && block != NULL && Aligned(block) && block !in order
      modifies this
      ensures BlocksOk() && order == [block] + old(order) && live == old(live)
      ensures block in free && free[block] != [] && block in usedCount && usedCount[block] == 0
      ensures forall b :: b in old(order) ==> InUse(b)
    {
      NoneLive(block, live, order);
      var links', head, all := BuildList(links, block, live);
      forall b | b in order
        ensures Holds(pFree[block := head], usedCount[block := 0], links', free[block := all], live, b)
      {
        assert BlockOk(b);
        HoldsStill(pFree, usedCount, links, free, live, b, block, head, links', all);
      }
      links := links';
      pFree, usedCount := pFree[block := head], usedCount[block := 0];
      free := free[block := all];
      order := [block] + order;
    }

    /** A registered block that is not too far has a free slot. */
    ghost predicate HasFree(sys: System, origin: Addr)
      reads this`order, this`pFree
    {
      exists b ::
        && b in order && b in pFree && pFree[b] != NULL
        && sys.lowest <= b && origin - MAX_MEMORY_RANGE <= b
        && b + MEMORY_BLOCK_SIZE - 1 < sys.highest && b + MEMORY_BLOCK_SIZE - 1 < origin + MAX_MEMORY_RANGE
    }

    /** The first registered block in reach that has a free slot, or NULL. */
    method Lookup(sys: System, origin: Addr) returns (block: Addr)
      requires Valid()
      ensures block != NULL ==> block in order && pFree[block] != NULL && Near(origin, block)
      ensures block == NULL <==> !HasFree(sys, origin)
    {
      var minAddr, maxAddr := Lowest(sys, origin), Highest(sys, origin);
      assert forall k :: 0 <= k < |order| ==> BlockOk(order[k]);
      for i := 0 to |order|
        invariant forall k :: 0 <= k < i && minAddr <= order[k] < maxAddr ==> pFree[order[k]] == NULL
      {
        var b := order[i];
        assert BlockOk(b);
        if minAddr <= b < maxAddr && pFree[b] != NULL {
          return b;
        }
      }
      return NULL;
    }

    method GetMemoryBlock(sys: System, origin: Addr) returns (block: Addr)
      requires Valid() && Honest(sys) && forall b :: b in order ==> !sys.alloc(b)
      modifies this
      ensures BlocksOk() && live == old(live)
      ensures block == NULL ==> Valid() && order == old(order)
      ensures block == NULL ==> !old(HasFree(sys, origin))
      ensures block == NULL ==> NoAnswer(sys, origin) || NoneToHave(sys, origin)
      ensures block != NULL ==> block in order && block in free && free[block] != [] && Near(origin, block)
      ensures OthersInUse(block)
      ensures block != NULL ==> order == if old(HasFree(sys, origin)) then old(order) else [block] + old(order)
    {
      block := Lookup(sys, origin);
      if block != NULL {
        assert BlockOk(block);
        return;
      }
      block := FreshBlock(sys, origin);
      if block != NULL {
        AddBlock(block);
      }
    }

    method FreshBlock(sys: System, origin: Addr) returns (block: Addr)
      requires Honest(sys) && forall b :: b in order ==> !sys.alloc(b)
      ensures block != NULL ==> Near(origin, block) && Aligned(block) && block !in order
      ensures block == NULL ==> NoAnswer(sys, origin) || NoneToHave(sys, origin)
    {
      block := NewRegion(sys, origin);
      if block != NULL {
        GranuleAligned(block);
      }
    }

    /** A slot near the origin that nobody has, from a registered block in reach if one has a free slot, and from a new
        block otherwise; NULL and no change if there is no such block and none can be had. */
    method AllocateBuffer(sys: System, origin: Addr) returns (p: Addr)
      requires Valid() && Honest(sys) && forall b :: b in order ==> !sys.alloc(b)
      modifies this
      ensures Valid()
      ensures p == NULL ==> live == old(live) && order == old(order)
      ensures p == NULL ==> !old(HasFree(sys, origin)) && (NoAnswer(sys, origin) || NoneToHave(sys, origin))
      ensures p != NULL ==> if old(HasFree(sys, origin)) then order == old(order)
                            else order == [BlockOf(p)] + old(order)
      ensures p != NULL ==> p !in old(live) && live == old(live) + {p}
      ensures p != NULL ==> Near(origin, BlockOf(p)) && IsSlot(BlockOf(p), p)
    {
      var block := GetMemoryBlock(sys, origin);
      if block == NULL {
        return NULL;
      }
      p := TakeFrom(block);
    }

    method TakeFrom(block: Addr) returns (p: Addr)
      requires BlocksOk() && block in order && block in free && free[block] != [] && OthersInUse(block)
      modifies this`pFree, this`usedCount, this`free, this`live
      ensures Valid() && p !in old(live) && live == old(live) + {p}
      ensures p != NULL && BlockOf(p) == block && IsSlot(block, p)
    {
      assert BlockOk(block);
      p := pFree[block];
      RoundingFindsBlock(block, p);
      Take(block, p);
    }

    /** Takes the first slot off a block's list. */
    method Take(block: Addr, p: Addr)
      requires BlocksOk() && block in order && free[block] != [] && p == pFree[block]
      requires forall b :: b in order && b != block ==> InUse(b)
      modifies this`pFree, this`usedCount, this`free, this`live
      ensures Valid() && live == old(live) + {p}
    {
      assert BlockOk(block);
      ghost var live' := live + {p};
      RoundingFindsBlock(block, p);
      TakeShared(free[block], usedCount[block], live, block);
      forall b | b in order && b != block ensures Shared(free[b], usedCount[b], live', b) {
        assert BlockOk(b);
        if IsSlot(b, p) {
          RoundingFindsBlock(b, p);
        }
        OtherShared(free[b], usedCount[b], live, live', b);
      }
      pFree := pFree[block := links[p]];
      usedCount := usedCount[block := usedCount[block] + 1];
      free := free[block := free[block][1..]];
      live := live';
      assert BlockOk(block);
      forall b | b in order ensures BlockOk(b) {
      }
    }

    /** What freeing a slot in use makes of the lists. */
    lemma Given(block: Addr, p: Addr)
      requires Valid() && block in order && p in live && block == BlockOf(p)
      ensures usedCount[block] > 0
      ensures var links' := links[p := pFree[block]];
              forall b :: b in order ==>
                Holds(pFree[block := p], usedCount[block := usedCount[block] - 1], links',
                      free[block := [p] + free[block]], live - {p}, b)
    {
      var links', live' := links[p := pFree[block]], live - {p};
      assert BlockOk(block);
      GiveShared(free[block], usedCount[block], live, block, p);
      forall b | b in order ensures Chain(links', pFree[b], free[b]) {
        assert BlockOk(b);
        ChainFrame(links, links', pFree[b], free[b]);
      }
      assert ([p] + free[block])[1..] == free[block];
      forall b | b in order && b != block ensures Shared(free[b], usedCount[b], live', b) {
        assert BlockOk(b);
        if IsSlot(b, p) {
          RoundingFindsBlock(b, p);
        }
        OtherShared(free[b], usedCount[b], live, live', b);
      }
    }

    /** usedCount of the block counts the slots in use, or is one too low. */
    ghost predicate Counts(block: Addr, low: nat)
      reads this`usedCount, this`live
    {
      block in usedCount && usedCount[block] + low == |LiveIn(live, block)|
    }

    ghost predicate OthersInUse(block: Addr)
      reads this`order, this`usedCount
    {
      forall b :: b in order && b != block ==> InUse(b)
    }

    /** Puts an address at the head of its block's list. */
    method Give(block: Addr, p: Addr)
      requires Valid() && block in order && block == BlockOf(p)
      modifies this`pFree, this`usedCount, this`links, this`free, this`live
      ensures live == old(live) - {p} && OthersInUse(block)
      ensures if p in old(live) then BlocksOk() && Counts(block, 0) else Counts(block, 1)
    {
      assert BlockOk(block) && InUse(block);
      if p in live {
        Given(block, p);
        free := free[block := [p] + free[block]];
      } else {
        assert live - {p} == live;
      }
      links := links[p := pFree[block]];
      pFree := pFree[block := p];
      usedCount := usedCount[block := usedCount[block] - 1];
      live := live - {p};
      if p in old(live) {
        assert BlockOk(block);
      }
    }

    /** FreeBuffer() takes back a slot that is in use; it ignores an address that is in no block. The block goes with
        its last slot, and only then. For any other address in a block, such as a slot freed twice, it does the same
        without asking, and the allocator is broken from then on. */
    method FreeBuffer(p: Addr)
      requires Valid()
      modifies this
      ensures Valid() <==> p in old(live) || BlockOf(p) !in old(order)
      ensures live == old(live) - {p}
      ensures BlockOf(p) !in old(order) ==> order == old(order)
      ensures p in old(live) ==>
                if LiveIn(old(live), BlockOf(p)) == {p} then Unlinked(old(order), order, BlockOf(p))
                else order == old(order)
    {
      var target := BlockOf(p);
      var i := 0;
      while i < |order| && order[i] != target
        invariant i <= |order| && forall k :: 0 <= k < i ==> order[k] != target
      {
        i := i + 1;
      }
      if i < |order| {
        FreeIn(i, p);
      }
    }

    /** The part of FreeBuffer() for the block that it has found. */
    method FreeIn(i: nat, p: Addr)
      requires Valid() && i < |order| && order[i] == BlockOf(p)
      modifies this
      ensures Valid() <==> p in old(live)
      ensures live == old(live) - {p}
      ensures p in old(live) ==>
                if LiveIn(old(live), BlockOf(p)) == {p} then Unlinked(old(order), order, BlockOf(p))
                else order == old(order)
    {
      var block := order[i];
      ghost var was := order;
      assert BlockOk(block);
      Give(block, p);
      if p in old(live) {
        LastOne(old(live), block, p);
      }
      if usedCount[block] == 0 {
        Release(i);
        assert Unlinked(was, order, block);
      }
      Verdict(block, p in old(live));
    }

    /** What has become of the allocator. */
    lemma Verdict(block: Addr, sound: bool)
      requires Aligned(block) && block in usedCount
      requires sound && usedCount[block] == 0 ==> Valid()
      requires sound && usedCount[block] > 0 ==> BlocksOk() && OthersInUse(block)
      requires !sound ==> Counts(block, 1) && if usedCount[block] == 0 then block !in order else block in order
      ensures Valid() <==> sound
    {
      if !sound && usedCount[block] == 0 {
        var q :| q in LiveIn(live, block);
        RoundingFindsBlock(block, q);
      }
    }

    /** Only this block has no slots in use. */
    ghost predicate Emptied(block: Addr)
      reads this
    {
      BlocksOk() && block in usedCount && usedCount[block] == 0 && OthersInUse(block)
    }

    /** Unlinks a block, which leaves the rest in order if it has no slots in use. */
    method Release(i: nat)
      requires NoRepeats(order) && i < |order|
      modifies this`order
      ensures order == old(order)[..i] + old(order)[i + 1..] && old(order)[i] !in order
      ensures old(Emptied(order[i])) ==> Valid()
    {
      ghost var was, sound := order, Emptied(order[i]);
      order := order[..i] + order[i + 1..];
      if sound {
        StillValid(was, i);
      }
    }

    lemma StillValid(was: seq<Addr>, i: nat)
      requires NoRepeats(was) && i < |was| && order == was[..i] + was[i + 1..]
      requires (forall b :: b in was ==> BlockOk(b)) && was[i] in usedCount && usedCount[was[i]] == 0
      requires forall b :: b in was && b != was[i] ==> InUse(b)
      requires forall p :: p in live ==> BlockOf(p) in was && IsSlot(BlockOf(p), p)
      ensures Valid()
    {
      assert BlockOk(was[i]);
      assert LiveIn(live, was[i]) == {};
      forall b | b in order ensures BlockOk(b) && InUse(b) && b in was && b != was[i] {
      }
      forall p | p in live ensures BlockOf(p) in order {
        assert BlockOf(p) in was;
        assert p !in LiveIn(live, was[i]);
      }
    }
  }

  /** The list without one of its blocks. */
  ghost predicate Unlinked(was: seq<Addr>, now: seq<Addr>, b: Addr) {
    exists i :: 0 <= i < |was| && was[i] == b && now == was[..i] + was[i + 1..]
  }

  lemma NoneLive(block: Addr, live: set<Addr>, order: seq<Addr>)
    requires Aligned(block) && block !in order && forall p :: p in live ==> BlockOf(p) in order
    ensures forall p :: p in live ==> !IsSlot(block, p)
  {
    forall p | p in live ensures !IsSlot(block, p) {
      if IsSlot(block, p) {
        RoundingFindsBlock(block, p);
      }
    }
  }

  lemma NotOfOther(b: Addr, block: Addr, free: seq<Addr>)
    requires Aligned(b) && Aligned(block) && b != block && forall x :: x in free ==> IsSlot(b, x)
    ensures forall x :: x in free ==> !IsSlot(block, x)
  {
    forall x | x in free ensures !IsSlot(block, x) {
      RoundingFindsBlock(b, x);
      if IsSlot(block, x) {
        RoundingFindsBlock(block, x);
      }
    }
  }

  lemma GranuleAligned(a: Addr)
    requires a % 0x1_0000 == 0
    ensures Aligned(a)
  {
    assert a == (a / 0x1_0000 * 16) * MEMORY_BLOCK_SIZE;
  }

  lemma LastOne(live: set<Addr>, b: Addr, p: Addr)
    requires p in live && IsSlot(b, p)
    ensures |LiveIn(live - {p}, b)| == 0 <==> LiveIn(live, b) == {p}
  {
    assert LiveIn(live - {p}, b) == LiveIn(live, b) - {p};
  }
}
