/** Looking for free address space near a function that is to be hooked (64-bit build): the two searches of
    minhook/src/buffer.c over what VirtualQuery() reports.
 */
module Regions {
  type Addr = nat

  const NULL: Addr := 0
  const MEMORY_BLOCK_SIZE := 0x1000
  const MAX_MEMORY_RANGE := 0x4000_0000

  /** What VirtualQuery() says of an address: nothing, that it is free, or the allocation and the region it is in. */
  datatype Region = Unknown | Free | Taken(allocationBase: Addr, baseAddress: Addr, regionSize: nat)

  /** The system's part: the limits of GetSystemInfo(), the map of the address space, and the addresses at which
      VirtualAlloc() would succeed. */
  datatype System = System(lowest: Addr, highest: Addr, granularity: nat, query: Addr -> Region, alloc: Addr -> bool)

  /** The granularity is 64 KB; application addresses start above it. A region contains the address asked for, and no
      address of a taken region, or of its allocation up to there, is free. */
  ghost predicate Honest(sys: System) {
    && sys.granularity == 0x1_0000 && sys.granularity <= sys.lowest
    && (forall a: Addr :: sys.query(a).Taken? ==>
          var r := sys.query(a);
          r.allocationBase <= a && r.allocationBase % sys.granularity == 0
          && r.baseAddress <= a < r.baseAddress + r.regionSize)
    && (forall a: Addr, x: Addr :: sys.query(a).Taken? && sys.query(a).allocationBase <= x <= a ==> !sys.query(x).Free?)
    && (forall a: Addr, x: Addr ::
          && sys.query(a).Taken?
          && sys.query(a).baseAddress <= x < sys.query(a).baseAddress + sys.query(a).regionSize ==>
            !sys.query(x).Free?)
  }

  function RoundDown(a: Addr, g: nat): (r: Addr)
    requires g == 0x1_0000
    ensures r % g == 0 && r <= a < r + g
  {
    a - a % g
  }

  /** Free space on a granule boundary. */
  predicate Usable(sys: System, a: Addr)
    requires sys.granularity > 0
  {
    a % sys.granularity == 0 && sys.query(a).Free?
  }

  /** The nearest usable address below the one given, not under minAddr. NULL means that there is none, or that
      VirtualQuery() gave no answer for an address in between. */
  method FindPrevFreeRegion(sys: System, address: Addr, minAddr: Addr) returns (r: Addr)
    requires Honest(sys) && sys.lowest <= minAddr <= address
    ensures r != NULL ==> minAddr <= r < address && Usable(sys, r)
    ensures r != NULL ==> forall a :: r < a < RoundDown(address, sys.granularity) ==> !Usable(sys, a)
    ensures r == NULL ==>
              || (forall a :: minAddr <= a < RoundDown(address, sys.granularity) ==> !Usable(sys, a))
              || Obscured(sys, minAddr, address)
  {
    var g := sys.granularity;
    var top := RoundDown(address, g);
    var tryAddr: Addr := top - g;
    while tryAddr >= minAddr
      invariant tryAddr % g == 0 && tryAddr + g <= top
      invariant forall a :: tryAddr + g <= a < top ==> !Usable(sys, a)
      decreases tryAddr
    {
      Between(sys, tryAddr, tryAddr + g);
      var mbi := sys.query(tryAddr);
      if mbi.Unknown? {
        return NULL;
      }
      if mbi.Free? {
        return tryAddr;
      }
      if mbi.allocationBase < g {
        return NULL;
      }
      tryAddr := mbi.allocationBase - g;
    }
    Between(sys, tryAddr, tryAddr + g);
    return NULL;
  }

  /** Two neighbouring granule boundaries have none in between. */
  lemma Between(sys: System, lo: Addr, hi: Addr)
    requires sys.granularity == 0x1_0000 && lo % sys.granularity == 0 && hi == lo + sys.granularity
    ensures forall a :: lo < a < hi ==> !Usable(sys, a)
  {
  }

  /** The nearest usable address above the granule of the one given, not over maxAddr. */
  method FindNextFreeRegion(sys: System, address: Addr, maxAddr: int) returns (r: Addr)
    requires Honest(sys)
    ensures r != NULL ==> address < r <= maxAddr && Usable(sys, r)
    ensures r != NULL ==> forall a :: address < a < r ==> !Usable(sys, a)
    ensures r == NULL ==>
              || (forall a :: address < a <= maxAddr ==> !Usable(sys, a))
              || Obscured(sys, address, maxAddr)
  {
    var g := sys.granularity;
    var tryAddr := RoundDown(address, g) + g;
    Between(sys, RoundDown(address, g), tryAddr);
    while tryAddr <= maxAddr
      invariant tryAddr % g == 0 && address < tryAddr
      invariant forall a :: address < a < tryAddr ==> !Usable(sys, a)
      decreases maxAddr - tryAddr
    {
      var mbi := sys.query(tryAddr);
      if mbi.Unknown? {
        return NULL;
      }
      if mbi.Free? {
        return tryAddr;
      }
      var end := mbi.baseAddress + mbi.regionSize;
      tryAddr := RoundDown(end + g - 1, g);
      NoneBefore(sys, end);
    }
    return NULL;
  }

  lemma NoneBefore(sys: System, end: Addr)
    requires sys.granularity == 0x1_0000
    ensures var up := RoundDown(end + sys.granularity - 1, sys.granularity);
            end <= up && forall a :: end <= a < up ==> !Usable(sys, a)
  {
  }

  // ---------------------------------------------------------------- the range around the origin

  /** A block may start from here: the system's lowest address, or the one that is MAX_MEMORY_RANGE below the origin. */
  function Lowest(sys: System, origin: Addr): (r: Addr)
    ensures r >= sys.lowest && r >= origin - MAX_MEMORY_RANGE
    ensures r == sys.lowest || r == origin - MAX_MEMORY_RANGE
  {
    if origin > MAX_MEMORY_RANGE && sys.lowest < origin - MAX_MEMORY_RANGE
    then origin - MAX_MEMORY_RANGE
    else sys.lowest
  }

  /** ... to here, so that its last byte is in range. */
  function Highest(sys: System, origin: Addr): (r: int)
    ensures r + MEMORY_BLOCK_SIZE - 1 <= sys.highest && r + MEMORY_BLOCK_SIZE - 1 <= origin + MAX_MEMORY_RANGE
    ensures r + MEMORY_BLOCK_SIZE - 1 == sys.highest || r + MEMORY_BLOCK_SIZE - 1 == origin + MAX_MEMORY_RANGE
  {
    var top := if sys.highest > origin + MAX_MEMORY_RANGE then origin + MAX_MEMORY_RANGE else sys.highest;
    top - (MEMORY_BLOCK_SIZE - 1)
  }

  /** Every byte of a block is within reach of the origin. */
  predicate Near(origin: Addr, block: Addr) {
    origin - MAX_MEMORY_RANGE <= block && block + MEMORY_BLOCK_SIZE - 1 <= origin + MAX_MEMORY_RANGE
  }

  /** VirtualQuery() does not answer for some address from lo to hi. */
  ghost predicate Obscured(sys: System, lo: int, hi: int) {
    exists a: Addr :: lo <= a <= hi && sys.query(a).Unknown?
  }

  /** No granule from lo to hi, the ends left out, is usable and can be had. */
  ghost predicate NoneIn(sys: System, lo: int, hi: int)
    requires sys.granularity > 0
  {
    forall a: Addr :: lo < a < hi && Usable(sys, a) ==> !sys.alloc(a)
  }

  /** VirtualAlloc() for a new block below the origin. */
  method NewRegionBelow(sys: System, origin: Addr) returns (block: Addr)
    requires Honest(sys)
    ensures block != NULL ==> Lowest(sys, origin) <= block < origin && block % sys.granularity == 0 && sys.alloc(block)
    ensures block == NULL ==>
              || Obscured(sys, Lowest(sys, origin), origin)
              || NoneIn(sys, Lowest(sys, origin) - 1, RoundDown(origin, sys.granularity))
  {
    var minAddr := Lowest(sys, origin);
    var pAlloc := origin;
    while pAlloc >= minAddr
      invariant pAlloc <= origin
      invariant pAlloc == origin || pAlloc % sys.granularity == 0
      invariant NoneIn(sys, pAlloc - 1, RoundDown(origin, sys.granularity))
      decreases pAlloc
    {
      pAlloc := FindPrevFreeRegion(sys, pAlloc, minAddr);
      if pAlloc == NULL {
        return NULL;
      }
      if sys.alloc(pAlloc) {
        return pAlloc;
      }
    }
    return NULL;
  }

  method NewRegionAbove(sys: System, origin: Addr) returns (block: Addr)
    requires Honest(sys)
    ensures block != NULL ==> origin < block <= Highest(sys, origin) && block % sys.granularity == 0 && sys.alloc(block)
    ensures block == NULL ==>
              Obscured(sys, origin, Highest(sys, origin)) || NoneIn(sys, origin, Highest(sys, origin) + 1)
  {
    var maxAddr := Highest(sys, origin);
    var pAlloc := origin;
    while pAlloc <= maxAddr
      invariant origin <= pAlloc
      invariant NoneIn(sys, origin, pAlloc + 1)
      decreases maxAddr - pAlloc
    {
      pAlloc := FindNextFreeRegion(sys, pAlloc, maxAddr);
      if pAlloc == NULL {
        return NULL;
      }
      if sys.alloc(pAlloc) {
        return pAlloc;
      }
    }
    return NULL;
  }

  /** A block at this address lies in the system's range and in that of the origin. */
  predicate InRange(sys: System, origin: Addr, a: Addr) {
    && sys.lowest <= a && origin - MAX_MEMORY_RANGE <= a
    && a + MEMORY_BLOCK_SIZE - 1 <= sys.highest && a + MEMORY_BLOCK_SIZE - 1 <= origin + MAX_MEMORY_RANGE
  }

  /** VirtualQuery() does not answer for some address that the searches may come to. */
  ghost predicate NoAnswer(sys: System, origin: Addr) {
    exists a: Addr ::
      && sys.query(a).Unknown?
      && (sys.lowest <= a || origin <= a) && origin - MAX_MEMORY_RANGE <= a
      && (a <= origin || (&& a + MEMORY_BLOCK_SIZE - 1 <= sys.highest
                          && a + MEMORY_BLOCK_SIZE - 1 <= origin + MAX_MEMORY_RANGE))
  }

  /** No free granule in range can be had, the one apart that the origin is in. */
  ghost predicate NoneToHave(sys: System, origin: Addr)
    requires sys.granularity == 0x1_0000
  {
    forall a: Addr ::
      && InRange(sys, origin, a) && Usable(sys, a)
      && (a < RoundDown(origin, sys.granularity) || origin < a) ==>
        !sys.alloc(a)
  }

  /** A new block is within reach of the origin. There is none only if none can be had, or the system did not answer. */
  method NewRegion(sys: System, origin: Addr) returns (block: Addr)
    requires Honest(sys)
    ensures block != NULL ==> Near(origin, block) && block % sys.granularity == 0 && sys.alloc(block)
    ensures block == NULL ==> NoAnswer(sys, origin) || NoneToHave(sys, origin)
  {
    block := NewRegionBelow(sys, origin);
    if block == NULL {
      block := NewRegionAbove(sys, origin);
      if block == NULL {
        NothingFound(sys, origin);
      }
    }
  }

  lemma NothingFound(sys: System, origin: Addr)
    requires sys.granularity == 0x1_0000
    requires || Obscured(sys, Lowest(sys, origin), origin)
             || NoneIn(sys, Lowest(sys, origin) - 1, RoundDown(origin, sys.granularity))
    requires Obscured(sys, origin, Highest(sys, origin)) || NoneIn(sys, origin, Highest(sys, origin) + 1)
    ensures NoAnswer(sys, origin) || NoneToHave(sys, origin)
  {
    if Obscured(sys, Lowest(sys, origin), origin) {
      var a: Addr :| Lowest(sys, origin) <= a <= origin && sys.query(a).Unknown?;
      assert NoAnswer(sys, origin);
    } else if Obscured(sys, origin, Highest(sys, origin)) {
      var a: Addr :| origin <= a <= Highest(sys, origin) && sys.query(a).Unknown?;
      assert NoAnswer(sys, origin);
    }
  }
}
