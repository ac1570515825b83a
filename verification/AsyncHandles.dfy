/** The handles of asynchronous operations: the kind of operation in the three high bits, a counter below.
 */
module AsyncHandles {
  const LIMIT := 0x1_0000_0000

  /** The weight of the lowest bit of TYPE_MASK. */
  const UNIT := 0x2000_0000

  /** The number of handles of one kind. */
  const CYCLE := 0x1FFF_FFFF

  datatype Kind = Enum | Connect | Send | PInfo | CGroup | DGroup | APGroup | RPGroup

  function TypeBits(k: Kind): (t: nat)
    ensures t % UNIT == 0 && t < LIMIT
  {
    match k
    case Enum => 0x0000_0000
    case Connect => 0x2000_0000
    case Send => 0x4000_0000
    case PInfo => 0x6000_0000
    case CGroup => 0x8000_0000
    case DGroup => 0xA000_0000
    case APGroup => 0xC000_0000
    case RPGroup => 0xE000_0000
  }

  /** handle & TYPE_MASK */
  function Masked(handle: nat): nat {
    handle - handle % UNIT
  }

  /** On these operands the bitwise operators of the source are sums and differences. */
  lemma BitsAreSums(id: bv32, bits: bv32)
    requires id & 0xE000_0000 == 0 && bits & 0x1FFF_FFFF == 0
    ensures id | bits == id + bits
    ensures (id | bits) & 0xE000_0000 == bits && (id | bits) & !0xE000_0000 == id
  {
  }

  /** The n-th handle of a kind. */
  function HandleOf(k: Kind, n: nat): nat {
    TypeBits(k) + n % CYCLE + 1
  }

  /** A handle tells its kind, and is never 0. */
  lemma KindRecovered(k: Kind, n: nat)
    ensures 0 < HandleOf(k, n) < LIMIT
    ensures Masked(HandleOf(k, n)) == TypeBits(k)
    ensures forall l :: TypeBits(l) == Masked(HandleOf(k, n)) ==> l == k
  {
  }

  /** Two handles are the same exactly when they are of one kind and a whole number of cycles apart. */
  lemma SameHandleExactly(k: Kind, m: nat, l: Kind, n: nat)
    ensures HandleOf(k, m) == HandleOf(l, n) <==> k == l && (m - n) % CYCLE == 0
  {
    KindRecovered(k, m);
    KindRecovered(l, n);
    SameRest(m, n);
  }

  lemma SameRest(m: nat, n: nat)
    ensures m % CYCLE == n % CYCLE <==> (m - n) % CYCLE == 0
  {
    if m <= n {
      assert (m - n) % CYCLE == 0 <==> (n - m) % CYCLE == 0;
    }
  }

  /** 0xFFFFFFFF does come up, once in every cycle of one kind, although it is meant to be impossible. */
  lemma AllOnesExactly(k: Kind, n: nat)
    ensures HandleOf(k, n) == 0xFFFF_FFFF <==> k == RPGroup && n % CYCLE == CYCLE - 1
  {
    KindRecovered(k, n);
  }

  class AsyncHandleAllocator {
    var next: map<Kind, nat>

    /** n handles of the kind have been allocated. */
    ghost predicate Allocated(k: Kind, n: nat)
      reads this
    {
      k in next && next[k] == n % CYCLE + 1
    }

    constructor ()
      ensures forall k :: Allocated(k, 0)
    {
      next := map[Enum := 1, Connect := 1, Send := 1, PInfo := 1, CGroup := 1, DGroup := 1, APGroup := 1, RPGroup := 1];
      new;
      forall k ensures Allocated(k, 0) {
        match k
        case Enum =>
        case Connect =>
        case Send =>
        case PInfo =>
        case CGroup =>
        case DGroup =>
        case APGroup =>
        case RPGroup =>
      }
    }

    method New(k: Kind, ghost n: nat) returns (handle: nat)
      requires Allocated(k, n)
      modifies this
      ensures handle == HandleOf(k, n) && Allocated(k, n + 1)
      ensures forall l, m :: l != k && old(Allocated(l, m)) ==> Allocated(l, m)
    {
      handle := next[k] + TypeBits(k);
      var following := (next[k] + 1) % UNIT;
      Following(n);
      next := next[k := if following == 0 then 1 else following];
    }
  }

  lemma Following(n: nat)
    ensures var f := (n % CYCLE + 2) % UNIT; (n + 1) % CYCLE + 1 == if f == 0 then 1 else f
  {
    if n % CYCLE == CYCLE - 1 {
      assert (n + 1) % CYCLE == 0;
    } else {
      assert (n + 1) % CYCLE == n % CYCLE + 1;
    }
  }
}
