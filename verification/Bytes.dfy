/** Bytes, and numbers in the byte order of the machine (little-endian, as on every platform the program runs on).
 */
module Bytes {
  import opened Division

  type byte = x: int | 0 <= x < 256
  type wchar = x: int | 0 <= x < 0x1_0000
  type uint32 = x: int | 0 <= x < 0x1_0000_0000

  const LIMIT32 := 0x1_0000_0000

  /** The k low bytes of x. */
  function Le(x: nat, k: nat): (b: seq<byte>)
    ensures |b| == k
  {
    if k == 0 then [] else [x % 256] + Le(x / 256, k - 1)
  }

  function FromLe(b: seq<byte>): nat {
    if b == [] then 0 else b[0] + 256 * FromLe(b[1..])
  }

  function Pow256(k: nat): nat {
    if k == 0 then 1 else 256 * Pow256(k - 1)
  }

  lemma {:induction false} LeRoundTrip(x: nat, k: nat)
    requires x < Pow256(k)
    ensures FromLe(Le(x, k)) == x
  {
    if k > 0 {
      LeRoundTrip(x / 256, k - 1);
      assert Le(x, k)[1..] == Le(x / 256, k - 1);
    }
  }

  lemma {:induction false} LeUnique(b: seq<byte>)
    ensures FromLe(b) < Pow256(|b|)
    ensures Le(FromLe(b), |b|) == b
  {
    if b != [] {
      LeUnique(b[1..]);
      assert FromLe(b) / 256 == FromLe(b[1..]) && FromLe(b) % 256 == b[0];
      assert b == [b[0]] + b[1..];
    }
  }

  /** Dividing twice. */
  lemma DivideAgain(x: nat, m: nat)
    requires m > 0
    ensures x / 256 / m == x / (256 * m)
  {
    var q, r := x / 256 / m, x / 256 % m;
    assert x / 256 == q * m + r;
    assert x == q * (256 * m) + (256 * r + x % 256);
    DivModUnique(x, q, 256 * r + x % 256, 256 * m);
  }

  lemma {:induction false} PowPositive(k: nat)
    ensures Pow256(k) > 0
  {
    if k > 0 {
      PowPositive(k - 1);
    }
  }

  /** The byte order: the i-th byte is the i-th digit to the base 256, the lowest first. */
  lemma {:induction false} LeDigits(x: nat, k: nat, i: nat)
    requires i < k
    ensures Pow256(i) > 0 && Le(x, k)[i] == x / Pow256(i) % 256
  {
    PowPositive(i);
    if i > 0 {
      LeDigits(x / 256, k - 1, i - 1);
      DivideAgain(x, Pow256(i - 1));
      assert Le(x, k)[i] == Le(x / 256, k - 1)[i - 1];
    }
  }

  lemma Limits()
    ensures Pow256(4) == LIMIT32 && Pow256(2) == 0x1_0000
  {
    assert Pow256(2) == 256 * Pow256(1) && Pow256(1) == 256 * Pow256(0);
    assert Pow256(4) == 256 * Pow256(3) && Pow256(3) == 256 * Pow256(2);
  }

  function U32(x: uint32): (b: seq<byte>)
    ensures |b| == 4
  {
    Le(x, 4)
  }

  /** A DWORD on the wire. */
  lemma U32Bytes(x: uint32)
    ensures U32(x) == [x % 256, x / 256 % 256, x / 65536 % 256, x / 16777216]
  {
    var b := U32(x);
    assert b == [x % 256] + Le(x / 256, 3) && Le(x / 256, 3) == [x / 256 % 256] + Le(x / 256 / 256, 2);
    assert Le(x / 256 / 256, 2) == [x / 256 / 256 % 256] + Le(x / 256 / 256 / 256, 1);
    assert Le(x / 256 / 256 / 256, 1) == [x / 256 / 256 / 256 % 256] + [];
  }

  function ToU32(b: seq<byte>): uint32
    requires |b| == 4
  {
    LeUnique(b);
    Limits();
    FromLe(b)
  }

  lemma U32RoundTrip(x: uint32)
    ensures ToU32(U32(x)) == x
  {
    Limits();
    LeRoundTrip(x, 4);
  }

  lemma U32Unique(b: seq<byte>)
    requires |b| == 4
    ensures U32(ToU32(b)) == b
  {
    LeUnique(b);
  }

  /** The bytes of a wide string, two to a character. */
  function Wide(s: seq<wchar>): (b: seq<byte>)
    ensures |b| == 2 * |s|
  {
    if s == [] then [] else Le(s[0], 2) + Wide(s[1..])
  }

  function Narrow(b: seq<byte>): (s: seq<wchar>)
    requires |b| % 2 == 0
    ensures |s| == |b| / 2
  {
    if b == [] then []
    else
      LeUnique(b[..2]);
      Limits();
      [FromLe(b[..2])] + Narrow(b[2..])
  }

  lemma {:induction false} WideRoundTrip(s: seq<wchar>)
    ensures Narrow(Wide(s)) == s
  {
    if s != [] {
      assert Wide(s)[..2] == Le(s[0], 2) && Wide(s)[2..] == Wide(s[1..]);
      Limits();
      LeRoundTrip(s[0], 2);
      WideRoundTrip(s[1..]);
      assert s == [s[0]] + s[1..];
    }
  }

  lemma {:induction false} WideUnique(b: seq<byte>)
    requires |b| % 2 == 0
    ensures Wide(Narrow(b)) == b
  {
    if b != [] {
      assert Narrow(b)[1..] == Narrow(b[2..]);
      LeUnique(b[..2]);
      WideUnique(b[2..]);
      assert b == b[..2] + b[2..];
    }
  }

  /** A wide string on the wire. */
  lemma {:induction false} WideBytes(s: seq<wchar>, i: nat)
    requires i < |s|
    ensures Wide(s)[2 * i] == s[i] % 256 && Wide(s)[2 * i + 1] == s[i] / 256
  {
    if i > 0 {
      WideBytes(s[1..], i - 1);
      assert Wide(s)[2 * i] == Wide(s[1..])[2 * (i - 1)] && Wide(s)[2 * i + 1] == Wide(s[1..])[2 * (i - 1) + 1];
    } else {
      assert Le(s[0], 2) == [s[0] % 256] + Le(s[0] / 256, 1) && Le(s[0] / 256, 1) == [s[0] / 256 % 256] + [];
    }
  }
}
