/** Cutting the byte stream of a TCP connection back into packets, as io_peer_recv() does in its receive buffer.
 */
module Framing {
  import opened Bytes
  import opened Packet

  const MAX_PACKET_SIZE := 256 * 1024

  type Bytestring = seq<byte>

  /** What the receiver does next: wait for more bytes, or drop the connection over a packet that is too big or does
      not parse. */
  datatype Ending = More | TooBig | Bad

  datatype Split = Split(packets: seq<Bytestring>, rest: Bytestring, ending: Ending)

  function SizeOf(b: Bytestring): nat
    requires |b| >= HEADER
  {
    HEADER + LengthOf(b)
  }

  /** There is a whole packet at the front. */
  predicate Complete(b: Bytestring) {
    |b| >= HEADER && SizeOf(b) <= MAX_PACKET_SIZE && SizeOf(b) <= |b| && Parse(b[..SizeOf(b)]).Ok?
  }

  /** Why there is none. */
  function EndingOf(b: Bytestring): Ending {
    if |b| < HEADER then More
    else if SizeOf(b) > MAX_PACKET_SIZE then TooBig
    else if |b| < SizeOf(b) then More
    else Bad
  }

  function SplitStream(b: Bytestring): (r: Split)
    decreases |b|
  {
    if Complete(b) then
      var r := SplitStream(b[SizeOf(b)..]);
      Split([b[..SizeOf(b)]] + r.packets, r.rest, r.ending)
    else
      Split([], b, EndingOf(b))
  }

  function Flat(ps: seq<Bytestring>): Bytestring {
    if ps == [] then [] else ps[0] + Flat(ps[1..])
  }

  lemma {:induction false} FlatConcat(a: seq<Bytestring>, b: seq<Bytestring>)
    ensures Flat(a + b) == Flat(a) + Flat(b)
  {
    if a == [] {
      assert a + b == b;
    } else {
      assert (a + b)[1..] == a[1..] + b;
      FlatConcat(a[1..], b);
    }
  }

  lemma SameHeader(a: Bytestring, b: Bytestring)
    requires |a| >= HEADER && a <= b
    ensures SizeOf(b) == SizeOf(a)
  {
    assert b[4..8] == a[4..8];
  }

  // ---------------------------------------------------------------- reading in pieces

  lemma CompleteMore(a: Bytestring, c: Bytestring)
    requires Complete(a)
    ensures Complete(a + c) && SizeOf(a + c) == SizeOf(a)
    ensures (a + c)[..SizeOf(a)] == a[..SizeOf(a)] && (a + c)[SizeOf(a)..] == a[SizeOf(a)..] + c
  {
    SameHeader(a, a + c);
    assert (a + c)[..SizeOf(a)] == a[..SizeOf(a)];
  }

  function First(p: Bytestring, r: Split): Split {
    Split([p] + r.packets, r.rest, r.ending)
  }

  /** The packets of s and then those of t. */
  function Then(s: Split, t: Split): Split {
    Split(s.packets + t.packets, t.rest, t.ending)
  }

  lemma FirstThen(p: Bytestring, s: Split, t: Split)
    ensures Then(First(p, s), t) == First(p, Then(s, t))
  {
    assert ([p] + s.packets) + t.packets == [p] + (s.packets + t.packets);
  }

  lemma SplitMore(a: Bytestring, c: Bytestring)
    requires Complete(a)
    ensures SplitStream(a + c) == First(a[..SizeOf(a)], SplitStream(a[SizeOf(a)..] + c))
  {
    CompleteMore(a, c);
  }

  /** Splitting what has arrived and going on with the rest when more arrives is splitting it all at once: where the
      stream is cut into reads does not matter. */
  lemma {:induction false} Incremental(a: Bytestring, c: Bytestring)
    requires SplitStream(a).ending == More
    ensures SplitStream(a + c) == Then(SplitStream(a), SplitStream(SplitStream(a).rest + c))
    decreases |a|
  {
    if Complete(a) {
      var rest := a[SizeOf(a)..];
      SplitMore(a, c);
      Incremental(rest, c);
      FirstThen(a[..SizeOf(a)], SplitStream(rest), SplitStream(SplitStream(rest).rest + c));
    } else {
      var t := SplitStream(a + c);
      assert [] + t.packets == t.packets;
    }
  }

  /** After everything complete has been dispatched there is room for at least one more byte. */
  lemma {:induction false} RoomToRead(b: Bytestring)
    requires SplitStream(b).ending == More
    ensures |SplitStream(b).rest| < MAX_PACKET_SIZE
    decreases |b|
  {
    if Complete(b) {
      RoomToRead(b[SizeOf(b)..]);
    }
  }

  /** What is left over holds no complete packet. */
  lemma {:induction false} RestIdle(b: Bytestring)
    requires SplitStream(b).ending == More
    ensures var rest := SplitStream(b).rest; !Complete(rest) && EndingOf(rest) == More
    decreases |b|
  {
    if Complete(b) {
      RestIdle(b[SizeOf(b)..]);
    }
  }

  /** Nothing is lost or made up. */
  lemma {:induction false} SplitTiles(b: Bytestring)
    ensures Flat(SplitStream(b).packets) + SplitStream(b).rest == b
    decreases |b|
  {
    if Complete(b) {
      var k := SizeOf(b);
      var r := SplitStream(b[k..]);
      SplitTiles(b[k..]);
      assert ([b[..k]] + r.packets)[1..] == r.packets;
      assert b == b[..k] + (Flat(r.packets) + r.rest);
    }
  }

  // ---------------------------------------------------------------- what the sender sends

  /** A packet as the serialiser makes it: the header tells its size, and it parses. */
  predicate Framed(p: Bytestring) {
    |p| >= HEADER && |p| == SizeOf(p) && Parse(p).Ok?
  }

  lemma FramedEncode(kind: uint32, cs: seq<Chunk>)
    requires |Body(cs)| < LIMIT32
    ensures Framed(Encode(kind, cs))
  {
    var b := Encode(kind, cs);
    assert b + [] == b;
    assert Parse(b).Ok? by {
      ParseEncode(kind, cs, []);
    }
    assert LengthOf(b) == |Body(cs)| by {
      PacketLength(kind, cs, []);
    }
  }

  /** What the receiver's loop does with any bytes at all: each packet it dispatches is whole, within the limit, and
      parses. It then stops for one reason: the header or the rest of a packet within the limit is yet to come; the
      header announces too much; or a packet within the limit is all there and does not parse. */
  lemma {:induction false} SplitExactly(b: Bytestring)
    ensures var r := SplitStream(b);
            && (forall i :: 0 <= i < |r.packets| ==> Framed(r.packets[i]) && |r.packets[i]| <= MAX_PACKET_SIZE)
            && (r.ending == More <==>
                  |r.rest| < HEADER || (SizeOf(r.rest) <= MAX_PACKET_SIZE && |r.rest| < SizeOf(r.rest)))
            && (r.ending == TooBig <==> |r.rest| >= HEADER && SizeOf(r.rest) > MAX_PACKET_SIZE)
            && (r.ending == Bad <==>
                  |r.rest| >= HEADER && SizeOf(r.rest) <= MAX_PACKET_SIZE && SizeOf(r.rest) <= |r.rest|
                  && Parse(r.rest[..SizeOf(r.rest)]) == Err(Malformed))
    decreases |b|
  {
    if Complete(b) {
      SplitExactly(b[SizeOf(b)..]);
      SameHeader(b[..SizeOf(b)], b);
    } else if |b| >= HEADER && SizeOf(b) <= |b| {
      SameHeader(b[..SizeOf(b)], b);
      ParseErrors(b[..SizeOf(b)]);
    }
  }

  predicate AllFramed(ps: seq<Bytestring>) {
    forall i :: 0 <= i < |ps| ==> Framed(ps[i])
  }

  /** Two ways to cut the same bytes in two. */
  lemma SameCut(p: Bytestring, rest: Bytestring, b: Bytestring, more: Bytestring, k: nat)
    requires p + rest == b + more && k <= |p| && k <= |b|
    ensures p[..k] == b[..k]
    ensures k == |p| ==> rest == b[k..] + more
  {
    assert (p + rest)[..k] == p[..k] && (b + more)[..k] == b[..k];
    if k == |p| {
      assert (p + rest)[k..] == rest && (b + more)[k..] == b[k..] + more;
    }
  }

  /** When the bytes at hand are a piece of a stream of packets, the first packet is where its header says. */
  lemma FirstPacket(ps: seq<Bytestring>, b: Bytestring, more: Bytestring)
    requires AllFramed(ps) && Flat(ps) == b + more && |b| >= HEADER
    ensures ps != [] && SizeOf(b) == |ps[0]|
    ensures |b| >= SizeOf(b) ==> b[..SizeOf(b)] == ps[0] && Flat(ps[1..]) == b[SizeOf(b)..] + more
  {
    assert ps != [];
    var p, rest := ps[0], Flat(ps[1..]);
    assert Framed(p);
    SameCut(p, rest, b, more, HEADER);
    SameHeader(b[..HEADER], b);
    SameHeader(p[..HEADER], p);
    if |b| >= |p| {
      SameCut(p, rest, b, more, |p|);
      assert p[..|p|] == p;
    }
  }

  /** The number of packets before the first one that the receiver's buffer cannot hold. */
  function Fitting(ps: seq<Bytestring>): (k: nat)
    ensures k <= |ps|
    ensures forall i :: 0 <= i < k ==> |ps[i]| <= MAX_PACKET_SIZE
    ensures k < |ps| ==> |ps[k]| > MAX_PACKET_SIZE
  {
    if ps == [] || |ps[0]| > MAX_PACKET_SIZE then 0 else 1 + Fitting(ps[1..])
  }

  /** The receiver gets exactly the packets that were sent, up to the first that is over the size limit, at which it
      drops the connection. */
  lemma {:induction false} SplitFlat(ps: seq<Bytestring>)
    requires AllFramed(ps)
    ensures var r := SplitStream(Flat(ps));
            && r.packets == ps[..Fitting(ps)]
            && (r.ending == More <==> Fitting(ps) == |ps|)
            && (r.ending != More ==> r.ending == TooBig)
    decreases |ps|
  {
    if ps != [] {
      var b := Flat(ps);
      assert Framed(ps[0]);
      assert b + [] == b;
      FirstPacket(ps, b, []);
      if |ps[0]| <= MAX_PACKET_SIZE {
        SplitFlat(ps[1..]);
        assert Flat(ps[1..]) + [] == Flat(ps[1..]) && b[SizeOf(b)..] + [] == b[SizeOf(b)..];
        assert [ps[0]] + ps[1..][..Fitting(ps[1..])] == ps[..Fitting(ps)];
      }
    }
  }
}
