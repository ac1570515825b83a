/** The receiving end of a connection: the reassembly buffer of struct Peer and the two loops of io_peer_recv().
 */
module Receiver {
  import opened Bytes
  import opened Packet
  import opened Framing

  class RecvBuffer {
    const buf: array<byte>
    var cur: nat
    var dispatched: seq<Bytestring>
    var ending: Ending

    /** As long as the connection is open, recv() is never called with a full buffer; its result 0 means that the
        other side has closed. */
    ghost predicate Valid()
      reads this, buf
    {
      buf.Length == MAX_PACKET_SIZE && cur <= buf.Length && (ending == More ==> cur < buf.Length)
    }

    /** No complete packet is waiting in the buffer. */
    ghost predicate Idle()
      reads this, buf
      requires cur <= buf.Length
    {
      !Complete(buf[..cur]) && EndingOf(buf[..cur]) == More
    }

    constructor ()
      ensures Valid() && Idle() && fresh(buf) && cur == 0 && dispatched == [] && ending == More
    {
      buf := new byte[MAX_PACKET_SIZE](i => 0);
      cur, dispatched, ending := 0, [], More;
    }

    /** Dispatches the packet at the front and moves what follows it to the front. */
    method Shift(size: nat)
      requires HEADER <= size <= cur <= buf.Length
      modifies this`cur, this`dispatched, buf
      ensures cur == old(cur) - size
      ensures dispatched == old(dispatched) + [old(buf[..size])]
      ensures buf[..cur] == old(buf[size..cur])
    {
      dispatched := dispatched + [buf[..size]];
      forall i | 0 <= i < cur - size {
        buf[i] := buf[size + i];
      }
      cur := cur - size;
    }

    /** The inner loop: everything that is complete goes out. */
    method Drain()
      requires buf.Length == MAX_PACKET_SIZE && cur <= buf.Length && ending == More
      modifies this`cur, this`dispatched, this`ending, buf
      ensures Valid()
      ensures var r := SplitStream(old(buf[..cur]));
              dispatched == old(dispatched) + r.packets && buf[..cur] == r.rest && ending == r.ending
    {
      ghost var goal := SplitStream(buf[..cur]);
      ghost var done: seq<Bytestring> := [];
      assert done + goal.packets == goal.packets;
      while cur >= HEADER
        invariant buf.Length == MAX_PACKET_SIZE && cur <= buf.Length && ending == More
        invariant dispatched == old(dispatched) + done
        invariant Then(Split(done, [], More), SplitStream(buf[..cur])) == goal
        decreases cur
      {
        var here := buf[..cur];
        var size := SizeOf(here);
        if size > MAX_PACKET_SIZE {
          ending := TooBig;
          break;
        }
        if cur < size {
          break;
        }
        var pd := Deserialise(here[..size]);
        if pd.Err? {
          ending := Bad;
          break;
        }
        assert buf[..size] == here[..size];
        Shift(size);
        assert buf[..cur] == here[size..];
        ThenFirst(done, here[..size], SplitStream(here[size..]));
        done := done + [here[..size]];
        assert dispatched == old(dispatched) + done;
      }
      assert !Complete(buf[..cur]);
      assert done + [] == done;
    }

    /** One recv() that returned `data`, and the packets it completes. */
    method Receive(data: Bytestring)
      requires Valid() && ending == More && 0 < |data| <= buf.Length - cur
      modifies this`cur, this`dispatched, this`ending, buf
      ensures Valid()
      ensures var r := SplitStream(old(buf[..cur]) + data);
              dispatched == old(dispatched) + r.packets && buf[..cur] == r.rest && ending == r.ending
    {
      ghost var was := buf[..cur];
      forall i | 0 <= i < |data| {
        buf[cur + i] := data[i];
      }
      cur := cur + |data|;
      assert buf[..cur] == was + data;
      Drain();
    }

    /** The state of the buffer after the bytes `all` have been read, if `before` had been dispatched at first. */
    ghost predicate HasRead(before: seq<Bytestring>, all: Bytestring)
      reads this, buf
      requires cur <= buf.Length
    {
      var r := SplitStream(all);
      dispatched == before + r.packets && buf[..cur] == r.rest && ending == r.ending
    }

    lemma StartRead()
      requires Valid() && Idle() && ending == More
      ensures HasRead(dispatched, buf[..cur])
    {
      assert dispatched + [] == dispatched;
    }

    method ReceiveMore(ghost before: seq<Bytestring>, ghost all: Bytestring, data: Bytestring)
      requires Valid() && ending == More && 0 < |data| <= buf.Length - cur && HasRead(before, all)
      modifies this`cur, this`dispatched, this`ending, buf
      ensures Valid() && HasRead(before, all + data)
    {
      ReadOn(before, all, data);
      Receive(data);
    }

    /** k more bytes of the stream. */
    method TakeMore(ghost before: seq<Bytestring>, ghost was: Bytestring, stream: Bytestring, taken: nat, k: nat)
      requires Valid() && ending == More && taken + k <= |stream| && 0 < k <= buf.Length - cur
      requires HasRead(before, was + stream[..taken])
      modifies this`cur, this`dispatched, this`ending, buf
      ensures Valid() && HasRead(before, was + stream[..taken + k])
    {
      NextPiece(was, stream, taken, k);
      ReceiveMore(before, was + stream[..taken], stream[taken..taken + k]);
    }

    /** The outer loop, on a socket that has `stream` to give and decides what each recv() does: how much it returns (at
        least one byte while there are any, and never more than the room in the buffer), that there is nothing now, or
        an error. Of the `used` recv() calls that return something, those up to `open` go into the buffer; what is read
        with the peer in PS_CLOSING is dropped. The loop ends when nothing is left, the connection is dropped, or a
        recv() returns nothing or an error. */
    method IoPeerRecv(stream: Bytestring, outcomes: seq<Outcome>)
      returns (taken: nat, dropped: nat, failed: bool, used: nat, ghost open: nat)
      requires Valid() && ending == More && Idle() && ClosingStays(outcomes)
      modifies this`cur, this`dispatched, this`ending, buf
      ensures Valid() && taken + dropped <= |stream| && (ending == More ==> Idle())
      ensures HasRead(old(dispatched), old(buf[..cur]) + stream[..taken])
      ensures ReadBy(outcomes, used, open, taken, dropped)
      ensures ending == More && taken + dropped < |stream| && used < |outcomes| ==> !outcomes[used].Data?
      ensures failed <==> ending == More && taken + dropped < |stream| && used < |outcomes| && outcomes[used].ReadError?
    {
      taken, dropped, used, open := 0, 0, 0, 0;
      ghost var was, before := buf[..cur], dispatched;
      assert was + stream[..0] == was;
      StartRead();
      while used < |outcomes| && ending == More && taken + dropped < |stream| && outcomes[used].Data?
        invariant Valid() && taken + dropped <= |stream|
        invariant ReadBy(outcomes, used, open, taken, dropped)
        invariant HasRead(before, was + stream[..taken])
      {
        taken, dropped, open := Turn(before, was, stream, outcomes, used, open, taken, dropped);
        used := used + 1;
      }
      failed := used < |outcomes| && ending == More && taken + dropped < |stream| && outcomes[used].ReadError?;
      NothingWaiting(before, was + stream[..taken]);
    }

    /** One recv() that returns something. */
    method Turn(ghost before: seq<Bytestring>, ghost was: Bytestring, stream: Bytestring, outcomes: seq<Outcome>,
                used: nat, ghost open: nat, taken: nat, dropped: nat)
      returns (taken': nat, dropped': nat, ghost open': nat)
      requires Valid() && ending == More && taken + dropped < |stream| && ClosingStays(outcomes)
      requires used < |outcomes| && outcomes[used].Data? && ReadBy(outcomes, used, open, taken, dropped)
      requires HasRead(before, was + stream[..taken])
      modifies this`cur, this`dispatched, this`ending, buf
      ensures Valid() && taken' + dropped' <= |stream|
      ensures ReadBy(outcomes, used + 1, open', taken', dropped')
      ensures HasRead(before, was + stream[..taken'])
    {
      var k := Returned(outcomes[used].size, buf.Length - cur, |stream| - taken - dropped);
      if outcomes[used].closing {
        return taken, dropped + k, open;
      }
      StillOpen(outcomes, used, open, taken, dropped);
      TakeMore(before, was, stream, taken, k);
      return taken + k, dropped, open + 1;
    }

    lemma NothingWaiting(before: seq<Bytestring>, all: Bytestring)
      requires cur <= buf.Length && HasRead(before, all)
      ensures ending == More ==> Idle()
    {
      if ending == More {
        RestIdle(all);
      }
    }
  }

  /** What a recv() does: it returns about so much, with the peer in PS_CLOSING or not; there is nothing to read; or it
      fails. */
  datatype Outcome = Data(size: nat, closing: bool) | WouldBlock | ReadError

  predicate Closing(o: Outcome) {
    o.Data? && o.closing
  }

  /** PS_CLOSING is never left. */
  predicate ClosingStays(outcomes: seq<Outcome>) {
    forall i, j :: 0 <= i < j < |outcomes| && Closing(outcomes[i]) && outcomes[j].Data? ==> Closing(outcomes[j])
  }

  /** The first `open` of the `used` calls were made before the peer was closing and put at least a byte each into the
      buffer, the others dropped at least a byte each. */
  ghost predicate ReadBy(outcomes: seq<Outcome>, used: nat, open: nat, taken: nat, dropped: nat) {
    && open <= used <= |outcomes|
    && (forall k :: 0 <= k < used ==> outcomes[k].Data? && (outcomes[k].closing <==> open <= k))
    && open <= taken && (open == 0 ==> taken == 0)
    && used - open <= dropped && (used == open ==> dropped == 0)
  }

  lemma StillOpen(outcomes: seq<Outcome>, used: nat, open: nat, taken: nat, dropped: nat)
    requires ReadBy(outcomes, used, open, taken, dropped) && ClosingStays(outcomes) && used < |outcomes|
    requires outcomes[used].Data? && !outcomes[used].closing
    ensures open == used && dropped == 0
  {
    assert !Closing(outcomes[used]);
    assert open < used ==> Closing(outcomes[open]);
  }

  /** What recv() returns of the `left` bytes that are there, with room for `room`. */
  function Returned(want: nat, room: nat, left: nat): (k: nat)
    requires room > 0 && left > 0
    ensures 0 < k <= room && k <= left
  {
    if want == 0 then 1 else if want <= room && want <= left then want else if room <= left then room else left
  }

  lemma NextPiece(was: Bytestring, stream: Bytestring, taken: nat, k: nat)
    requires taken + k <= |stream|
    ensures (was + stream[..taken]) + stream[taken..taken + k] == was + stream[..taken + k]
  {
  }

  lemma Together(a: seq<Bytestring>, b: seq<Bytestring>, c: seq<Bytestring>)
    ensures (a + b) + c == a + (b + c)
  {
  }

  lemma ReadOn(before: seq<Bytestring>, all: Bytestring, data: Bytestring)
    requires SplitStream(all).ending == More
    ensures var r, t, u := SplitStream(all), SplitStream(SplitStream(all).rest + data), SplitStream(all + data);
            (before + r.packets) + t.packets == before + u.packets && t.rest == u.rest && t.ending == u.ending
  {
    Incremental(all, data);
    Together(before, SplitStream(all).packets, SplitStream(SplitStream(all).rest + data).packets);
  }

  lemma ThenFirst(done: seq<Bytestring>, p: Bytestring, r: Split)
    ensures Then(Split(done, [], More), First(p, r)) == Then(Split(done + [p], [], More), r)
  {
    assert done + ([p] + r.packets) == (done + [p]) + r.packets;
  }
}
