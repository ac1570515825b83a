/** The message CONNECT_HOST_OK, whose fields the host appends one after the other and the joiner reads by index,
    behind a table of peers of variable length.
 */
module ConnectReply {
  import opened Bytes
  import opened Packet

  type uint16 = x: int | 0 <= x < 0x1_0000

  datatype PeerAddr = PeerAddr(id: uint32, ip: uint32, port: uint16)

  datatype Reply = Reply(
    instance: seq<byte>, hostId: uint32, yourId: uint32, peers: seq<PeerAddr>, replyData: seq<byte>,
    name: seq<wchar>, data: seq<byte>, maxPlayers: uint32, session: seq<wchar>, password: seq<wchar>,
    application: seq<byte>, groups: set<uint32>)

  // ---------------------------------------------------------------- what the host appends

  function Triples(ps: seq<PeerAddr>): (fs: seq<Field>)
    ensures |fs| == 3 * |ps|
    ensures forall i :: 0 <= i < |ps| ==>
              fs[3 * i] == Dword(ps[i].id) && fs[3 * i + 1] == Dword(ps[i].ip) && fs[3 * i + 2] == Dword(ps[i].port)
  {
    if ps == [] then []
    else
      var l := ps[|ps| - 1];
      Triples(ps[..|ps| - 1]) + [Dword(l.id), Dword(l.ip), Dword(l.port)]
  }

  function Dwords(gs: seq<uint32>): (fs: seq<Field>)
    ensures |fs| == |gs| && forall i :: 0 <= i < |gs| ==> fs[i] == Dword(gs[i])
  {
    seq(|gs|, i requires 0 <= i < |gs| => Dword(gs[i]))
  }

  function ReplyField(data: seq<byte>): Field {
    if |data| > 0 then Data(data) else Null
  }

  /** `count` is the number of peers announced, which is not computed from the table; gs are the groups in some
      order. */
  function Head(r: Reply, count: uint32): seq<Field> {
    [Guid(r.instance), Dword(r.hostId), Dword(r.yourId), Dword(count)]
  }

  function Tail(r: Reply, gs: seq<uint32>): seq<Field>
    requires |gs| < LIMIT32
  {
    [ReplyField(r.replyData), WString(r.name), Data(r.data), Dword(r.maxPlayers), WString(r.session),
     WString(r.password), Data(r.application), Dword(|gs|)]
  }

  function Fields(r: Reply, count: uint32, gs: seq<uint32>): seq<Field>
    requires |gs| < LIMIT32
  {
    Head(r, count) + Triples(r.peers) + Tail(r, gs) + Dwords(gs)
  }

  lemma FieldAt(r: Reply, count: uint32, gs: seq<uint32>)
    requires |gs| < LIMIT32
    ensures var fs, base := Fields(r, count, gs), 4 + 3 * |r.peers|;
            && |fs| == base + 8 + |gs|
            && fs[..4] == Head(r, count)
            && (forall i :: 0 <= i < |r.peers| ==>
                  && fs[4 + 3 * i] == Dword(r.peers[i].id) && fs[5 + 3 * i] == Dword(r.peers[i].ip)
                  && fs[6 + 3 * i] == Dword(r.peers[i].port))
            && fs[base..base + 8] == Tail(r, gs)
            && (forall i :: 0 <= i < |gs| ==> fs[base + 8 + i] == Dword(gs[i]))
  {
    var fs, base := Fields(r, count, gs), 4 + 3 * |r.peers|;
    forall i | 0 <= i < |r.peers|
      ensures fs[4 + 3 * i] == Dword(r.peers[i].id)
      ensures fs[5 + 3 * i] == Dword(r.peers[i].ip) && fs[6 + 3 * i] == Dword(r.peers[i].port)
    {
      assert fs[4 + 3 * i] == Triples(r.peers)[3 * i];
      assert fs[5 + 3 * i] == Triples(r.peers)[3 * i + 1];
      assert fs[6 + 3 * i] == Triples(r.peers)[3 * i + 2];
    }
  }

  lemma HeadFields(fs: seq<Field>, r: Reply, count: uint32)
    requires |fs| >= 4 && fs[..4] == Head(r, count)
    ensures fs[0] == Guid(r.instance) && fs[1] == Dword(r.hostId) && fs[2] == Dword(r.yourId) && fs[3] == Dword(count)
  {
    var h := fs[..4];
    assert fs[0] == h[0] && fs[1] == h[1] && fs[2] == h[2] && fs[3] == h[3];
  }

  lemma TailFields(fs: seq<Field>, base: nat, r: Reply, gs: seq<uint32>)
    requires |gs| < LIMIT32 && |fs| >= base + 8 && fs[base..base + 8] == Tail(r, gs)
    ensures fs[base] == (if |r.replyData| > 0 then Data(r.replyData) else Null)
    ensures fs[base + 1] == WString(r.name) && fs[base + 2] == Data(r.data) && fs[base + 3] == Dword(r.maxPlayers)
    ensures fs[base + 4] == WString(r.session) && fs[base + 5] == WString(r.password)
    ensures fs[base + 6] == Data(r.application) && fs[base + 7] == Dword(|gs|)
  {
    var t := fs[base..base + 8];
    assert fs[base] == t[0] && fs[base + 1] == t[1] && fs[base + 2] == t[2] && fs[base + 3] == t[3];
    assert fs[base + 4] == t[4] && fs[base + 5] == t[5] && fs[base + 6] == t[6] && fs[base + 7] == t[7];
  }

  /** The field at each index, however many peers and groups there are. */
  lemma FieldNames(r: Reply, count: uint32, gs: seq<uint32>)
    requires |gs| < LIMIT32
    ensures var fs, base := Fields(r, count, gs), 4 + 3 * |r.peers|;
            && |fs| == base + 8 + |gs|
            && fs[0] == Guid(r.instance) && fs[1] == Dword(r.hostId) && fs[2] == Dword(r.yourId)
            && fs[3] == Dword(count)
            && fs[base] == (if |r.replyData| > 0 then Data(r.replyData) else Null)
            && fs[base + 1] == WString(r.name) && fs[base + 2] == Data(r.data) && fs[base + 3] == Dword(r.maxPlayers)
            && fs[base + 4] == WString(r.session) && fs[base + 5] == WString(r.password)
            && fs[base + 6] == Data(r.application) && fs[base + 7] == Dword(|gs|)
  {
    FieldAt(r, count, gs);
    HeadFields(Fields(r, count, gs), r, count);
    TailFields(Fields(r, count, gs), 4 + 3 * |r.peers|, r, gs);
  }

  /** What the getters give for a chunk that was written for a field. */
  lemma Got(p: Parsed, i: nat, f: Field)
    requires i < |p.fields| && p.fields[i] == ChunkOf(f)
    ensures IsNull(p, i) == Ok(f.Null?)
    ensures GetDword(p, i) == if f.Dword? then Ok(f.v) else Err(TypeMismatch)
    ensures GetData(p, i) == if f.Data? then Ok(f.bytes) else Err(TypeMismatch)
    ensures GetWString(p, i) == if f.WString? then Ok(f.text) else Err(TypeMismatch)
    ensures f.Guid? && |f.id| == 16 ==> GetGuid(p, i) == Ok(f.id)
  {
    match f
    case Dword(v) => U32RoundTrip(v);
    case WString(text) => WideRoundTrip(text);
    case _ =>
  }

  // ---------------------------------------------------------------- what the joiner reads

  /** The first n entries of the table of peers. The port is cut to 16 bits. */
  function ReadTable(p: Parsed, n: nat): Result<seq<PeerAddr>> {
    if n == 0 then Ok([])
    else
      var ps :- ReadTable(p, n - 1);
      var id :- GetDword(p, 4 + 3 * (n - 1));
      var ip :- GetDword(p, 5 + 3 * (n - 1));
      var port :- GetDword(p, 6 + 3 * (n - 1));
      Ok(ps + [PeerAddr(id, ip, port % 0x1_0000)])
  }

  function ReadGroups(p: Parsed, at: nat, n: nat): Result<set<uint32>> {
    if n == 0 then Ok({})
    else
      var gs :- ReadGroups(p, at, n - 1);
      var g :- GetDword(p, at + n - 1);
      Ok(gs + {g})
  }

  /** handle_host_connect_ok(), up to the point where it starts to use what it has read. */
  function ReadReply(p: Parsed): Result<Reply> {
    var instance :- GetGuid(p, 0);
    var hostId :- GetDword(p, 1);
    var yourId :- GetDword(p, 2);
    var n :- GetDword(p, 3);
    ReadFrom(p, n, Started(instance, hostId, yourId))
  }

  /** A reply of which only the first fields are known. */
  function Started(instance: seq<byte>, hostId: uint32, yourId: uint32): Reply {
    Reply(instance, hostId, yourId, [], [], [], [], 0, [], [], [], {})
  }

  function ReadFrom(p: Parsed, n: nat, r: Reply): Result<Reply> {
    var peers :- ReadTable(p, n);
    ReadAfter(p, 4 + 3 * n, r.(peers := peers))
  }

  function ReadAfter(p: Parsed, base: nat, r: Reply): Result<Reply> {
    var none :- IsNull(p, base);
    var replyData :- if none then Ok([]) else GetData(p, base);
    var name :- GetWString(p, base + 1);
    var data :- GetData(p, base + 2);
    var maxPlayers :- GetDword(p, base + 3);
    var session :- GetWString(p, base + 4);
    var password :- GetWString(p, base + 5);
    var application :- GetData(p, base + 6);
    var n :- GetDword(p, base + 7);
    var groups :- ReadGroups(p, base + 8, n);
    Ok(r.(replyData := replyData, name := name, data := data, maxPlayers := maxPlayers, session := session,
          password := password, application := application, groups := groups))
  }

  /** The groups come in some order, each once. */
  ghost predicate Lists(gs: seq<uint32>, groups: set<uint32>) {
    forall g :: g in groups <==> g in gs
  }

  /** The i-th entry of the table is this peer. */
  predicate EntryAt(p: Parsed, i: nat, peer: PeerAddr) {
    && |p.fields| >= 7 + 3 * i && p.fields[4 + 3 * i] == ChunkOf(Dword(peer.id))
    && p.fields[5 + 3 * i] == ChunkOf(Dword(peer.ip)) && p.fields[6 + 3 * i] == ChunkOf(Dword(peer.port))
  }

  lemma {:induction false} TableReads(p: Parsed, r: Reply, n: nat)
    requires n <= |r.peers| && forall i :: 0 <= i < |r.peers| ==> EntryAt(p, i, r.peers[i])
    ensures ReadTable(p, n) == Ok(r.peers[..n])
  {
    if n > 0 {
      var i := n - 1;
      TableReads(p, r, i);
      assert EntryAt(p, i, r.peers[i]);
      Got(p, 4 + 3 * i, Dword(r.peers[i].id));
      Got(p, 5 + 3 * i, Dword(r.peers[i].ip));
      Got(p, 6 + 3 * i, Dword(r.peers[i].port));
      assert r.peers[..n] == r.peers[..i] + [r.peers[i]];
    }
  }

  /** Reading past the end of the table stops at what follows it. */
  lemma {:induction false} TableStops(p: Parsed, m: nat, n: nat, e: Error)
    requires m < n && ReadTable(p, m).Ok? && GetDword(p, 4 + 3 * m) == Err(e)
    ensures ReadTable(p, n) == Err(e)
  {
    if m < n - 1 {
      TableStops(p, m, n - 1, e);
    }
  }

  function Elements(gs: seq<uint32>): (r: set<uint32>)
    ensures forall g :: g in r <==> g in gs
  {
    set g | g in gs
  }

  lemma {:induction false} GroupsRead(p: Parsed, at: nat, gs: seq<uint32>, n: nat)
    requires n <= |gs| && |p.fields| >= at + |gs|
    requires forall i :: 0 <= i < |gs| ==> p.fields[at + i] == ChunkOf(Dword(gs[i]))
    ensures ReadGroups(p, at, n) == Ok(Elements(gs[..n]))
  {
    if n == 0 {
      assert Elements(gs[..0]) == {};
    } else {
      var i := n - 1;
      GroupsRead(p, at, gs, i);
      assert p.fields[at + i] == ChunkOf(Dword(gs[i]));
      Got(p, at + i, Dword(gs[i]));
      assert gs[..n] == gs[..i] + [gs[i]];
      assert Elements(gs[..n]) == Elements(gs[..i]) + {gs[i]};
    }
  }

  lemma TailReads(p: Parsed, base: nat, r: Reply, gs: seq<uint32>, r0: Reply)
    requires |gs| < LIMIT32 && Lists(gs, r.groups) && |p.fields| == base + 8 + |gs|
    requires p.fields[base..base + 8] == Chunks(Tail(r, gs))
    requires forall i :: 0 <= i < |gs| ==> p.fields[base + 8 + i] == ChunkOf(Dword(gs[i]))
    requires r0 == Reply(r.instance, r.hostId, r.yourId, r.peers, [], [], [], 0, [], [], [], {})
    ensures ReadAfter(p, base, r0) == Ok(r)
  {
    var t, cs := Tail(r, gs), p.fields[base..base + 8];
    assert p.fields[base] == cs[0] && p.fields[base + 1] == cs[1];
    assert p.fields[base + 2] == cs[2] && p.fields[base + 3] == cs[3];
    assert p.fields[base + 4] == cs[4] && p.fields[base + 5] == cs[5];
    assert p.fields[base + 6] == cs[6] && p.fields[base + 7] == cs[7];
    Got(p, base, t[0]);
    Got(p, base + 1, t[1]);
    Got(p, base + 2, t[2]);
    Got(p, base + 3, t[3]);
    Got(p, base + 4, t[4]);
    Got(p, base + 5, t[5]);
    Got(p, base + 6, t[6]);
    Got(p, base + 7, t[7]);
    GroupsRead(p, base + 8, gs, |gs|);
    assert gs[..|gs|] == gs;
    assert Elements(gs) == r.groups;
  }

  lemma HeadReads(p: Parsed, r: Reply, count: uint32, gs: seq<uint32>)
    requires |gs| < LIMIT32 && |r.instance| == 16 && p.fields == Chunks(Fields(r, count, gs))
    ensures GetGuid(p, 0) == Ok(r.instance) && GetDword(p, 1) == Ok(r.hostId)
    ensures GetDword(p, 2) == Ok(r.yourId) && GetDword(p, 3) == Ok(count)
  {
    FieldAt(r, count, gs);
    var fs := Fields(r, count, gs);
    assert fs[0] == fs[..4][0] && fs[1] == fs[..4][1] && fs[2] == fs[..4][2] && fs[3] == fs[..4][3];
    Got(p, 0, fs[0]);
    Got(p, 1, fs[1]);
    Got(p, 2, fs[2]);
    Got(p, 3, fs[3]);
  }

  lemma TableAt(p: Parsed, r: Reply, count: uint32, gs: seq<uint32>, n: nat)
    requires |gs| < LIMIT32 && p.fields == Chunks(Fields(r, count, gs)) && n <= |r.peers|
    ensures ReadTable(p, n) == Ok(r.peers[..n])
  {
    forall i | 0 <= i < |r.peers| ensures EntryAt(p, i, r.peers[i]) {
      EntryThere(p, r, count, gs, i);
    }
    TableReads(p, r, n);
  }

  lemma EntryThere(p: Parsed, r: Reply, count: uint32, gs: seq<uint32>, i: nat)
    requires |gs| < LIMIT32 && p.fields == Chunks(Fields(r, count, gs)) && i < |r.peers|
    ensures EntryAt(p, i, r.peers[i])
  {
    FieldAt(r, count, gs);
    var fs := Fields(r, count, gs);
    assert fs[4 + 3 * i] == Dword(r.peers[i].id);
  }

  lemma TailAt(p: Parsed, r: Reply, count: uint32, gs: seq<uint32>)
    requires |gs| < LIMIT32 && p.fields == Chunks(Fields(r, count, gs))
    ensures var base := 4 + 3 * |r.peers|;
            && |p.fields| == base + 8 + |gs|
            && p.fields[base..base + 8] == Chunks(Tail(r, gs))
            && forall i :: 0 <= i < |gs| ==> p.fields[base + 8 + i] == ChunkOf(Dword(gs[i]))
  {
    FieldAt(r, count, gs);
    var fs, base := Fields(r, count, gs), 4 + 3 * |r.peers|;
    assert p.fields[base..base + 8] == Chunks(fs[base..base + 8]);
  }

  lemma FromParts(p: Parsed, r: Reply, r0: Reply)
    requires r0 == Started(r.instance, r.hostId, r.yourId).(peers := r.peers)
    requires ReadTable(p, |r.peers|) == Ok(r.peers) && ReadAfter(p, 4 + 3 * |r.peers|, r0) == Ok(r)
    ensures ReadFrom(p, |r.peers|, Started(r.instance, r.hostId, r.yourId)) == Ok(r)
  {
  }

  lemma RightTable(p: Parsed, r: Reply, gs: seq<uint32>)
    requires |gs| < LIMIT32 && Lists(gs, r.groups) && |r.peers| < LIMIT32
    requires p.fields == Chunks(Fields(r, |r.peers|, gs))
    ensures ReadFrom(p, |r.peers|, Started(r.instance, r.hostId, r.yourId)) == Ok(r)
  {
    var base := 4 + 3 * |r.peers|;
    var r0 := Reply(r.instance, r.hostId, r.yourId, r.peers, [], [], [], 0, [], [], [], {});
    assert ReadTable(p, |r.peers|) == Ok(r.peers) by {
      TableAt(p, r, |r.peers|, gs, |r.peers|);
      assert r.peers[..|r.peers|] == r.peers;
    }
    assert ReadAfter(p, base, r0) == Ok(r) by {
      TailAt(p, r, |r.peers|, gs);
      TailReads(p, base, r, gs, r0);
    }
    FromParts(p, r, r0);
  }

  lemma ShortTable(p: Parsed, r: Reply, count: uint32, gs: seq<uint32>, r0: Reply)
    requires |gs| < LIMIT32 && count < |r.peers| && p.fields == Chunks(Fields(r, count, gs))
    ensures ReadFrom(p, count, r0) == Err(TypeMismatch)
  {
    FieldAt(r, count, gs);
    TableAt(p, r, count, gs, count);
    Got(p, 4 + 3 * count, Dword(r.peers[count].id));
  }

  lemma LongTable(p: Parsed, r: Reply, count: uint32, gs: seq<uint32>, r0: Reply)
    requires |gs| < LIMIT32 && count > |r.peers| && p.fields == Chunks(Fields(r, count, gs))
    ensures ReadFrom(p, count, r0) == Err(TypeMismatch)
  {
    var m := |r.peers|;
    TailAt(p, r, count, gs);
    TableAt(p, r, count, gs, m);
    assert p.fields[4 + 3 * m] == p.fields[4 + 3 * m..4 + 3 * m + 8][0];
    Got(p, 4 + 3 * m, ReplyField(r.replyData));
    TableStops(p, m, count, TypeMismatch);
  }

  /** With the right count, every index that the joiner reads is where the host put the field; with any other it runs
      into a field of another type. */
  lemma CountDecides(p: Parsed, r: Reply, count: uint32, gs: seq<uint32>)
    requires |gs| < LIMIT32 && |r.instance| == 16 && Lists(gs, r.groups) && |r.peers| < LIMIT32
    requires p.fields == Chunks(Fields(r, count, gs))
    ensures ReadReply(p) == if count == |r.peers| then Ok(r) else Err(TypeMismatch)
  {
    HeadReads(p, r, count, gs);
    var r0 := Started(r.instance, r.hostId, r.yourId);
    assert ReadReply(p) == ReadFrom(p, count, r0);
    if count == |r.peers| {
      RightTable(p, r, gs);
    } else if count < |r.peers| {
      ShortTable(p, r, count, gs, r0);
    } else {
      LongTable(p, r, count, gs, r0);
    }
  }

  /** The joiner gets the host's reply, field by field, exactly when the number of peers announced is the number of
      entries written; otherwise reading fails. */
  lemma ReplyReadExactly(kind: uint32, r: Reply, count: uint32, gs: seq<uint32>)
    requires |gs| < LIMIT32 && |r.instance| == 16 && Lists(gs, r.groups)
    requires |Body(Chunks(Fields(r, count, gs)))| < LIMIT32 && |r.peers| < LIMIT32
    ensures var p := Parse(Encode(kind, Chunks(Fields(r, count, gs))));
            && p.Ok?
            && ReadReply(p.value) == if count == |r.peers| then Ok(r) else Err(TypeMismatch)
  {
    var cs := Chunks(Fields(r, count, gs));
    ParseEncode(kind, cs, []);
    assert Encode(kind, cs) + [] == Encode(kind, cs);
    CountDecides(Parsed(kind, cs), r, count, gs);
  }

  // ---------------------------------------------------------------- the loops

  lemma ChunksMore(fs: seq<Field>, more: seq<Field>)
    ensures Chunks(fs + more) == Chunks(fs) + Chunks(more)
  {
  }

  /** The host's side, on the serialiser. */
  method WritePeers(ps: PacketSerialiser, peers: seq<PeerAddr>)
    requires ps.Valid()
    modifies ps
    ensures ps.Valid() && ps.written == old(ps.written) + Chunks(Triples(peers))
  {
    assert peers[..0] == [] && ps.written + Chunks([]) == ps.written;
    for i := 0 to |peers|
      invariant ps.Valid() && ps.written == old(ps.written) + Chunks(Triples(peers[..i]))
    {
      ghost var before := ps.written;
      WritePeer(ps, peers[i]);
      OneMore(peers, i, old(ps.written), before, ps.written);
    }
    assert peers[..|peers|] == peers;
  }

  method WritePeer(ps: PacketSerialiser, peer: PeerAddr)
    requires ps.Valid()
    modifies ps
    ensures ps.Valid()
    ensures ps.written
         == ((old(ps.written) + [ChunkOf(Dword(peer.id))]) + [ChunkOf(Dword(peer.ip))]) + [ChunkOf(Dword(peer.port))]
  {
    ps.AppendDword(peer.id);
    ps.AppendDword(peer.ip);
    ps.AppendDword(peer.port);
  }

  lemma OneMore(peers: seq<PeerAddr>, i: nat, start: seq<Chunk>, before: seq<Chunk>, after: seq<Chunk>)
    requires i < |peers| && before == start + Chunks(Triples(peers[..i]))
    requires after == ((before + [ChunkOf(Dword(peers[i].id))]) + [ChunkOf(Dword(peers[i].ip))])
                      + [ChunkOf(Dword(peers[i].port))]
    ensures after == start + Chunks(Triples(peers[..i + 1]))
  {
    var three := [Dword(peers[i].id), Dword(peers[i].ip), Dword(peers[i].port)];
    assert peers[..i + 1][..i] == peers[..i];
    ChunksMore(Triples(peers[..i]), three);
    assert Chunks(three) == [ChunkOf(Dword(peers[i].id)), ChunkOf(Dword(peers[i].ip)), ChunkOf(Dword(peers[i].port))];
  }

  /** The joiner's side. */
  method ReadPeers(p: Parsed, n: uint32) returns (r: Result<seq<PeerAddr>>)
    ensures r == ReadTable(p, n)
  {
    var ps: seq<PeerAddr> := [];
    for k := 0 to n
      invariant ReadTable(p, k) == Ok(ps)
    {
      var id, ip, port := GetDword(p, 4 + 3 * k), GetDword(p, 5 + 3 * k), GetDword(p, 6 + 3 * k);
      if id.Err? || ip.Err? || port.Err? {
        var e := if id.Err? then id.error else if ip.Err? then ip.error else port.error;
        TableFails(p, k + 1, n, e);
        return Err(e);
      }
      ps := ps + [PeerAddr(id.value, ip.value, port.value % 0x1_0000)];
    }
    r := Ok(ps);
  }

  lemma {:induction false} TableFails(p: Parsed, m: nat, n: nat, e: Error)
    requires m <= n && ReadTable(p, m) == Err(e)
    ensures ReadTable(p, n) == Err(e)
  {
    if m < n {
      TableFails(p, m, n - 1, e);
    }
  }
}
