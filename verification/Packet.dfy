/** The wire format: a packet is a type-length-value chunk whose value is a sequence of type-length-value chunks, one
    for each field.
 */
module Packet {
  import opened Bytes

  const HEADER := 8

  const TYPE_NULL := 0
  const TYPE_DWORD := 1
  const TYPE_DATA := 2
  const TYPE_WSTRING := 3
  const TYPE_GUID := 4

  datatype Field =
    | Null
    | Dword(v: uint32)
    | Data(bytes: seq<byte>)
    | WString(text: seq<wchar>)
    | Guid(id: seq<byte>)

  datatype Chunk = Chunk(kind: uint32, value: seq<byte>)

  datatype Error = Incomplete | Malformed | MissingField | TypeMismatch

  datatype Result<+T> = Ok(value: T) | Err(error: Error) {
    predicate IsFailure() {
      Err?
    }

    function PropagateFailure<U>(): Result<U>
      requires Err?
    {
      Err(error)
    }

    function Extract(): T
      requires Ok?
    {
      value
    }
  }

  datatype Parsed = Parsed(kind: uint32, fields: seq<Chunk>)

  /** A GUID is 16 bytes, and lengths fit the length field. */
  predicate FieldOk(f: Field) {
    && (f.Guid? ==> |f.id| == 16)
    && |ChunkOf(f).value| < LIMIT32
  }

  function ChunkOf(f: Field): Chunk {
    match f
    case Null => Chunk(TYPE_NULL, [])
    case Dword(v) => Chunk(TYPE_DWORD, U32(v))
    case Data(bytes) => Chunk(TYPE_DATA, bytes)
    case WString(text) => Chunk(TYPE_WSTRING, Wide(text))
    case Guid(id) => Chunk(TYPE_GUID, id)
  }

  /** Header and value; the length is written into 32 bits. */
  function ChunkBytes(c: Chunk): (b: seq<byte>)
    ensures |b| == HEADER + |c.value|
  {
    U32(c.kind) + U32(|c.value| % LIMIT32) + c.value
  }

  function Body(cs: seq<Chunk>): seq<byte> {
    if cs == [] then [] else Body(cs[..|cs| - 1]) + ChunkBytes(cs[|cs| - 1])
  }

  function Chunks(fs: seq<Field>): seq<Chunk> {
    seq(|fs|, i requires 0 <= i < |fs| => ChunkOf(fs[i]))
  }

  /** The bytes of a packet. */
  function Encode(kind: uint32, cs: seq<Chunk>): seq<byte> {
    ChunkBytes(Chunk(kind, Body(cs)))
  }

  /** The type field and the length field at the front of b. */
  function KindOf(b: seq<byte>): uint32
    requires |b| >= HEADER
  {
    ToU32(b[..4])
  }

  function LengthOf(b: seq<byte>): uint32
    requires |b| >= HEADER
  {
    ToU32(b[4..8])
  }

  // ---------------------------------------------------------------- parsing

  function ParseFields(b: seq<byte>): Result<seq<Chunk>>
    decreases |b|
  {
    if b == [] then Ok([])
    else if |b| < HEADER || |b| < HEADER + LengthOf(b) then Err(Malformed)
    else
      var rest := ParseFields(b[HEADER + LengthOf(b)..]);
      if rest.Err? then rest else Ok([Chunk(KindOf(b), b[HEADER..HEADER + LengthOf(b)])] + rest.value)
  }

  function Parse(b: seq<byte>): Result<Parsed> {
    if |b| < HEADER || |b| < HEADER + LengthOf(b) then Err(Incomplete)
    else
      var r := ParseFields(b[HEADER..HEADER + LengthOf(b)]);
      if r.Err? then Err(r.error) else Ok(Parsed(KindOf(b), r.value))
  }

  // ---------------------------------------------------------------- the getters

  function IsNull(p: Parsed, i: nat): Result<bool> {
    if |p.fields| <= i then Err(MissingField) else Ok(p.fields[i].kind == TYPE_NULL)
  }

  function GetDword(p: Parsed, i: nat): Result<uint32> {
    if |p.fields| <= i then Err(MissingField)
    else if p.fields[i].kind != TYPE_DWORD then Err(TypeMismatch)
    else if |p.fields[i].value| != 4 then Err(Malformed)
    else Ok(ToU32(p.fields[i].value))
  }

  function GetData(p: Parsed, i: nat): Result<seq<byte>> {
    if |p.fields| <= i then Err(MissingField)
    else if p.fields[i].kind != TYPE_DATA then Err(TypeMismatch)
    else Ok(p.fields[i].value)
  }

  function GetWString(p: Parsed, i: nat): Result<seq<wchar>> {
    if |p.fields| <= i then Err(MissingField)
    else if p.fields[i].kind != TYPE_WSTRING then Err(TypeMismatch)
    else if |p.fields[i].value| % 2 != 0 then Err(Malformed)
    else Ok(Narrow(p.fields[i].value))
  }

  function GetGuid(p: Parsed, i: nat): Result<seq<byte>> {
    if |p.fields| <= i then Err(MissingField)
    else if p.fields[i].kind != TYPE_GUID then Err(TypeMismatch)
    else if |p.fields[i].value| != 16 then Err(Malformed)
    else Ok(p.fields[i].value)
  }

  // ---------------------------------------------------------------- reading back what was written

  lemma ChunkHeader(c: Chunk, tail: seq<byte>)
    requires |c.value| < LIMIT32
    ensures var b := ChunkBytes(c) + tail;
            && KindOf(b) == c.kind && LengthOf(b) == |c.value|
            && b[HEADER..HEADER + |c.value|] == c.value && b[HEADER + |c.value|..] == tail
  {
    var b := ChunkBytes(c) + tail;
    assert b[..4] == U32(c.kind);
    assert b[4..8] == U32(|c.value|);
    U32RoundTrip(c.kind);
    U32RoundTrip(|c.value|);
  }

  /** Body from the other end. */
  lemma {:induction false} BodyFront(cs: seq<Chunk>)
    requires cs != []
    ensures Body(cs) == ChunkBytes(cs[0]) + Body(cs[1..])
  {
    if |cs| == 1 {
      assert cs[..0] == [] && cs[1..] == [];
    } else {
      var l := |cs| - 1;
      var first, middle, last := ChunkBytes(cs[0]), Body(cs[..l][1..]), ChunkBytes(cs[l]);
      assert cs[..l][1..] == cs[1..][..l - 1];
      BodyFront(cs[..l]);
      assert Body(cs[1..]) == middle + last;
      assert (first + middle) + last == first + (middle + last);
    }
  }

  lemma {:induction false} ParseBody(cs: seq<Chunk>)
    requires forall i :: 0 <= i < |cs| ==> |cs[i].value| < LIMIT32
    ensures ParseFields(Body(cs)) == Ok(cs)
  {
    if cs != [] {
      BodyFront(cs);
      ChunkHeader(cs[0], Body(cs[1..]));
      ParseBody(cs[1..]);
      assert cs == [cs[0]] + cs[1..];
    }
  }

  lemma {:induction false} BodyCovers(cs: seq<Chunk>)
    requires |Body(cs)| < LIMIT32
    ensures forall i :: 0 <= i < |cs| ==> |cs[i].value| < LIMIT32
  {
    if cs != [] {
      BodyCovers(cs[..|cs| - 1]);
    }
  }

  /** Parsing what was serialised gives back the type and every chunk, in order, whatever follows the packet in the
      buffer. */
  lemma ParseEncode(kind: uint32, cs: seq<Chunk>, tail: seq<byte>)
    requires |Body(cs)| < LIMIT32
    ensures Parse(Encode(kind, cs) + tail) == Ok(Parsed(kind, cs))
  {
    BodyCovers(cs);
    ParseBody(cs);
    ChunkHeader(Chunk(kind, Body(cs)), tail);
  }

  /** ... and the getters give back the values. */
  lemma FieldRoundTrip(kind: uint32, fs: seq<Field>, i: nat)
    requires |Body(Chunks(fs))| < LIMIT32 && i < |fs| && FieldOk(fs[i])
    ensures Parse(Encode(kind, Chunks(fs))).Ok?
    ensures var p := Parse(Encode(kind, Chunks(fs))).value;
            match fs[i]
            case Null => IsNull(p, i) == Ok(true)
            case Dword(v) => GetDword(p, i) == Ok(v)
            case Data(bytes) => GetData(p, i) == Ok(bytes)
            case WString(text) => GetWString(p, i) == Ok(text)
            case Guid(id) => GetGuid(p, i) == Ok(id)
  {
    ParseEncode(kind, Chunks(fs), []);
    assert Encode(kind, Chunks(fs)) + [] == Encode(kind, Chunks(fs));
    match fs[i]
    case Dword(v) => U32RoundTrip(v);
    case WString(text) => WideRoundTrip(text);
    case _ =>
  }

  // ---------------------------------------------------------------- writing back what was read

  lemma ThreeParts(b: seq<byte>, k: nat)
    requires HEADER <= k <= |b|
    ensures b[..k] == b[..4] + b[4..8] + b[8..k]
  {
  }

  lemma ChunkThere(b: seq<byte>, k: nat)
    requires |b| >= HEADER && k == HEADER + LengthOf(b) <= |b|
    ensures ChunkBytes(Chunk(KindOf(b), b[HEADER..k])) == b[..k]
  {
    var value := b[HEADER..k];
    U32Unique(b[..4]);
    U32Unique(b[4..8]);
    ThreeParts(b, k);
    assert |value| == LengthOf(b) && |value| % LIMIT32 == |value|;
  }

  /** The chunks found tile the value region exactly. */
  lemma {:induction false} FieldsTile(b: seq<byte>)
    requires ParseFields(b).Ok?
    ensures Body(ParseFields(b).value) == b
    decreases |b|
  {
    if b != [] {
      var k := HEADER + LengthOf(b);
      var cs := ParseFields(b).value;
      FieldsTile(b[k..]);
      assert cs[1..] == ParseFields(b[k..]).value;
      BodyFront(cs);
      ChunkThere(b, k);
      assert b == b[..k] + b[k..];
    }
  }

  /** Serialising the chunks of any packet that parses reproduces the packet, byte for byte. */
  lemma EncodeParse(b: seq<byte>)
    requires Parse(b).Ok?
    ensures var p := Parse(b).value;
            Encode(p.kind, p.fields) == b[..HEADER + LengthOf(b)]
  {
    var k := HEADER + LengthOf(b);
    FieldsTile(b[HEADER..k]);
    ChunkThere(b, k);
  }

  /** A getter succeeds exactly on the chunk that the serialiser writes for its result. */
  lemma GettersExact(p: Parsed, i: nat)
    ensures forall v: uint32 :: GetDword(p, i) == Ok(v) <==> i < |p.fields| && p.fields[i] == ChunkOf(Dword(v))
    ensures forall d :: GetData(p, i) == Ok(d) <==> i < |p.fields| && p.fields[i] == ChunkOf(Data(d))
    ensures forall w :: GetWString(p, i) == Ok(w) <==> i < |p.fields| && p.fields[i] == ChunkOf(WString(w))
    ensures forall d :: GetGuid(p, i) == Ok(d) <==> i < |p.fields| && p.fields[i] == ChunkOf(Guid(d)) && |d| == 16
  {
    if i < |p.fields| {
      var c := p.fields[i];
      if |c.value| == 4 { U32Unique(c.value); }
      if |c.value| % 2 == 0 { WideUnique(c.value); }
      forall v: uint32 ensures ToU32(U32(v)) == v { U32RoundTrip(v); }
      forall w ensures Narrow(Wide(w)) == w { WideRoundTrip(w); }
    }
  }

  // ---------------------------------------------------------------- errors

  lemma {:induction false} OnlyMalformed(b: seq<byte>)
    ensures ParseFields(b).Err? ==> ParseFields(b).error == Malformed
    decreases |b|
  {
    if b != [] && |b| >= HEADER && |b| >= HEADER + LengthOf(b) {
      OnlyMalformed(b[HEADER + LengthOf(b)..]);
    }
  }

  /** The bytes are those of some chunks, one after the other. */
  ghost predicate Tiled(b: seq<byte>) {
    exists cs: seq<Chunk> :: Body(cs) == b && forall i :: 0 <= i < |cs| ==> |cs[i].value| < LIMIT32
  }

  lemma {:induction false} ParsedLengths(b: seq<byte>)
    requires ParseFields(b).Ok?
    ensures var cs := ParseFields(b).value; forall i :: 0 <= i < |cs| ==> |cs[i].value| < LIMIT32
    decreases |b|
  {
    if b != [] {
      ParsedLengths(b[HEADER + LengthOf(b)..]);
    }
  }

  lemma TiledParses(b: seq<byte>)
    ensures ParseFields(b).Ok? <==> Tiled(b)
  {
    if ParseFields(b).Ok? {
      FieldsTile(b);
      ParsedLengths(b);
    } else if Tiled(b) {
      var cs: seq<Chunk> :| Body(cs) == b && forall i :: 0 <= i < |cs| ==> |cs[i].value| < LIMIT32;
      ParseBody(cs);
    }
  }

  /** The bytes hold the header and as much as it announces. */
  predicate Whole(b: seq<byte>) {
    |b| >= HEADER && |b| >= HEADER + LengthOf(b)
  }

  /** The constructor throws Incomplete exactly when the bytes end too soon, and Malformed exactly when they do not but
      the value is not made of whole fields. */
  lemma ParseErrors(b: seq<byte>)
    ensures Parse(b) == Err(Incomplete) <==> !Whole(b)
    ensures Parse(b) == Err(Malformed) <==> Whole(b) && !Tiled(b[HEADER..HEADER + LengthOf(b)])
    ensures Parse(b).Ok? <==> Whole(b) && Tiled(b[HEADER..HEADER + LengthOf(b)])
  {
    if Whole(b) {
      TiledParses(b[HEADER..HEADER + LengthOf(b)]);
      OnlyMalformed(b[HEADER..HEADER + LengthOf(b)]);
    }
  }

  /** The error of a getter for fields of this type: none there, another type, or the wrong length. */
  ghost predicate Complains<T(!new)>(p: Parsed, i: nat, kind: uint32, wrong: bool, r: Result<T>) {
    && (r == Err(MissingField) <==> |p.fields| <= i)
    && (r == Err(TypeMismatch) <==> i < |p.fields| && p.fields[i].kind != kind)
    && (r == Err(Malformed) <==> i < |p.fields| && p.fields[i].kind == kind && wrong)
  }

  lemma GetterErrors(p: Parsed, i: nat)
    ensures IsNull(p, i) == if |p.fields| <= i then Err(MissingField) else Ok(p.fields[i].kind == TYPE_NULL)
    ensures Complains(p, i, TYPE_DWORD, i < |p.fields| && |p.fields[i].value| != 4, GetDword(p, i))
    ensures Complains(p, i, TYPE_DATA, false, GetData(p, i))
    ensures Complains(p, i, TYPE_WSTRING, i < |p.fields| && |p.fields[i].value| % 2 == 1, GetWString(p, i))
    ensures Complains(p, i, TYPE_GUID, i < |p.fields| && |p.fields[i].value| != 16, GetGuid(p, i))
  {
  }

  // ---------------------------------------------------------------- the serialiser and the deserialiser

  lemma ModAdd(a: nat, b: nat)
    ensures (a % LIMIT32 + b) % LIMIT32 == (a + b) % LIMIT32
  {
    var q := a / LIMIT32;
    assert a == q * LIMIT32 + a % LIMIT32;
  }

  lemma BodyLast(cs: seq<Chunk>, c: Chunk)
    ensures Body(cs + [c]) == Body(cs) + ChunkBytes(c)
  {
    assert (cs + [c])[..|cs|] == cs;
  }

  lemma Spliced(kind: seq<byte>, length: seq<byte>, body: seq<byte>, extra: seq<byte>)
    requires |kind| == 4 && |length| == 4
    ensures var b := kind + length + body + extra;
            b[..4] == kind && b[4..8] == length && b[8..] == body + extra
  {
  }

  /** Adding a chunk's size to the length field of a packet makes it the length field of the longer packet. */
  lemma LongerPacket(kind: uint32, cs: seq<Chunk>, c: Chunk, length: uint32)
    requires length == |Body(cs)| % LIMIT32
    ensures Encode(kind, cs + [c])
            == U32(kind) + U32((length + HEADER + |c.value|) % LIMIT32) + (Body(cs) + ChunkBytes(c))
  {
    BodyLast(cs, c);
    ModAdd(|Body(cs)|, HEADER + |c.value|);
  }

  lemma PacketLength(kind: uint32, cs: seq<Chunk>, extra: seq<byte>)
    ensures LengthOf(Encode(kind, cs) + extra) == |Body(cs)| % LIMIT32
  {
    Spliced(U32(kind), U32(|Body(cs)| % LIMIT32), Body(cs), extra);
    U32RoundTrip(|Body(cs)| % LIMIT32);
  }

  lemma AppendedPacket(kind: uint32, cs: seq<Chunk>, c: Chunk)
    ensures var b := Encode(kind, cs) + ChunkBytes(c);
            b[..4] + U32((LengthOf(b) + HEADER + |c.value|) % LIMIT32) + b[8..] == Encode(kind, cs + [c])
  {
    Spliced(U32(kind), U32(|Body(cs)| % LIMIT32), Body(cs), ChunkBytes(c));
    PacketLength(kind, cs, ChunkBytes(c));
    LongerPacket(kind, cs, c, |Body(cs)| % LIMIT32);
  }

  class PacketSerialiser {
    var sbuf: seq<byte>
    ghost const kind: uint32
    ghost var written: seq<Chunk>

    ghost predicate Valid()
      reads this
    {
      sbuf == Encode(kind, written)
    }

    constructor (kind: uint32)
      ensures Valid() && this.kind == kind && written == []
    {
      this.kind := kind;
      written := [];
      sbuf := U32(kind) + U32(0);
    }

    /** The header and the value go to the end; the length in the packet header is increased in place. */
    method Append(c: Chunk)
      requires Valid()
      modifies this
      ensures Valid() && written == old(written) + [c]
    {
      AppendedPacket(kind, written, c);
      var header := U32(c.kind) + U32(|c.value| % LIMIT32);
      sbuf := sbuf + (header + c.value);
      var length := LengthOf(sbuf);
      sbuf := sbuf[..4] + U32((length + HEADER + |c.value|) % LIMIT32) + sbuf[8..];
      written := written + [c];
    }

    method AppendNull()
      requires Valid()
      modifies this
      ensures Valid() && written == old(written) + [ChunkOf(Null)]
    {
      Append(Chunk(TYPE_NULL, []));
    }

    method AppendDword(v: uint32)
      requires Valid()
      modifies this
      ensures Valid() && written == old(written) + [ChunkOf(Dword(v))]
    {
      Append(Chunk(TYPE_DWORD, U32(v)));
    }

    method AppendData(bytes: seq<byte>)
      requires Valid()
      modifies this
      ensures Valid() && written == old(written) + [ChunkOf(Data(bytes))]
    {
      Append(Chunk(TYPE_DATA, bytes));
    }

    method AppendWString(text: seq<wchar>)
      requires Valid()
      modifies this
      ensures Valid() && written == old(written) + [ChunkOf(WString(text))]
    {
      Append(Chunk(TYPE_WSTRING, Wide(text)));
    }

    method AppendGuid(id: seq<byte>)
      requires Valid() && |id| == 16
      modifies this
      ensures Valid() && written == old(written) + [ChunkOf(Guid(id))]
    {
      Append(Chunk(TYPE_GUID, id));
    }
  }

  ghost predicate ParsedSoFar(value: seq<byte>, at: nat, fields: seq<Chunk>)
    requires at <= |value|
  {
    ParseFields(value)
    == var rest := ParseFields(value[at..]); if rest.Err? then rest else Ok(fields + rest.value)
  }

  lemma ParsedStep(value: seq<byte>, at: nat, fields: seq<Chunk>, size: nat)
    requires at < |value| && ParsedSoFar(value, at, fields)
    requires |value[at..]| >= HEADER && size == HEADER + LengthOf(value[at..]) <= |value[at..]|
    ensures var here := value[at..];
            ParsedSoFar(value, at + size, fields + [Chunk(KindOf(here), here[HEADER..size])])
  {
    var here := value[at..];
    assert value[at + size..] == here[size..];
    var c := Chunk(KindOf(here), here[HEADER..size]);
    var rest := ParseFields(here[size..]);
    if rest.Ok? {
      assert fields + ([c] + rest.value) == (fields + [c]) + rest.value;
    }
  }

  /** The constructor of PacketDeserialiser: walks over the value and notes each field. */
  method Deserialise(b: seq<byte>) returns (r: Result<Parsed>)
    ensures r == Parse(b)
  {
    if |b| < HEADER || |b| < HEADER + LengthOf(b) {
      return Err(Incomplete);
    }
    var value := b[HEADER..HEADER + LengthOf(b)];
    var at := 0;
    var fields: seq<Chunk> := [];
    assert value[0..] == value;
    assert ParseFields(value).Ok? ==> fields + ParseFields(value).value == ParseFields(value).value;
    while at < |value|
      invariant 0 <= at <= |value|
      invariant ParsedSoFar(value, at, fields)
    {
      var here := value[at..];
      if |here| < HEADER || |here| < HEADER + LengthOf(here) {
        return Err(Malformed);
      }
      var size := HEADER + LengthOf(here);
      ParsedStep(value, at, fields, size);
      fields := fields + [Chunk(KindOf(here), here[HEADER..size])];
      at := at + size;
    }
    assert value[at..] == [] && fields + [] == fields;
    r := Ok(Parsed(KindOf(b), fields));
  }
}
