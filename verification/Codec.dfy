/**
 The byte format of a datagram: a 26-byte header, then chunks whose integer fields have the
 least of the widths 1, 2, 4, 8 that holds them, little-endian, behind a bit-packed chunk id.
 */
module Codec {
  import opened Common
  import opened Chunks

  // --------------------------------------------------- write_u8 .. write_u64

  function Pow256(width: nat): (r: nat)
    ensures r > 0
  {
    if width == 0 then 1 else 256 * Pow256(width - 1)
  }

  function Le(value: nat, width: nat): (r: seq<byte>)
    ensures |r| == width
    decreases width
  {
    if width == 0 then [] else [value % 256] + Le(value / 256, width - 1)
  }

  function FromLe(s: seq<byte>): (r: nat)
    ensures r < Pow256(|s|)
  {
    if s == [] then 0 else s[0] + 256 * FromLe(s[1..])
  }

  lemma {:induction false} LeRoundTrip(value: nat, width: nat)
    requires value < Pow256(width)
    ensures FromLe(Le(value, width)) == value
    decreases width
  {
    if width > 0 {
      LeRoundTrip(value / 256, width - 1);
      assert Le(value, width)[1..] == Le(value / 256, width - 1);
    }
  }

  // A value fits the width chosen for it, and no narrower one.
  lemma WidthFits(value: nat)
    requires value <= UINT64_MAX
    ensures value < Pow256(Width(value))
    ensures forall w :: w in {1, 2, 4, 8} && value < Pow256(w) ==> Width(value) <= w
  {
  }

  function LeField(value: nat): seq<byte> {
    Le(value, Width(value))
  }

  // ------------------------------------------------------------ union ChunkId

  function WidthCode(value: nat): Bits {
    if value <= UINT64_MAX then NumberOfBits(value) else 3
  }

  const TYPE_SMALL: int := 0
  const TYPE_BEGIN: int := 1
  const TYPE_PIECE: int := 2
  const TYPE_REPEAT: int := 3

  function ChunkIdOf(c: Chunk): byte {
    match c
    case Ack(_, _) => TYPE_SMALL + 8 + 16
    case Small(_, _, reliable, front, data) =>
      TYPE_SMALL + 16 * Flag(reliable) + 32 * Flag(front) + 64 * WidthCode(|data|)
    case Begin(_, _, reliable, front, size) =>
      TYPE_BEGIN + 16 * Flag(reliable) + 32 * Flag(front) + 64 * WidthCode(size)
    case Piece(_, _, reliable, front, offset, data) =>
      TYPE_PIECE + 4 * Flag(reliable) + 8 * Flag(front) + 16 * WidthCode(offset) + 64 * WidthCode(|data|)
    case Repeat(_, _, offset, size) =>
      TYPE_REPEAT + 16 * WidthCode(offset) + 64 * WidthCode(size)
  }

  // The chunk without its six-byte header.
  function Body(c: Chunk): seq<byte> {
    match c
    case Ack(_, _) => []
    case Small(_, _, _, _, data) => LeField(|data|) + data
    case Begin(_, _, _, _, size) => LeField(size) + Le(0, 4)
    case Piece(_, _, _, _, offset, data) => LeField(offset) + (LeField(|data|) + data)
    case Repeat(_, _, offset, size) => LeField(offset) + LeField(size)
  }

  function Encode(c: Chunk): (r: seq<byte>)
    ensures |r| == EncodedSize(c)
  {
    [ChunkIdOf(c), c.stream] + Le(c.id, 4) + Body(c)
  }

  /** What fits the fields: ids are uint32, sizes uint64, and payload bytes are counted in 16 bits. */
  predicate Encodable(c: Chunk) {
    && c.id <= UINT32_MAX
    && match c
      case Ack(_, _) => true
      case Small(_, _, _, _, data) => 1 <= |data| <= 0xFFFF
      case Begin(_, _, _, _, size) => size <= UINT64_MAX
      case Piece(_, _, _, _, offset, data) => offset <= UINT64_MAX && 1 <= |data| <= 0xFFFF
      case Repeat(_, _, offset, size) => offset <= UINT64_MAX && size <= UINT64_MAX
  }

  // ---------------------------------------------------------------- readChunk

  /**
   What readChunk makes of the bytes left. Stop is its return value 0. CutAck is an
   acknowledgement of which only 3, 4 or 5 bytes are there: its length is not compared with
   what is left, so readChunk reads the packet id past the end and returns the whole length.
   */
  datatype Parsed = Stop | CutAck | Chunk(chunk: Chunk, size: nat) {
    // The number of bytes readChunk claims to have read.
    function Returned(): nat {
      match this
      case Stop => 0
      case CutAck => CHUNK_HEADER_B
      case Chunk(_, n) => n
    }
  }

  predicate IsCutAck(s: seq<byte>) {
    3 <= |s| < CHUNK_HEADER_B && s[0] % 4 == TYPE_SMALL && s[0] / 8 % 2 == 1
  }

  // Each takes the bit fields of the chunk id, the stream and packet ids, and the bytes behind the header.
  function ParseSmall(reliable: bool, front: bool, bits: Bits, stream: byte, packet: nat, b: seq<byte>): Parsed {
    var w := NumberOfBytes(bits);
    if w > |b| || bits > 1 then Stop
    else
      var size := FromLe(b[..w]);
      var rest := b[w..];
      if size == 0 || size > |rest| then Stop
      else Parsed.Chunk(Small(stream, packet, reliable, front, rest[..size]), CHUNK_HEADER_B + w + size)
  }

  function ParseBegin(reliable: bool, front: bool, bits: Bits, stream: byte, packet: nat, b: seq<byte>): Parsed {
    var w := NumberOfBytes(bits);
    if w + 4 > |b| then Stop
    else Parsed.Chunk(Begin(stream, packet, reliable, front, FromLe(b[..w])), CHUNK_HEADER_B + w + 4)
  }

  function ParsePiece(reliable: bool, front: bool, offsetBits: Bits, sizeBits: Bits,
                      stream: byte, packet: nat, b: seq<byte>): Parsed
  {
    var w := NumberOfBytes(offsetBits);
    var v := NumberOfBytes(sizeBits);
    if w + v + 1 > |b| || sizeBits > 1 then Stop
    else
      var sized := b[w..];
      var size := FromLe(sized[..v]);
      var rest := sized[v..];
      if size > |rest| then Stop
      else Parsed.Chunk(
        Piece(stream, packet, reliable, front, FromLe(b[..w]), rest[..size]), CHUNK_HEADER_B + w + v + size)
  }

  function ParseRepeat(offsetBits: Bits, sizeBits: Bits, stream: byte, packet: nat, b: seq<byte>): Parsed {
    var w := NumberOfBytes(offsetBits);
    var v := NumberOfBytes(sizeBits);
    if w + v > |b| then Stop
    else
      var sized := b[w..];
      Parsed.Chunk(Repeat(stream, packet, FromLe(b[..w]), FromLe(sized[..v])), CHUNK_HEADER_B + w + v)
  }

  function Parse(s: seq<byte>): (r: Parsed)
    ensures r.CutAck? <==> IsCutAck(s)
    ensures r.Chunk? ==> CHUNK_HEADER_B <= r.size <= |s|
  {
    if |s| < 3 then Stop
    else if |s| < CHUNK_HEADER_B then if IsCutAck(s) then CutAck else Stop
    else
      var id, stream := s[0], s[1];
      var packet := FromLe(s[2..CHUNK_HEADER_B]);
      var b := s[CHUNK_HEADER_B..];
      if id % 4 == TYPE_SMALL then
        if id / 8 % 2 == 1 then Parsed.Chunk(Ack(stream, packet), CHUNK_HEADER_B)
        else ParseSmall(id / 16 % 2 == 1, id / 32 % 2 == 1, id / 64, stream, packet, b)
      else if id % 4 == TYPE_BEGIN then
        ParseBegin(id / 16 % 2 == 1, id / 32 % 2 == 1, id / 64, stream, packet, b)
      else if id % 4 == TYPE_PIECE then
        ParsePiece(id / 4 % 2 == 1, id / 8 % 2 == 1, id / 16 % 4, id / 64, stream, packet, b)
      else ParseRepeat(id / 16 % 4, id / 64, stream, packet, b)
  }

  /** What is parsed lies in the bytes: the payload ends the chunk, and has the length its kind allows. */
  lemma ParsedBytes(s: seq<byte>)
    requires Parse(s).Chunk?
    ensures var r := Parse(s);
      && r.chunk.stream == s[1] && r.chunk.id == FromLe(s[2..6])
      && (r.chunk.Small? ==> 1 <= |r.chunk.data| <= 0xFFFF) && (r.chunk.Piece? ==> |r.chunk.data| <= 0xFFFF)
      && (r.chunk.CarriesPayload() ==> r.chunk.data == s[r.size - |r.chunk.data|..r.size])
  {
    Powers();
    hide FromLe, Pow256;
  }

  lemma Powers()
    ensures Pow256(1) == 0x100 && Pow256(2) == 0x1_0000 && Pow256(4) == 0x1_0000_0000 && Pow256(8) == UINT64_MAX + 1
  {
  }

  // ------------------------------------------------------------------ the bytes

  /** The first byte: the type in its low two bits, and the flags where the source has them. */
  lemma FirstByte(c: Chunk)
    requires Encodable(c)
    ensures var b := Encode(c)[0];
      match c
      case Ack(_, _) => b == 24
      case Small(_, _, reliable, front, data) =>
        b == (if reliable then 16 else 0) + (if front then 32 else 0) + (if |data| < 256 then 0 else 64)
      case Begin(_, _, reliable, front, size) =>
        b == 1 + (if reliable then 16 else 0) + (if front then 32 else 0) + 64 * WidthCode(size)
      case Piece(_, _, reliable, front, offset, data) =>
        b == 2 + (if reliable then 4 else 0) + (if front then 8 else 0) + 16 * WidthCode(offset)
          + (if |data| < 256 then 0 else 64)
      case Repeat(_, _, offset, size) => b == 3 + 16 * WidthCode(offset) + 64 * WidthCode(size)
    ensures Encode(c)[1] == c.stream
  {
    hide NumberOfBits;
  }

  /** One chunk of each kind, byte by byte. */
  lemma ChunkBytes()
    ensures Encode(Ack(3, 258)) == [24, 3, 2, 1, 0, 0]
    ensures Encode(Small(3, 258, true, true, [7])) == [48, 3, 2, 1, 0, 0, 1, 7]
    ensures Encode(Begin(3, 258, true, false, 300)) == [81, 3, 2, 1, 0, 0, 44, 1, 0, 0, 0, 0]
    ensures Encode(Piece(3, 258, true, true, 300, [7, 8])) == [30, 3, 2, 1, 0, 0, 44, 1, 2, 7, 8]
    ensures Encode(Repeat(3, 258, 300, 5)) == [19, 3, 2, 1, 0, 0, 44, 1, 5]
  {
    SomeFields();
    hide Le, NumberOfBits, LeField, WidthCode;
  }

  lemma SomeFields()
    ensures Le(258, 4) == [2, 1, 0, 0] && Le(0, 4) == [0, 0, 0, 0]
    ensures LeField(300) == [44, 1] && LeField(1) == [1] && LeField(2) == [2] && LeField(5) == [5]
    ensures WidthCode(300) == 1 && WidthCode(1) == 0 && WidthCode(2) == 0 && WidthCode(5) == 0
  {
    LeStep(0, 1);
    LeStep(0, 2);
    LeStep(0, 3);
    LeStep(0, 4);
    LeStep(1, 1);
    LeStep(1, 3);
    LeStep(258, 4);
    LeStep(300, 2);
    LeStep(2, 1);
    LeStep(5, 1);
    assert forall x :: Le(x, 0) == [];
    assert Width(300) == 2 && Width(1) == 1 && Width(2) == 1 && Width(5) == 1;
    hide Le, NumberOfBits;
  }

  lemma LeStep(value: nat, width: nat)
    requires width > 0
    ensures Le(value, width) == [value % 256] + Le(value / 256, width - 1)
  {
  }

  // --------------------------------------------------------------- round trip

  // A field at the start of some bytes, and what is left behind it.
  lemma FieldRoundTrip(value: nat, rest: seq<byte>, b: seq<byte>, w: nat)
    requires value <= UINT64_MAX && b == LeField(value) + rest && w == NumberOfBytes(WidthCode(value))
    ensures w <= |b| && FromLe(b[..w]) == value && b[w..] == rest
  {
    WidthFits(value);
    LeRoundTrip(value, w);
    assert b[..w] == LeField(value);
  }

  lemma LowFields(t: int, a: int, r: int, f: int, w: int)
    requires 0 <= t < 4 && 0 <= a < 2 && 0 <= r < 2 && 0 <= f < 2 && 0 <= w < 4
    ensures var id := t + 8 * a + 16 * r + 32 * f + 64 * w;
      id % 4 == t && id / 8 % 2 == a && id / 16 % 2 == r && id / 32 % 2 == f && id / 64 == w
  {
    var id := t + 8 * a + 16 * r + 32 * f + 64 * w;
    assert id / 8 == a + 2 * (r + 2 * f + 4 * w);
    assert id / 16 == r + 2 * (f + 2 * w);
    assert id / 32 == f + 2 * w;
  }

  lemma HighFields(t: int, r: int, f: int, o: int, w: int)
    requires 0 <= t < 4 && 0 <= r < 2 && 0 <= f < 2 && 0 <= o < 4 && 0 <= w < 4
    ensures var id := t + 4 * r + 8 * f + 16 * o + 64 * w;
      id % 4 == t && id / 4 % 2 == r && id / 8 % 2 == f && id / 16 % 4 == o && id / 64 == w
  {
    var id := t + 4 * r + 8 * f + 16 * o + 64 * w;
    assert id / 4 == r + 2 * (f + 2 * o + 8 * w);
    assert id / 8 == f + 2 * (o + 4 * w);
    assert id / 16 == o + 4 * w;
  }

  // The bit fields of a chunk id are read back as they were packed.
  lemma ChunkIdRoundTrip(c: Chunk)
    ensures var id := ChunkIdOf(c);
      match c
      case Ack(_, _) => id % 4 == TYPE_SMALL && id / 8 % 2 == 1
      case Small(_, _, reliable, front, data) =>
        && id % 4 == TYPE_SMALL && id / 8 % 2 == 0 && id / 64 == WidthCode(|data|)
        && (id / 16 % 2 == 1) == reliable && (id / 32 % 2 == 1) == front
      case Begin(_, _, reliable, front, size) =>
        && id % 4 == TYPE_BEGIN && id / 64 == WidthCode(size)
        && (id / 16 % 2 == 1) == reliable && (id / 32 % 2 == 1) == front
      case Piece(_, _, reliable, front, offset, data) =>
        && id % 4 == TYPE_PIECE && id / 16 % 4 == WidthCode(offset) && id / 64 == WidthCode(|data|)
        && (id / 4 % 2 == 1) == reliable && (id / 8 % 2 == 1) == front
      case Repeat(_, _, offset, size) =>
        id % 4 == TYPE_REPEAT && id / 16 % 4 == WidthCode(offset) && id / 64 == WidthCode(size)
  {
    hide NumberOfBits, WidthCode;
    match c
    case Ack(_, _) =>
    case Small(_, _, reliable, front, data) => LowFields(TYPE_SMALL, 0, Flag(reliable), Flag(front), WidthCode(|data|));
    case Begin(_, _, reliable, front, size) => LowFields(TYPE_BEGIN, 0, Flag(reliable), Flag(front), WidthCode(size));
    case Piece(_, _, reliable, front, offset, data) =>
      HighFields(TYPE_PIECE, Flag(reliable), Flag(front), WidthCode(offset), WidthCode(|data|));
    case Repeat(_, _, offset, size) => HighFields(TYPE_REPEAT, 0, 0, WidthCode(offset), WidthCode(size));
  }

  lemma SmallRoundTrip(c: Chunk, rest: seq<byte>)
    requires c.Small? && Encodable(c)
    ensures ParseSmall(c.reliable, c.front, WidthCode(|c.data|), c.stream, c.id, Body(c) + rest)
      == Parsed.Chunk(c, EncodedSize(c))
  {
    hide NumberOfBits, NumberOfBytes, Pow256, Le, FromLe;
    var b, tail := Body(c) + rest, c.data + rest;
    assert b == LeField(|c.data|) + tail;
    FieldRoundTrip(|c.data|, tail, b, Width(|c.data|));
    assert tail[..|c.data|] == c.data;
  }

  lemma BeginRoundTrip(c: Chunk, rest: seq<byte>)
    requires c.Begin? && Encodable(c)
    ensures ParseBegin(c.reliable, c.front, WidthCode(c.size), c.stream, c.id, Body(c) + rest)
      == Parsed.Chunk(c, EncodedSize(c))
  {
    hide NumberOfBits, NumberOfBytes, Pow256, Le, FromLe;
    var b, tail := Body(c) + rest, Le(0, 4) + rest;
    assert b == LeField(c.size) + tail;
    FieldRoundTrip(c.size, tail, b, Width(c.size));
  }

  lemma Regroup(p: seq<byte>, q: seq<byte>, r: seq<byte>, s: seq<byte>)
    ensures (p + (q + r)) + s == p + (q + (r + s))
  {
  }

  lemma PieceRoundTrip(c: Chunk, rest: seq<byte>)
    requires c.Piece? && Encodable(c)
    ensures ParsePiece(c.reliable, c.front, WidthCode(c.offset), WidthCode(|c.data|), c.stream, c.id, Body(c) + rest)
      == Parsed.Chunk(c, EncodedSize(c))
  {
    hide NumberOfBits, NumberOfBytes, Pow256, Le, FromLe;
    var b, sized, tail := Body(c) + rest, LeField(|c.data|) + (c.data + rest), c.data + rest;
    Regroup(LeField(c.offset), LeField(|c.data|), c.data, rest);
    FieldRoundTrip(c.offset, sized, b, Width(c.offset));
    FieldRoundTrip(|c.data|, tail, sized, Width(|c.data|));
    assert tail[..|c.data|] == c.data;
  }

  lemma RepeatRoundTrip(c: Chunk, rest: seq<byte>)
    requires c.Repeat? && Encodable(c)
    ensures ParseRepeat(WidthCode(c.repeatOffset), WidthCode(c.repeatSize), c.stream, c.id, Body(c) + rest)
      == Parsed.Chunk(c, EncodedSize(c))
  {
    hide NumberOfBits, NumberOfBytes, Pow256, Le, FromLe;
    var b, sized := Body(c) + rest, LeField(c.repeatSize) + rest;
    assert b == LeField(c.repeatOffset) + sized;
    FieldRoundTrip(c.repeatOffset, sized, b, Width(c.repeatOffset));
    FieldRoundTrip(c.repeatSize, rest, sized, Width(c.repeatSize));
  }

  lemma HeaderRoundTrip(c: Chunk, rest: seq<byte>)
    requires Encodable(c)
    ensures var s := Encode(c) + rest;
      && CHUNK_HEADER_B <= |s| && s[0] == ChunkIdOf(c) && s[1] == c.stream
      && FromLe(s[2..CHUNK_HEADER_B]) == c.id && s[CHUNK_HEADER_B..] == Body(c) + rest
  {
    hide Body, ChunkIdOf;
    var s := Encode(c) + rest;
    assert s[2..CHUNK_HEADER_B] == Le(c.id, 4);
    assert Pow256(4) == 0x1_0000_0000 by {
      assert Pow256(2) == 0x1_0000;
      assert Pow256(4) == 0x1_0000 * Pow256(2);
    }
    LeRoundTrip(c.id, 4);
  }

  /** One chunk, whatever bytes follow it: the parser returns it and its exact length. */
  lemma ChunkRoundTrip(c: Chunk, rest: seq<byte>)
    requires Encodable(c)
    ensures Parse(Encode(c) + rest) == Parsed.Chunk(c, |Encode(c)|)
  {
    hide ChunkIdOf, Body, Encode, FromLe, ParseSmall, ParseBegin, ParsePiece, ParseRepeat;
    HeaderRoundTrip(c, rest);
    ChunkIdRoundTrip(c);
    match c
    case Ack(_, _) =>
    case Small(_, _, _, _, _) => SmallRoundTrip(c, rest);
    case Begin(_, _, _, _, _) => BeginRoundTrip(c, rest);
    case Piece(_, _, _, _, _, _) => PieceRoundTrip(c, rest);
    case Repeat(_, _, _, _) => RepeatRoundTrip(c, rest);
  }

  // ------------------------------------------------------------ whole datagrams

  function EncodeAll(cs: seq<Chunk>): seq<byte> {
    if cs == [] then [] else Encode(cs[0]) + EncodeAll(cs[1..])
  }

  function Total(cs: seq<Chunk>): nat {
    if cs == [] then 0 else EncodedSize(cs[0]) + Total(cs[1..])
  }

  /** The chunks the loop of onUdpReceived reads, and the bytes it leaves. */
  function ParseAll(s: seq<byte>): (r: (seq<Chunk>, seq<byte>))
    decreases |s|
  {
    match Parse(s)
    case Stop => ([], s)
    case CutAck => ([], s)
    case Chunk(c, n) => var (cs, rest) := ParseAll(s[n..]); ([c] + cs, rest)
  }

  /** A datagram is read back as the list it was written from, and every byte is consumed. */
  lemma {:induction false} DatagramRoundTrip(cs: seq<Chunk>)
    requires forall i :: 0 <= i < |cs| ==> Encodable(cs[i])
    ensures ParseAll(EncodeAll(cs)) == (cs, [])
    ensures |EncodeAll(cs)| == Total(cs)
  {
    if cs != [] {
      DatagramRoundTrip(cs[1..]);
      ChunkRoundTrip(cs[0], EncodeAll(cs[1..]));
      assert EncodeAll(cs)[|Encode(cs[0])|..] == EncodeAll(cs[1..]);
      assert cs == [cs[0]] + cs[1..];
    }
  }

  lemma {:induction false} EncodeAllAppend(cs: seq<Chunk>, c: Chunk)
    ensures EncodeAll(cs + [c]) == EncodeAll(cs) + Encode(c)
  {
    hide Encode;
    if cs == [] {
      assert cs + [c] == [c];
      assert [c][1..] == [];
    } else {
      EncodeAllAppend(cs[1..], c);
      assert (cs + [c])[1..] == cs[1..] + [c];
    }
  }

  /** Different chunk lists have different bytes. */
  lemma EncodeAllInjective(cs: seq<Chunk>, ds: seq<Chunk>)
    requires forall i :: 0 <= i < |cs| ==> Encodable(cs[i])
    requires forall i :: 0 <= i < |ds| ==> Encodable(ds[i])
    requires EncodeAll(cs) == EncodeAll(ds)
    ensures cs == ds
  {
    DatagramRoundTrip(cs);
    DatagramRoundTrip(ds);
  }

  /**
   The reading loop of onUdpReceived, on any bytes at all. It stays inside the datagram if and
   only if what the parser leaves is not a cut acknowledgement. Otherwise its offset passes the
   end by one to three bytes; the next subtraction of the source wraps, and it reads on outside.
   */
  method ReadDatagram(s: seq<byte>) returns (cs: seq<Chunk>, offset: nat)
    ensures cs == ParseAll(s).0
    ensures offset <= |s| <==> !IsCutAck(ParseAll(s).1)
    ensures offset <= |s| ==> s[offset..] == ParseAll(s).1
    ensures offset > |s| ==> offset == |s| - |ParseAll(s).1| + CHUNK_HEADER_B
  {
    hide Parse;
    cs, offset := [], 0;
    while true
      invariant offset <= |s|
      invariant ParseAll(s).0 == cs + ParseAll(s[offset..]).0
      invariant ParseAll(s).1 == ParseAll(s[offset..]).1
      decreases |s| - offset
    {
      if |s| - offset == 0 { break; }
      var p := Parse(s[offset..]);
      var readed := p.Returned();
      if readed <= 0 { break; }
      if p.CutAck? {
        offset := offset + readed;
        break;
      }
      assert s[offset..][p.size..] == s[offset + p.size..];
      cs := cs + [p.chunk];
      offset := offset + readed;
    }
  }

  /** The smallest such datagram: an acknowledgement cut to three bytes takes the loop to offset 6. */
  lemma CutAckOverruns()
    ensures Parse([24, 3, 0]) == CutAck && Parse([24, 3, 0]).Returned() == 6 > |[24, 3, 0]|
    ensures ParseAll([24, 3, 0]) == ([], [24, 3, 0]) && IsCutAck(ParseAll([24, 3, 0]).1)
  {
  }

  /** A datagram that was written never ends in one. */
  lemma WrittenStaysInside(cs: seq<Chunk>)
    requires forall i :: 0 <= i < |cs| ==> Encodable(cs[i])
    ensures !IsCutAck(ParseAll(EncodeAll(cs)).1)
  {
    DatagramRoundTrip(cs);
  }
}
