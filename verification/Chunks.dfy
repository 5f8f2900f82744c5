/** The units that travel inside a datagram: union ChunkId and the fields behind it. */
module Chunks {
  import opened Common

  const CHUNK_HEADER_B: nat := 1 + 1 + 4

  datatype Chunk =
    | Ack(stream: byte, id: nat)
    | Small(stream: byte, id: nat, reliable: bool, front: bool, data: seq<byte>)
    | Begin(stream: byte, id: nat, reliable: bool, front: bool, size: nat)
    | Piece(stream: byte, id: nat, reliable: bool, front: bool, offset: nat, data: seq<byte>)
    | Repeat(stream: byte, id: nat, repeatOffset: nat, repeatSize: nat)
  {
    // Chunks a sender of data writes; the other two are written by the receiver of data.
    predicate IsData() {
      Small? || Begin? || Piece?
    }

    // Chunks that carry payload bytes.
    predicate CarriesPayload() {
      Small? || Piece?
    }
  }

  /** The width code of an integer field: 0, 1, 2, 3 for 1, 2, 4, 8 bytes. */
  type Bits = b: int | 0 <= b < 4

  // A masked comparison, as the 0 or 1 the source computes with.
  function Flag(b: bool): (r: int)
    ensures 0 <= r <= 1
  {
    if b then 1 else 0
  }

  // a | b on the values 0..3 that getNumberOfBits combines.
  function Or2(a: int, b: int): (r: int)
    requires 0 <= a < 4 && 0 <= b < 4
    ensures 0 <= r < 4
  {
    (if a / 2 == 1 || b / 2 == 1 then 2 else 0) + (if a % 2 == 1 || b % 2 == 1 then 1 else 0)
  }

  /** ChunkId::getNumberOfBits, whose branch-free form is kept. */
  function NumberOfBits(value: nat): (r: Bits)
    requires value <= UINT64_MAX
    ensures r == 0 <==> value < 0x100
    ensures r <= 1 <==> value < 0x1_0000
    ensures r <= 2 <==> value < 0x1_0000_0000
  {
    var b63_32 := Flag(value / 0x1_0000_0000 != 0);
    var b31_16 := Flag(value / 0x1_0000 % 0x1_0000 != 0);
    var b15_8 := Flag(value / 0x100 % 0x100 != 0);
    Or2(Or2(2 * Or2(b63_32, b31_16), if b31_16 == 1 then b15_8 / 2 else b15_8), b63_32)
  }

  function NumberOfBytes(bits: Bits): (r: nat)
    ensures 1 <= r <= 8
  {
    if bits == 0 then 1 else if bits == 1 then 2 else if bits == 2 then 4 else 8
  }

  // The width of the field that holds the value. Every size in the source is a uint64.
  function Width(value: nat): (r: nat)
    ensures 1 <= r <= 8
  {
    if value <= UINT64_MAX then NumberOfBytes(NumberOfBits(value)) else 8
  }

  /** The number of bytes a chunk takes in a datagram. */
  function EncodedSize(c: Chunk): nat {
    match c
    case Ack(_, _) => CHUNK_HEADER_B
    case Small(_, _, _, _, data) => CHUNK_HEADER_B + Width(|data|) + |data|
    case Begin(_, _, _, _, size) => CHUNK_HEADER_B + Width(size) + 4
    case Piece(_, _, _, _, offset, data) => CHUNK_HEADER_B + Width(offset) + Width(|data|) + |data|
    case Repeat(_, _, offset, size) => CHUNK_HEADER_B + Width(offset) + Width(size)
  }
}
