/** A whole datagram: the packed header in front of the chunks, and zero bytes behind them. */
module Datagrams {
  import opened Common
  import opened Chunks
  import opened Codec
  import RxModel

  const HEADER_B: nat := 26
  const TYPE_A: nat := 0x51302201

  /** struct PacketHeader, without padding between its fields. */
  datatype Header = Header(
    packetId: nat,
    packetNumber: nat,
    connectionId: nat,
    pmtuProbeSize: nat,
    packetsLoss: nat,
    rttDelay: nat,
    rttRequest: byte,
    rttResponse: byte)
  {
    // The fields are uint32, uint32, uint64, uint16, uint16 and uint32.
    predicate Fits() {
      && packetId <= UINT32_MAX && packetNumber <= UINT32_MAX && connectionId <= UINT64_MAX
      && pmtuProbeSize <= 0xFFFF && packetsLoss <= 0xFFFF && rttDelay <= UINT32_MAX
    }
  }

  /** The header in front of the bytes that follow it. */
  function WithHeader(h: Header, rest: seq<byte>): (r: seq<byte>)
    ensures |r| == HEADER_B + |rest|
  {
    Le(h.packetId, 4) + (Le(h.packetNumber, 4) + (Le(h.connectionId, 8) + (Le(h.pmtuProbeSize, 2)
    + (Le(h.packetsLoss, 2) + (Le(h.rttDelay, 4) + ([h.rttRequest, h.rttResponse] + rest))))))
  }

  // A field of the given width, and the bytes behind it.
  function Take(s: seq<byte>, width: nat): (r: (nat, seq<byte>))
    requires width <= |s|
    ensures |r.1| == |s| - width
  {
    (FromLe(s[..width]), s[width..])
  }

  /** The view onUdpReceived takes of a datagram; one shorter than the header is ignored. */
  function SplitHeader(s: seq<byte>): Option<(Header, seq<byte>)> {
    if |s| < HEADER_B then None
    else
      var (packetId, s1) := Take(s, 4);
      var (packetNumber, s2) := Take(s1, 4);
      var (connectionId, s3) := Take(s2, 8);
      var (probe, s4) := Take(s3, 2);
      var (loss, s5) := Take(s4, 2);
      var (delay, s6) := Take(s5, 4);
      Some((Header(packetId, packetNumber, connectionId, probe, loss, delay, s6[0], s6[1]), s6[2..]))
  }

  lemma TakeLe(value: nat, width: nat, rest: seq<byte>)
    requires value < Pow256(width)
    ensures Take(Le(value, width) + rest, width) == (value, rest)
  {
  }

  /** The header is read back field by field, whatever follows it. */
  lemma PacketHeaderRoundTrip(h: Header, rest: seq<byte>)
    requires h.Fits()
    ensures SplitHeader(WithHeader(h, rest)) == Some((h, rest))
  {
    Powers();
    hide Le, Pow256, Take;
    var s6 := [h.rttRequest, h.rttResponse] + rest;
    var s5 := Le(h.rttDelay, 4) + s6;
    var s4 := Le(h.packetsLoss, 2) + s5;
    var s3 := Le(h.pmtuProbeSize, 2) + s4;
    var s2 := Le(h.connectionId, 8) + s3;
    var s1 := Le(h.packetNumber, 4) + s2;
    TakeLe(h.packetId, 4, s1);
    TakeLe(h.packetNumber, 4, s2);
    TakeLe(h.connectionId, 8, s3);
    TakeLe(h.pmtuProbeSize, 2, s4);
    TakeLe(h.packetsLoss, 2, s5);
    TakeLe(h.rttDelay, 4, s6);
    assert s6[2..] == rest;
  }

  /** Where each field of the header lies. */
  lemma HeaderBytes(h: Header, rest: seq<byte>)
    ensures var s := WithHeader(h, rest);
      && s[0..4] == Le(h.packetId, 4) && s[4..8] == Le(h.packetNumber, 4) && s[8..16] == Le(h.connectionId, 8)
      && s[16..18] == Le(h.pmtuProbeSize, 2) && s[18..20] == Le(h.packetsLoss, 2) && s[20..24] == Le(h.rttDelay, 4)
      && s[24] == h.rttRequest && s[25] == h.rttResponse && s[26..] == rest
  {
    hide Le;
  }

  // Zero bytes look like an empty small packet, which the parser refuses.
  lemma ZerosStop(n: nat)
    ensures !Parse(RxModel.Zeros(n)).Chunk?
  {
  }

  /** The padding of a bandwidth test adds no chunk. */
  lemma {:induction false} PaddingIsInert(cs: seq<Chunk>, n: nat)
    requires forall i :: 0 <= i < |cs| ==> Encodable(cs[i])
    ensures ParseAll(EncodeAll(cs) + RxModel.Zeros(n)) == (cs, RxModel.Zeros(n))
  {
    hide Parse, Encode;
    var z := RxModel.Zeros(n);
    if cs == [] {
      ZerosStop(n);
      assert EncodeAll(cs) + z == z;
    } else {
      PaddingIsInert(cs[1..], n);
      var tail := EncodeAll(cs[1..]) + z;
      assert EncodeAll(cs) + z == Encode(cs[0]) + tail;
      ChunkRoundTrip(cs[0], tail);
      assert (Encode(cs[0]) + tail)[|Encode(cs[0])|..] == tail;
      assert cs == [cs[0]] + cs[1..];
    }
  }
}
