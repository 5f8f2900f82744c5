/**
 The receiving side of a connection for one stream, updated in place: readChunk's data
 branches, processRxFifo and the scan for repeat requests, each proved to do what its
 function in RxModel says, for every id.
 */
module Receivers {
  import opened Common
  import opened Chunks
  import opened RxModel
  import opened RxOrder
  import opened RxStreams

  class Receiver {
    const id: byte
    const stream: RxStream
    var acks: seq<(byte, nat)>
    var log: seq<RxEvent>

    function Half(): RxHalf
      reads this, stream
    {
      RxHalf(stream.State(), acks, log)
    }

    ghost predicate Valid()
      reads this, stream
    {
      stream.Valid()
    }

    constructor (id: byte)
      ensures Valid() && Half() == EMPTY_HALF && fresh(stream) && this.id == id
    {
      this.id := id;
      stream := new RxStream();
      acks, log := [], [];
    }

    constructor Load(id: byte, h: RxHalf)
      requires IdsFit(h.s) && BuffersFit(h.s)
      ensures Valid() && Half() == h && fresh(stream) && this.id == id
    {
      this.id := id;
      stream := new RxStream.Load(h.s);
      acks, log := h.acks, h.log;
    }

    method ProcessRxFifo(now: int)
      requires Valid()
      modifies this, stream
      ensures Valid() && Half() == Process(old(Half()), now)
    {
      hide RaiseFront, BuffersFit, IdsFit;
      ghost var start := Half();
      while stream.fifo != []
        invariant Valid() && Process(Half(), now) == Process(start, now)
        decreases |stream.fifo|
      {
        var packet := stream.fifo[0];
        var event;
        if packet.isReceived {
          event := Delivered(packet.id, packet.size, if packet.copy == [] then None else Some(packet.copy));
        } else if packet.id < stream.frontPacketId {
          if packet.id < QUARTER && QUARTER3 < stream.frontPacketId {
            break;
          }
          event := Dropped(packet.id);
        } else if packet.timeout <= now {
          event := TimedOut(packet.id);
        } else {
          break;
        }
        log := log + [event];
        stream.PopFront();
      }
    }

    method Acknowledge(packetId: nat)
      modifies this`acks
      ensures Half() == PushAck(old(Half()), id, packetId)
    {
      if acks == [] || acks[|acks| - 1] != (id, packetId) {
        acks := acks + [(id, packetId)];
      }
    }

    method Arrive(now: int, isFront: bool, packetId: nat)
      requires Valid() && packetId <= UINT32_MAX
      modifies this, stream
      ensures Valid() && Half() == Advance(Open(old(Half()), now), isFront, packetId)
    {
      hide RaiseFront, GetState, StreamOk, HeadFront, JumpsBack;
      if stream.isNew {
        stream.isNew := false;
        var _ := stream.Get(now, 0);
      }
      stream.UpdateFrontPacketId(isFront, packetId);
    }

    // The part the three branches share: true when the packet is to be placed, at position i.
    method Accept(c: Chunk, env: RxEnv) returns (place: bool, i: nat)
      requires Valid() && c.IsData() && c.id <= UINT32_MAX && c.stream == id
      modifies this, stream
      ensures Valid()
      ensures !place ==> Half() == RxModel.Accept(old(Half()), c, env)
      ensures place ==>
        && i < |stream.fifo| && stream.fifo[i].id == c.id
        && RxModel.Accept(old(Half()), c, env) == PlaceAt(Half(), i, c, env)
    {
      hide GetState, IndexOf, IsReceivedBefore, BuffersFit, IdsFit, StreamOk, Process, PlaceAt;
      if |stream.fifo| >= RX_FIFO_LIMIT {
        return false, 0;
      }
      var before := stream.ReceivedBefore(c.id);
      if before {
        if c.reliable && c.CarriesPayload() {
          Acknowledge(c.id);
        }
        return false, 0;
      }
      i := stream.Get(env.now, c.id);
      place := stream.fifo[i].id == c.id;
    }

    method ReadSmall(c: Chunk, env: RxEnv)
      requires Valid() && c.Small? && c.id <= UINT32_MAX && c.stream == id
      modifies this, stream
      ensures Valid() && Half() == ReadData(old(Half()), c, env)
    {
      hide Valid, Open, Advance, Process, StoreSmall;
      Arrive(env.now, c.front, c.id);
      var place, i := Accept(c, env);
      if place {
        StoreSmallAt(i, c, env);
        FinishWith(c, c.reliable, true, env.now);
      }
    }

    method StoreSmallAt(i: nat, c: Chunk, env: RxEnv)
      requires Valid() && c.Small? && i < |stream.fifo| && stream.fifo[i].id == c.id
      modifies this, stream
      ensures Valid() && Half() == StoreSmall(old(Half()), i, c.id, c.data, env.now + env.grace)
    {
      assert stream.fifo[i].copy == [] || |stream.fifo[i].copy| == stream.fifo[i].size;
      hide RxModel.PopFront, BuffersFit, IdsFit;
      var packet := stream.fifo[i].(timeout := env.now + env.grace);
      if packet.isReceived {
        stream.Replace(i, packet);
      } else if stream.fifo[0].id == c.id {
        log := log + [Delivered(c.id, |c.data|, Some(c.data))];
        stream.PopFront();
      } else {
        stream.Replace(i, packet.(isReceived := true, size := |c.data|, copy := c.data));
      }
    }

    method ReadBegin(c: Chunk, env: RxEnv)
      requires Valid() && c.Begin? && c.id <= UINT32_MAX && c.stream == id
      modifies this, stream
      ensures Valid() && Half() == ReadData(old(Half()), c, env)
    {
      hide Valid, Open, Advance, Process, BeginPacket, SetPacket;
      Arrive(env.now, c.front, c.id);
      var place, i := Accept(c, env);
      if place {
        StoreBeginAt(i, c, env);
        FinishWith(c, false, true, env.now);
      }
    }

    method StoreBeginAt(i: nat, c: Chunk, env: RxEnv)
      requires Valid() && c.Begin? && i < |stream.fifo| && stream.fifo[i].id == c.id
      modifies this, stream
      ensures Valid() && Half() == SetPacket(old(Half()), i, BeginPacket(old(stream.fifo[i]), c, env))
    {
      assert stream.fifo[i].copy == [] || |stream.fifo[i].copy| == stream.fifo[i].size;
      hide BuffersFit, IdsFit;
      var packet := stream.fifo[i].(timeout := env.now + env.grace);
      if packet.size == 0 {
        packet := packet.(size := c.size, isReliable := c.reliable);
        if c.size <= env.threshold {
          packet := packet.(copy := Resized(packet.copy, c.size));
        }
      }
      stream.Replace(i, packet);
    }

    method ReadPiece(c: Chunk, env: RxEnv)
      requires Valid() && c.Piece? && c.id <= UINT32_MAX && c.stream == id
      modifies this, stream
      ensures Valid() && Half() == ReadData(old(Half()), c, env)
    {
      hide Valid, Open, Advance, Process, StorePiece;
      Arrive(env.now, c.front, c.id);
      var place, i := Accept(c, env);
      if place {
        var done, reliable := StorePieceAt(i, c, env);
        FinishWith(c, done && reliable, done, env.now);
      }
    }

    method StorePieceAt(i: nat, c: Chunk, env: RxEnv) returns (done: bool, reliable: bool)
      requires Valid() && c.Piece? && i < |stream.fifo| && stream.fifo[i].id == c.id
      modifies this, stream
      ensures Valid() && Half() == StorePiece(old(Half()), i, c, env)
      ensures done == PieceCompletes(old(stream.fifo[i]), old(stream.frontPacketId), c)
      ensures reliable == old(stream.fifo[i]).isReliable
    {
      assert stream.fifo[i].copy == [] || |stream.fifo[i].copy| == stream.fifo[i].size;
      hide PiecePacket, BuffersFit, IdsFit;
      var packet := stream.fifo[i].(timeout := env.now + env.grace);
      reliable := packet.isReliable;
      var pass;
      packet, pass, done := WithPiece(packet, stream.frontPacketId, c);
      if pass {
        log := log + [PieceOf(c.id, c.offset, c.data)];
      }
      stream.Replace(i, packet);
    }

    /** The tests a piece goes through once its packet is found: the new packet, whether it was
        passed on without buffering, and whether it completed the packet. */
    static method WithPiece(p: RxPacket, front: nat, c: Chunk) returns (q: RxPacket, pass: bool, done: bool)
      requires c.Piece? && (p.copy == [] || |p.copy| == p.size)
      ensures q == PiecePacket(p, front, c) && q.id == p.id && (q.copy == [] || |q.copy| == q.size)
      ensures pass <==> Verdict(p, front, c).Pass?
      ensures done <==> PieceCompletes(p, front, c)
    {
      q, pass, done := p, false, false;
      if p.size == 0 {
        q := q.(offsetRepeat := 0, isReliable := c.reliable);
        return;
      }
      if c.offset + |c.data| > p.size || c.offset < p.offset {
        return;
      }
      if p.offset != c.offset {
        q := q.(offset := c.offset);
        q := q.(offsetRepeat := q.offset, sizeRepeat := c.offset - q.offset);
        return;
      }
      if p.copy != [] {
        q := q.(copy := p.copy[..c.offset] + c.data + p.copy[c.offset + |c.data|..]);
      } else if front != c.id {
        q := q.(offset := 0, offsetRepeat := 0, sizeRepeat := p.size);
        return;
      } else {
        pass := true;
      }
      q := q.(offset := c.offset + |c.data|);
      if q.offset >= p.size {
        q := q.(isReceived := true);
        done := true;
      }
    }

    method FinishWith(c: Chunk, ack: bool, process: bool, now: int)
      requires Valid() && c.stream == id
      modifies this, stream
      ensures Valid() && Half() == Finish(old(Half()), c, ack, process, now)
    {
      hide RxModel.Process, BuffersFit, IdsFit;
      if ack {
        Acknowledge(c.id);
      }
      if process {
        ProcessRxFifo(now);
      }
    }

    /** readChunk for the chunks that carry data. */
    method Read(c: Chunk, env: RxEnv)
      requires Valid() && c.IsData() && c.id <= UINT32_MAX && c.stream == id
      modifies this, stream
      ensures Valid() && Half() == ReadData(old(Half()), c, env)
    {
      hide Valid, ReadData;
      if c.Small? {
        ReadSmall(c, env);
      } else if c.Begin? {
        ReadBegin(c, env);
      } else {
        ReadPiece(c, env);
      }
    }

    /** The round robin over the queue: one pass, from the position after the last. */
    method FindRepeat(datagram: nat) returns (found: bool)
      requires Valid()
      modifies this, stream
      ensures Valid() && acks == old(acks) && log == old(log)
      ensures (stream.State(), found) == ScanRepeat(old(stream.State()), |old(stream.fifo)|, datagram)
    {
      hide BuffersFit, IdsFit, NextIdx;
      ghost var start := stream.State();
      var left := |stream.fifo|;
      while left > 0
        invariant Valid() && 0 <= left <= |stream.fifo| && acks == old(acks) && log == old(log)
        invariant ScanRepeat(stream.State(), left, datagram) == ScanRepeat(start, |start.fifo|, datagram)
      {
        var i := stream.Next();
        var packet := stream.fifo[i];
        if packet.datagramId == datagram {
          return false;
        }
        if packet.NeedToSendRepeatInfo() {
          return true;
        }
        left := left - 1;
      }
      return false;
    }
  }
}
