/**
 struct TxStream and the loops that work on it: processTxFifo, the scan of writeDataChunk,
 the chunk it cuts, and the searches of readChunk, each proved to compute its function in
 TxModel. A stream goes in and out as a value; the connection stores it back.
 */
module TxStreams {
  import opened Common
  import opened Chunks
  import opened TxModel
  import TxOrder
  import PacketSearch

  function Ids(fifo: seq<TxPacket>): (r: seq<nat>)
    ensures |r| == |fifo| && forall i :: 0 <= i < |fifo| ==> r[i] == fifo[i].id
  {
    seq(|fifo|, i requires 0 <= i < |fifo| => fifo[i].id)
  }

  method ProcessTxFifo(h: TxHalf, now: int) returns (r: TxHalf)
    ensures r == Process(h, now)
  {
    r := h;
    while r.t.fifo != []
      invariant Process(r, now) == Process(h, now)
      decreases |r.t.fifo|
    {
      var packet := r.t.fifo[0];
      var status;
      if !packet.isAcknowledged {
        if now <= packet.timeout {
          break;
        }
        status := 't';
      } else {
        status := 's';
      }
      r := r.(log := r.log + [TxEvent(packet.id, packet.payload, status)]);
      r := r.(t := r.t.(fifo := r.t.fifo[1..]));
      if r.t.packetFifoIdx > 0 {
        r := r.(t := r.t.(packetFifoIdx := r.t.packetFifoIdx - 1));
      }
    }
  }

  /** One stream of writeDataChunk's search: the pass over the queue, then the scan. */
  method ScanStream(h: TxHalf, env: TxEnv) returns (r: TxHalf, found: bool)
    ensures (r, found) == TxOrder.AfterScan(h, env)
  {
    r := ProcessTxFifo(h, env.now);
    ghost var start := r.t;
    found := false;
    var t := r.t;
    var i := 0;
    while i < |t.fifo|
      invariant t.fifo == start.fifo && i <= |t.fifo|
      invariant ScanFrom(t, i, env) == ScanFrom(start, 0, env)
    {
      if t.fifoReturnTime + env.rtt2 < env.now {
        t := t.(fifoReturnTime := env.now + env.rtt2, packetFifoIdx := 0);
      }
      if t.packetFifoIdx > TX_SCAN_LIMIT || t.packetFifoIdx >= |t.fifo| {
        break;
      }
      var packet := t.fifo[t.packetFifoIdx];
      if packet.isAcknowledged || packet.timeout <= env.now || packet.datagramId == env.datagram
        || (!packet.isStarted && env.now < packet.begin + env.rtt2)
      {
        t := t.(packetFifoIdx := t.packetFifoIdx + 1);
        i := i + 1;
        continue;
      }
      found := true;
      break;
    }
    r := r.(t := t);
  }

  // A piece is cut at an offset past the payload.
  predicate CutsOutside(t: TxState, available: nat)
    requires t.packetFifoIdx < |t.fifo|
  {
    var p := t.fifo[t.packetFifoIdx];
    p.isStarted && PieceOverhead(p) <= available && p.offset > |p.payload|
  }

  /** The bytes of a piece lie inside the payload if and only if the offset does. */
  lemma PieceInsideIff(p: TxPacket, available: nat)
    requires PieceOverhead(p) <= available && |p.payload| <= UINT64_MAX && p.offset <= UINT64_MAX
    ensures p.offset + PieceLength(p, available) <= |p.payload| <==> p.offset <= |p.payload|
  {
    hide PieceOverhead;
    if p.offset <= |p.payload| {
      LeftInside(p);
    }
  }

  /**
   The packet the scan stopped at, turned into a chunk of at most the available bytes. With an
   offset past the payload the source copies from outside it; the method stops there instead.
   */
  method CutChunk(h: TxHalf, available: nat, env: TxEnv) returns (r: TxHalf, c: Option<Chunk>, outside: bool)
    requires h.t.packetFifoIdx < |h.t.fifo|
    requires |h.t.fifo[h.t.packetFifoIdx].payload| <= UINT64_MAX
    ensures outside <==> CutsOutside(h.t, available)
    ensures outside ==> c == None && r == h
    ensures !outside ==> c == NextChunk(h.t, available) && r == if c.Some? then WriteChunk(h, c.value, env) else h
  {
    hide NumberOfBits, Process, Left;
    r, c, outside := h, None, false;
    var i := h.t.packetFifoIdx;
    var packet := h.t.fifo[i];
    var isFront := i == 0;
    if !packet.isStarted {
      if CHUNK_HEADER_B + Width(|packet.payload|) + |packet.payload| <= available {
        c := Some(Small(h.t.stream, packet.id, packet.isReliable, isFront, packet.payload));
        packet := packet.(begin := env.now);
        if !packet.isReliable {
          packet := packet.(isAcknowledged := true);
        } else {
          packet := packet.(datagramId := env.datagram);
        }
      } else if CHUNK_HEADER_B + Width(|packet.payload|) + 4 <= available {
        c := Some(Begin(h.t.stream, packet.id, packet.isReliable, isFront, |packet.payload|));
        packet := packet.(isStarted := true, begin := env.now);
      } else {
        return;
      }
    } else {
      var atLeast := CHUNK_HEADER_B + Width(packet.offset) + 2 + 1;
      if available < atLeast {
        return;
      }
      if packet.offset > |packet.payload| {
        outside := true;
        return;
      }
      LeftInside(packet);
      var size := available - atLeast + 1;
      if |packet.payload| - packet.offset < size {
        size := |packet.payload| - packet.offset;
      }
      var bytes := packet.payload[packet.offset..packet.offset + size];
      c := Some(Piece(h.t.stream, packet.id, packet.isReliable, isFront, packet.offset, bytes));
      packet := packet.(offset := packet.offset + size);
      if !packet.isReliable && packet.offset >= |packet.payload| {
        packet := packet.(isAcknowledged := true);
      } else {
        if packet.offset >= |packet.payload| {
          packet := packet.(offset := 0, isStarted := false);
        } else {
          packet := packet.(isStarted := true);
        }
        packet := packet.(datagramId := env.datagram);
      }
    }
    r := r.(t := r.t.(fifo := r.t.fifo[i := packet]));
    if packet.isAcknowledged {
      r := ProcessTxFifo(r, env.now);
    }
  }

  /** The binary search over the ids agrees with the linear search of the model. */
  method FindPacket(fifo: seq<TxPacket>, id: nat) returns (r: Option<nat>)
    requires PacketSearch.Consecutive(Ids(fifo))
    ensures r == Find(fifo, id)
  {
    var i := PacketSearch.FindPacketIdx(Ids(fifo), id);
    FindUnique(fifo, id, i);
    return if i == PacketSearch.NOT_FOUND then None else Some(i);
  }

  lemma FindUnique(fifo: seq<TxPacket>, id: nat, i: nat)
    requires id !in Ids(fifo) || i < |fifo|
    requires id in Ids(fifo) ==> fifo[i].id == id && forall j :: 0 <= j < |fifo| && Ids(fifo)[j] == id ==> j == i
    ensures Find(fifo, id) == if id in Ids(fifo) then Some(i) else None
  {
  }

  method ReadAck(h: TxHalf, id: nat, now: int) returns (r: TxHalf)
    requires PacketSearch.Consecutive(Ids(h.t.fifo))
    ensures r == TxModel.ReadAck(h, id, now)
  {
    r := h;
    var i := FindPacket(h.t.fifo, id);
    if i.Some? {
      r := r.(t := r.t.(fifo := r.t.fifo[i.value := r.t.fifo[i.value].(isAcknowledged := true)]));
      r := ProcessTxFifo(r, now);
    }
  }

  method ReadRepeat(h: TxHalf, id: nat, offset: nat) returns (r: TxHalf)
    requires PacketSearch.Consecutive(Ids(h.t.fifo))
    ensures r == TxModel.ReadRepeat(h, id, offset)
  {
    r := h;
    var i := FindPacket(h.t.fifo, id);
    if i.Some? && h.t.fifo[i.value].isReliable {
      var packet := h.t.fifo[i.value].(offset := offset);
      if offset == 0 {
        packet := packet.(isStarted := false);
      }
      r := r.(t := r.t.(fifo := r.t.fifo[i.value := packet]));
    }
  }

  /** The queue of a conserved stream always meets the precondition of the search. */
  lemma ConservedConsecutive(h: TxHalf, enq: seq<seq<byte>>)
    requires TxOrder.Conserved(h, enq) && |h.t.fifo| <= U32_MOD
    ensures PacketSearch.Consecutive(Ids(h.t.fifo))
  {
    var n := |h.log|;
    var ids := Ids(h.t.fifo);
    forall i | 0 <= i < |ids|
      ensures ids[i] == (ids[0] + i) % U32_MOD
    {
      assert TxOrder.IsNth(h.t.fifo[i], n + i, enq) && TxOrder.IsNth(h.t.fifo[0], n + 0, enq);
      ModAdd(n, i);
    }
  }

  lemma ModAdd(n: nat, i: nat)
    ensures (n % U32_MOD + i) % U32_MOD == (n + i) % U32_MOD
  {
  }

  method ReportDisconnected(fifo: seq<TxPacket>) returns (log: seq<TxEvent>)
    ensures log == Disconnected(fifo)
  {
    hide Disconnected;
    log := [];
    var i := 0;
    assert fifo[0..] == fifo;
    while i < |fifo|
      invariant i <= |fifo|
      invariant log + Disconnected(fifo[i..]) == Disconnected(fifo)
    {
      DisconnectedStep(fifo, i);
      if !fifo[i].isAcknowledged {
        log := log + [TxEvent(fifo[i].id, fifo[i].payload, 'd')];
      }
      i := i + 1;
    }
    DisconnectedNone();
    assert fifo[i..] == [] && log + [] == log;
  }

  lemma DisconnectedStep(fifo: seq<TxPacket>, i: nat)
    requires i < |fifo|
    ensures Disconnected(fifo[i..]) ==
      (if fifo[i].isAcknowledged then [] else [TxEvent(fifo[i].id, fifo[i].payload, 'd')]) + Disconnected(fifo[i + 1..])
  {
    assert fifo[i..][1..] == fifo[i + 1..];
  }

  lemma DisconnectedNone()
    ensures Disconnected([]) == []
  {
  }
}
