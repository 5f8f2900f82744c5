/**
 What filling one datagram from one stream keeps: chunks fit the space and the format, and
 a packet gives a datagram at most one chunk, or a begin chunk and then one piece.
 */
module Outgoing {
  import opened Common
  import opened Chunks
  import opened TxModel
  import TxOrder
  import TxStreams
  import Codec
  import PacketSearch
  import Runs
  import RxOrder
  import Rx = RxModel

  // The largest UDP payload, and so the most a datagram can hold.
  const MAX_DATAGRAM: nat := 0xFFFF

  /** What every operation keeps of a queue; enq is what was ever handed to send(). */
  ghost predicate QueueKept(h: TxHalf, enq: seq<seq<byte>>) {
    && TxOrder.Conserved(h, enq)
    && |h.t.fifo| <= U32_MOD
    && forall k :: 0 <= k < |enq| ==> |enq[k]| <= UINT64_MAX
  }

  /** A stream whose queue the connection may send from. */
  ghost predicate QueueOk(h: TxHalf, enq: seq<seq<byte>>) {
    QueueKept(h, enq) && Runs.OffsetsInside(h)
  }

  // The packet has nothing more to give to the datagram.
  predicate Spent(p: TxPacket, datagram: nat) {
    p.isAcknowledged || p.datagramId == datagram
  }

  // Every queued packet the chunk may have been cut from remembers it.
  ghost predicate Remembers(h: TxHalf, c: Chunk, datagram: nat) {
    forall j :: 0 <= j < |h.t.fifo| && h.t.fifo[j].id == c.id ==>
      Spent(h.t.fifo[j], datagram) || (c.Begin? && h.t.fifo[j].isStarted)
  }

  lemma {:induction false} ProcessSuffix(h: TxHalf, now: int)
    ensures Suffix(h.t.fifo, Process(h, now).t.fifo)
    decreases |h.t.fifo|
  {
    if PopReady(h.t, now) {
      ProcessSuffix(PopOnce(h), now);
    }
  }

  lemma SuffixRemembers(h: TxHalf, r: TxHalf, c: Chunk, datagram: nat)
    requires Suffix(h.t.fifo, r.t.fifo) && Remembers(h, c, datagram)
    ensures Remembers(r, c, datagram)
  {
  }

  lemma ScanOk(h: TxHalf, enq: seq<seq<byte>>, env: TxEnv)
    requires QueueOk(h, enq)
    ensures QueueOk(TxOrder.AfterScan(h, env).0, enq)
    ensures TxOrder.AfterScan(h, env).0.t.stream == h.t.stream
    ensures Suffix(h.t.fifo, TxOrder.AfterScan(h, env).0.t.fifo)
  {
    TxOrder.AfterScanConserved(h, enq, env);
    TxOrder.ProcessConserved(h, enq, env.now);
    Runs.ProcessOffsets(h, env.now);
    ProcessSuffix(h, env.now);
  }

  // The packet the scan stopped at.
  function Candidate(h: TxHalf): TxPacket
    requires h.t.packetFifoIdx < |h.t.fifo|
  {
    h.t.fifo[h.t.packetFifoIdx]
  }

  lemma CandidateFields(h: TxHalf, enq: seq<seq<byte>>)
    requires QueueOk(h, enq) && h.t.packetFifoIdx < |h.t.fifo| && !Candidate(h).isAcknowledged
    ensures var p := Candidate(h); p.id <= UINT32_MAX && p.offset < |p.payload| <= UINT64_MAX
  {
  }

  lemma FirstFits(t: TxState, available: nat)
    requires t.packetFifoIdx < |t.fifo| && available <= MAX_DATAGRAM && NextChunk(t, available).Some?
    requires var p := t.fifo[t.packetFifoIdx]; !p.isStarted && p.id <= UINT32_MAX && 0 < |p.payload| <= UINT64_MAX
    ensures var c := NextChunk(t, available).value;
      !c.Piece? && Codec.Encodable(c) && 0 < EncodedSize(c) <= available
  {
  }

  lemma PieceFits(t: TxState, available: nat)
    requires t.packetFifoIdx < |t.fifo| && available <= MAX_DATAGRAM && NextChunk(t, available).Some?
    requires var p := t.fifo[t.packetFifoIdx];
      p.isStarted && p.id <= UINT32_MAX && p.offset < |p.payload| <= UINT64_MAX
    ensures var c := NextChunk(t, available).value;
      c.Piece? && Codec.Encodable(c) && 0 < EncodedSize(c) <= available
  {
    LeftInside(t.fifo[t.packetFifoIdx]);
    hide Left, NumberOfBits;
  }

  /** A chunk cut for the available space fits it, and fits the fields of the format. */
  lemma ChunkFits(h: TxHalf, enq: seq<seq<byte>>, available: nat)
    requires QueueOk(h, enq) && h.t.packetFifoIdx < |h.t.fifo| && !Candidate(h).isAcknowledged
    requires available <= MAX_DATAGRAM && NextChunk(h.t, available).Some?
    ensures var c := NextChunk(h.t, available).value;
      && c.IsData() && c.stream == h.t.stream && c.id == Candidate(h).id
      && Codec.Encodable(c) && 0 < EncodedSize(c) <= available
      && (c.Piece? <==> Candidate(h).isStarted)
  {
    CandidateFields(h, enq);
    hide QueueOk, Codec.Encodable, EncodedSize;
    if Candidate(h).isStarted {
      PieceFits(h.t, available);
    } else {
      FirstFits(h.t, available);
    }
  }

  // What the chunk leaves behind in its own packet.
  lemma WrittenRemembers(p: TxPacket, c: Chunk, env: TxEnv)
    requires c.IsData()
    ensures var q := Written(p, c, env);
      && q.id == p.id
      && (Spent(q, env.datagram) || (c.Begin? && q.isStarted))
      && (p.isStarted ==> q.isStarted || Spent(q, env.datagram))
      && (Spent(p, env.datagram) ==> Spent(q, env.datagram))
  {
  }

  // Within a queue an id names one packet.
  lemma IdsDistinct(h: TxHalf, enq: seq<seq<byte>>, i: nat, j: nat)
    requires TxOrder.Conserved(h, enq) && |h.t.fifo| <= U32_MOD
    requires i < |h.t.fifo| && j < |h.t.fifo| && h.t.fifo[i].id == h.t.fifo[j].id
    ensures i == j
  {
  }

  /** After a chunk is written, the queue remembers it, and everything it remembered before. */
  lemma WriteRemembers(h: TxHalf, enq: seq<seq<byte>>, c: Chunk, env: TxEnv, d: Chunk)
    requires QueueOk(h, enq) && h.t.packetFifoIdx < |h.t.fifo|
    requires c.IsData() && c.id == Candidate(h).id
    requires Remembers(h, d, env.datagram) || d == c
    ensures Remembers(WriteChunk(h, c, env), d, env.datagram)
  {
    hide Process, Written, Runs.OffsetsInside;
    var i := h.t.packetFifoIdx;
    var w := SetPacket(h, i, Written(h.t.fifo[i], c, env));
    WrittenRemembers(h.t.fifo[i], c, env);
    forall j | 0 <= j < |w.t.fifo| && w.t.fifo[j].id == d.id
      ensures Spent(w.t.fifo[j], env.datagram) || (d.Begin? && w.t.fifo[j].isStarted)
    {
      if j != i && d == c {
        IdsDistinct(h, enq, i, j);
      }
    }
    ProcessSuffix(w, env.now);
    SuffixRemembers(w, Process(w, env.now), d, env.datagram);
  }

  lemma WriteOk(h: TxHalf, enq: seq<seq<byte>>, available: nat, env: TxEnv)
    requires QueueOk(h, enq) && h.t.packetFifoIdx < |h.t.fifo| && !Candidate(h).isAcknowledged
    requires NextChunk(h.t, available).Some?
    ensures var r := WriteChunk(h, NextChunk(h.t, available).value, env);
      QueueOk(r, enq) && r.t.stream == h.t.stream
  {
    var c := NextChunk(h.t, available).value;
    TxOrder.WriteChunkConserved(h, enq, c, env);
    Runs.WriteChunkKeeps(h, RxOrder.EMPTY_HALF, enq, available, env);
    Runs.WriteChunkFrame(h, enq, c, env);
    hide Process, Written, NextChunk;
    ProcessSuffix(SetPacket(h, h.t.packetFifoIdx, Written(Candidate(h), c, env)), env.now);
  }

  /** A packet the scan stops at gave the datagram nothing so far, or only its begin chunk. */
  lemma NotTwice(h: TxHalf, d: Chunk, env: TxEnv)
    requires h.t.packetFifoIdx < |h.t.fifo| && !Skipped(Candidate(h), env)
    requires Remembers(h, d, env.datagram) && d.id == Candidate(h).id
    ensures d.Begin? && Candidate(h).isStarted
  {
  }

  // -------------------------------------------------- send() and readChunk

  lemma NewOk(stream: byte, isReliable: bool)
    ensures QueueOk(NewHalf(stream, isReliable), [])
  {
  }

  lemma EnqueueOk(h: TxHalf, enq: seq<seq<byte>>, payload: seq<byte>, deadline: int)
    requires QueueKept(h, enq) && payload != [] && |payload| <= UINT64_MAX && |h.t.fifo| < U32_MOD
    ensures QueueKept(Enqueue(h, payload, deadline), enq + [payload])
    ensures Runs.OffsetsInside(h) ==> Runs.OffsetsInside(Enqueue(h, payload, deadline))
    ensures Enqueue(h, payload, deadline).t.stream == h.t.stream
  {
    TxOrder.EnqueueConserved(h, enq, payload, deadline);
    hide TxOrder.Conserved;
    var r := Enqueue(h, payload, deadline);
    assert forall j :: 0 <= j < |h.t.fifo| ==> r.t.fifo[j] == h.t.fifo[j];
  }

  lemma SearchOk(h: TxHalf, enq: seq<seq<byte>>)
    requires QueueKept(h, enq)
    ensures PacketSearch.Consecutive(TxStreams.Ids(h.t.fifo))
  {
    TxStreams.ConservedConsecutive(h, enq);
  }

  lemma ReadAckOk(h: TxHalf, enq: seq<seq<byte>>, id: nat, now: int)
    requires QueueKept(h, enq)
    ensures QueueKept(ReadAck(h, id, now), enq) && ReadAck(h, id, now).t.stream == h.t.stream
    ensures Runs.OffsetsInside(h) ==> Runs.OffsetsInside(ReadAck(h, id, now))
  {
    match Find(h.t.fifo, id)
    case None =>
    case Some(i) =>
      var w := SetPacket(h, i, h.t.fifo[i].(isAcknowledged := true));
      TxOrder.SetPacketConserved(h, enq, i, w.t.fifo[i]);
      TxOrder.ProcessConserved(w, enq, now);
      hide TxOrder.Conserved, Process;
      ProcessSuffix(w, now);
      if Runs.OffsetsInside(h) {
        assert forall j :: 0 <= j < |h.t.fifo| ==> Runs.OffsetInside(h.t.fifo[j]);
        Runs.ProcessOffsets(w, now);
      }
  }

  // The offset asked for lies inside the payload, if the packet is still queued and reliable.
  predicate RequestInside(h: TxHalf, id: nat, offset: nat) {
    match Find(h.t.fifo, id)
    case None => true
    case Some(i) => !h.t.fifo[i].isReliable || offset < |h.t.fifo[i].payload|
  }

  /** Any request keeps the queue; it stays fit for sending exactly when the offset lies inside. */
  lemma ReadRepeatOk(h: TxHalf, enq: seq<seq<byte>>, id: nat, offset: nat)
    requires QueueKept(h, enq)
    ensures QueueKept(ReadRepeat(h, id, offset), enq) && ReadRepeat(h, id, offset).t.stream == h.t.stream
    ensures Runs.OffsetsInside(h) ==>
      (Runs.OffsetsInside(ReadRepeat(h, id, offset)) <==> RequestInside(h, id, offset))
  {
    TxOrder.ReadRepeatConserved(h, enq, id, offset);
    hide TxOrder.Conserved;
    var r := ReadRepeat(h, id, offset);
    var f := Find(h.t.fifo, id);
    if f.Some? && h.t.fifo[f.value].isReliable {
      assert Runs.OffsetInside(r.t.fifo[f.value]) <==> offset < |h.t.fifo[f.value].payload|;
      assert forall j :: 0 <= j < |h.t.fifo| && j != f.value ==> r.t.fifo[j] == h.t.fifo[j];
    }
  }

  /** A request outside: five bytes in the queue, and a repeat from offset 9 makes the next piece lie outside. */
  lemma RequestOutside()
    ensures var p := TxPacket(0, [7, 7, 7, 7, 7], 2, 1000, 0, UINT64_MAX, true, false, true);
      var h := TxHalf(TxState([p], 0, 1, 0, 3, true), []);
      && QueueOk(h, [p.payload]) && !RequestInside(h, 0, 9)
      && !QueueOk(ReadRepeat(h, 0, 9), [p.payload])
      && TxStreams.CutsOutside(ReadRepeat(h, 0, 9).t, 11)
  {
    var p := TxPacket(0, [7, 7, 7, 7, 7], 2, 1000, 0, UINT64_MAX, true, false, true);
    var h := TxHalf(TxState([p], 0, 1, 0, 3, true), []);
    assert QueueOk(h, [p.payload]);
    ReadRepeatOk(h, [p.payload], 0, 9);
    assert ReadRepeat(h, 0, 9).t.fifo[0] == p.(offset := 9);
  }

  // --------------------------------------------------------- repeat requests

  /** A receiving stream the connection may write repeat requests for. */
  ghost predicate ReceiveOk(h: Rx.RxHalf) {
    RxOrder.HalfOk(h) && !h.s.isNew && FieldsFit(h.s.fifo)
  }

  lemma ReceiveFits(h: Rx.RxHalf)
    requires ReceiveOk(h)
    ensures RxOrder.IdsFit(h.s) && Rx.BuffersFit(h.s)
  {
  }

  // Sizes and offsets of received packets are uint64.
  ghost predicate FieldsFit(fifo: seq<Rx.RxPacket>) {
    forall i :: 0 <= i < |fifo| ==>
      fifo[i].size <= UINT64_MAX && fifo[i].offsetRepeat <= UINT64_MAX && fifo[i].sizeRepeat <= UINT64_MAX
  }

  // No queued packet with the id of the request waits for another one.
  ghost predicate Asked(h: Rx.RxHalf, c: Chunk) {
    forall i :: 0 <= i < |h.s.fifo| && h.s.fifo[i].id == c.id ==> !h.s.fifo[i].NeedToSendRepeatInfo()
  }

  lemma {:induction false} RxProcessSuffix(h: Rx.RxHalf, now: int)
    ensures Suffix(h.s.fifo, Rx.Process(h, now).s.fifo)
    decreases |h.s.fifo|
  {
    if Rx.PopReady(h.s, now) {
      RxProcessSuffix(Rx.PopOnce(h), now);
    }
  }

  // One stream of writeMetaChunk's search: the pass over the queue, then the scan.
  function AfterRepeatScan(h: Rx.RxHalf, now: int, datagram: nat): (r: (Rx.RxHalf, bool))
    ensures r.1 ==> r.0.s.packetIdx < |r.0.s.fifo| && r.0.s.fifo[r.0.s.packetIdx].NeedToSendRepeatInfo()
  {
    var p := Rx.Process(h, now);
    var (s, found) := Rx.ScanRepeat(p.s, |p.s.fifo|, datagram);
    (p.(s := s), found)
  }

  lemma SuffixFits(a: seq<Rx.RxPacket>, b: seq<Rx.RxPacket>)
    requires FieldsFit(a) && Suffix(a, b)
    ensures FieldsFit(b)
  {
    assert forall i :: 0 <= i < |b| ==> b[i] == a[|a| - |b| + i];
  }

  // The position of the round robin plays no part.
  lemma PositionOk(h: Rx.RxHalf, k: nat)
    requires RxOrder.HalfOk(h)
    ensures RxOrder.HalfOk(h.(s := h.s.(packetIdx := k)))
  {
    assert RxOrder.StreamOk(h.s.(packetIdx := k)) by {
      hide RxOrder.LogOk;
    }
  }

  lemma RepeatScanOk(h: Rx.RxHalf, now: int, datagram: nat)
    requires ReceiveOk(h)
    ensures ReceiveOk(AfterRepeatScan(h, now, datagram).0)
    ensures Suffix(h.s.fifo, AfterRepeatScan(h, now, datagram).0.s.fifo)
  {
    hide RxOrder.HalfOk, FieldsFit, Rx.Process, Rx.ScanRepeat, Suffix;
    RxOrder.ProcessOk(h, now);
    RxProcessSuffix(h, now);
    var p := Rx.Process(h, now);
    SuffixFits(h.s.fifo, p.s.fifo);
    var r := AfterRepeatScan(h, now, datagram).0;
    PositionOk(p, r.s.packetIdx);
    assert r.s == p.s.(packetIdx := r.s.packetIdx);
  }

  lemma SuffixAsked(h: Rx.RxHalf, r: Rx.RxHalf, c: Chunk)
    requires Suffix(h.s.fifo, r.s.fifo) && Asked(h, c)
    ensures Asked(r, c)
  {
  }

  lemma MarkOk(h: Rx.RxHalf, stream: byte, datagram: nat)
    requires ReceiveOk(h) && h.s.packetIdx < |h.s.fifo|
    ensures var c := Rx.RepeatOf(stream, h.s.fifo[h.s.packetIdx]);
      var r := h.(s := Rx.MarkRepeated(h.s, datagram));
      && ReceiveOk(r) && Asked(r, c) && Codec.Encodable(c) && c.Repeat?
  {
  }

  lemma MarkAsked(h: Rx.RxHalf, datagram: nat, c: Chunk)
    requires h.s.packetIdx < |h.s.fifo| && Asked(h, c)
    ensures Asked(h.(s := Rx.MarkRepeated(h.s, datagram)), c)
  {
  }
}
