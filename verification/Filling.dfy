/** What each chunk keeps while a datagram is filled, over all streams of a connection. */
module Filling {
  import opened Common
  import opened Chunks
  import opened TxModel
  import opened Outgoing
  import opened Codec
  import Datagrams
  import Rx = RxModel
  import PacketSearch
  import Runs
  import RxOrder
  import TxOrder
  import TxStreams

  type TxMap = map<byte, TxHalf>
  type RxMap = map<byte, Rx.RxHalf>

  ghost predicate Sendable(tx: TxMap, enq: map<byte, seq<seq<byte>>>) {
    && tx.Keys == enq.Keys
    && forall id :: id in tx ==> tx[id].t.stream == id && QueueOk(tx[id], enq[id])
  }

  ghost predicate QueuesKept(tx: TxMap, enq: map<byte, seq<seq<byte>>>) {
    && tx.Keys == enq.Keys
    && forall id :: id in tx ==> tx[id].t.stream == id && QueueKept(tx[id], enq[id])
  }

  // A receiving stream that can be loaded and stored.
  ghost predicate Storable(rx: RxMap) {
    forall id :: id in rx ==> RxOrder.IdsFit(rx[id].s) && Rx.BuffersFit(rx[id].s)
  }

  ghost predicate Receivable(rx: RxMap) {
    forall id :: id in rx ==> ReceiveOk(rx[id])
  }

  ghost predicate AllRemember(tx: TxMap, cs: seq<Chunk>, datagram: nat) {
    forall i :: 0 <= i < |cs| && cs[i].IsData() ==>
      cs[i].stream in tx && Remembers(tx[cs[i].stream], cs[i], datagram)
  }

  ghost predicate AllAsked(rx: RxMap, cs: seq<Chunk>) {
    forall i :: 0 <= i < |cs| && cs[i].Repeat? ==> cs[i].stream in rx && Asked(rx[cs[i].stream], cs[i])
  }

  // Two chunks of one packet.
  predicate SamePacket(c: Chunk, d: Chunk) {
    c.stream == d.stream && c.id == d.id
  }

  /**
   No duplicate payload: two chunks cut from one packet are a begin chunk and a later piece.
   No packet is asked for twice either.
   */
  ghost predicate NoDuplicates(cs: seq<Chunk>) {
    forall i, j :: 0 <= i < j < |cs| && SamePacket(cs[i], cs[j]) ==>
      && (cs[i].IsData() && cs[j].IsData() ==> cs[i].Begin? && cs[j].Piece?)
      && !(cs[i].Repeat? && cs[j].Repeat?)
  }

  /** The bytes behind the header are the chunks, which fit the format and the space. */
  ghost predicate Holds(buffer: seq<byte>, cs: seq<Chunk>, pmtu: nat) {
    && Datagrams.HEADER_B <= |buffer| <= pmtu
    && buffer[Datagrams.HEADER_B..] == EncodeAll(cs)
    && forall i :: 0 <= i < |cs| ==> Encodable(cs[i])
  }

  lemma AppendHolds(buffer: seq<byte>, cs: seq<Chunk>, pmtu: nat, c: Chunk)
    requires Holds(buffer, cs, pmtu) && Encodable(c) && |buffer| + EncodedSize(c) <= pmtu
    ensures Holds(buffer + Encode(c), cs + [c], pmtu)
  {
    hide Encodable, EncodedSize, Encode, EncodeAll;
    EncodeAllAppend(cs, c);
    assert (buffer + Encode(c))[Datagrams.HEADER_B..] == buffer[Datagrams.HEADER_B..] + Encode(c);
  }

  // A stream that is not there yet starts reliable and empty.
  function StreamOf(tx: TxMap, id: byte): TxHalf {
    if id in tx then tx[id] else NewHalf(id, true)
  }

  function EnqOf(enq: map<byte, seq<seq<byte>>>, id: byte): seq<seq<byte>> {
    if id in enq then enq[id] else []
  }

  /** Sendable is kept, and inside. */
  ghost predicate AllInside(tx: TxMap) {
    forall id :: id in tx ==> Runs.OffsetsInside(tx[id])
  }

  lemma SendableIff(tx: TxMap, enq: map<byte, seq<seq<byte>>>)
    ensures Sendable(tx, enq) <==> QueuesKept(tx, enq) && AllInside(tx)
  {
    hide QueueKept, Runs.OffsetsInside;
  }

  lemma EnqueueStep(tx: TxMap, enq: map<byte, seq<seq<byte>>>, id: byte, payload: seq<byte>, deadline: int)
    requires QueuesKept(tx, enq) && payload != [] && |payload| <= UINT64_MAX
    requires |StreamOf(tx, id).t.fifo| < U32_MOD
    ensures var tx' := tx[id := Enqueue(StreamOf(tx, id), payload, deadline)];
      QueuesKept(tx', enq[id := EnqOf(enq, id) + [payload]]) && (AllInside(tx) ==> AllInside(tx'))
  {
    NewOk(id, true);
    hide QueueKept, Enqueue, Runs.OffsetsInside;
    EnqueueOk(StreamOf(tx, id), EnqOf(enq, id), payload, deadline);
  }

  lemma ReadAckStep(tx: TxMap, enq: map<byte, seq<seq<byte>>>, id: byte, packetId: nat, now: int)
    requires QueuesKept(tx, enq) && id in tx
    ensures var tx' := tx[id := ReadAck(tx[id], packetId, now)];
      QueuesKept(tx', enq) && (AllInside(tx) ==> AllInside(tx'))
    ensures PacketSearch.Consecutive(TxStreams.Ids(tx[id].t.fifo))
  {
    hide ReadAck, QueueKept, Runs.OffsetsInside, PacketSearch.Consecutive;
    ReadAckOk(tx[id], enq[id], packetId, now);
    SearchOk(tx[id], enq[id]);
  }

  lemma ReadRepeatStep(tx: TxMap, enq: map<byte, seq<seq<byte>>>, id: byte, packetId: nat, offset: nat)
    requires QueuesKept(tx, enq) && id in tx
    ensures var tx' := tx[id := ReadRepeat(tx[id], packetId, offset)];
      QueuesKept(tx', enq) && (AllInside(tx) ==> (AllInside(tx') <==> RequestInside(tx[id], packetId, offset)))
    ensures PacketSearch.Consecutive(TxStreams.Ids(tx[id].t.fifo))
  {
    hide ReadRepeat, QueueKept, Runs.OffsetsInside, PacketSearch.Consecutive, RequestInside;
    ReadRepeatOk(tx[id], enq[id], packetId, offset);
    SearchOk(tx[id], enq[id]);
  }

  // ------------------------------------------------------------------ sending

  lemma ScanStep(tx: TxMap, enq: map<byte, seq<seq<byte>>>, id: byte, env: TxEnv, cs: seq<Chunk>)
    requires id in tx && Sendable(tx, enq) && AllRemember(tx, cs, env.datagram)
    ensures Sendable(tx[id := TxOrder.AfterScan(tx[id], env).0], enq)
    ensures AllRemember(tx[id := TxOrder.AfterScan(tx[id], env).0], cs, env.datagram)
  {
    hide QueueOk, Remembers, TxOrder.AfterScan;
    var r := TxOrder.AfterScan(tx[id], env).0;
    ScanOk(tx[id], enq[id], env);
    forall i | 0 <= i < |cs| && cs[i].IsData()
      ensures cs[i].stream in tx && Remembers(tx[id := r][cs[i].stream], cs[i], env.datagram)
    {
      if cs[i].stream == id {
        SuffixRemembers(tx[id], r, cs[i], env.datagram);
      }
    }
  }

  lemma CutStep(tx: TxMap, enq: map<byte, seq<seq<byte>>>, id: byte, available: nat, env: TxEnv, cs: seq<Chunk>)
    requires id in tx && Sendable(tx, enq) && AllRemember(tx, cs, env.datagram) && NoDuplicates(cs)
    requires tx[id].t.packetFifoIdx < |tx[id].t.fifo| && !Skipped(Candidate(tx[id]), env)
    requires available <= MAX_DATAGRAM && NextChunk(tx[id].t, available).Some?
    ensures var c := NextChunk(tx[id].t, available).value;
      var tx' := tx[id := WriteChunk(tx[id], c, env)];
      && c.stream == id && Encodable(c) && 0 < EncodedSize(c) <= available
      && Sendable(tx', enq) && AllRemember(tx', cs + [c], env.datagram) && NoDuplicates(cs + [c])
  {
    hide QueueOk, Remembers, NextChunk, WriteChunk, Encodable, EncodedSize;
    var h := tx[id];
    var c := NextChunk(h.t, available).value;
    ChunkFits(h, enq[id], available);
    WriteOk(h, enq[id], available, env);
    WriteRemembers(h, enq[id], c, env, c);
    forall i | 0 <= i < |cs| && cs[i].IsData() && cs[i].stream == id
      ensures Remembers(WriteChunk(h, c, env), cs[i], env.datagram)
      ensures cs[i].id == c.id ==> cs[i].Begin? && c.Piece?
    {
      WriteRemembers(h, enq[id], c, env, cs[i]);
      if cs[i].id == c.id {
        NotTwice(h, cs[i], env);
      }
    }
  }

  // ---------------------------------------------------------------- receiving

  lemma RepeatScanStep(rx: RxMap, id: byte, now: int, datagram: nat, cs: seq<Chunk>)
    requires id in rx && Receivable(rx) && AllAsked(rx, cs)
    ensures var rx' := rx[id := AfterRepeatScan(rx[id], now, datagram).0];
      Receivable(rx') && AllAsked(rx', cs)
  {
    hide ReceiveOk, Asked;
    var r := AfterRepeatScan(rx[id], now, datagram).0;
    RepeatScanOk(rx[id], now, datagram);
    forall i | 0 <= i < |cs| && cs[i].Repeat?
      ensures cs[i].stream in rx && Asked(rx[id := r][cs[i].stream], cs[i])
    {
      if cs[i].stream == id {
        SuffixAsked(rx[id], r, cs[i]);
      }
    }
  }

  lemma RepeatStep(rx: RxMap, id: byte, datagram: nat, cs: seq<Chunk>)
    requires id in rx && Receivable(rx) && AllAsked(rx, cs) && NoDuplicates(cs)
    requires rx[id].s.packetIdx < |rx[id].s.fifo| && rx[id].s.fifo[rx[id].s.packetIdx].NeedToSendRepeatInfo()
    ensures var c := Rx.RepeatOf(id, rx[id].s.fifo[rx[id].s.packetIdx]);
      var rx' := rx[id := rx[id].(s := Rx.MarkRepeated(rx[id].s, datagram))];
      && Encodable(c) && Receivable(rx') && AllAsked(rx', cs + [c]) && NoDuplicates(cs + [c])
  {
    hide ReceiveOk, Encodable;
    var h := rx[id];
    var r := h.(s := Rx.MarkRepeated(h.s, datagram));
    var c := Rx.RepeatOf(id, h.s.fifo[h.s.packetIdx]);
    MarkOk(h, id, datagram);
    forall i | 0 <= i < |cs| && cs[i].Repeat? && cs[i].stream == id
      ensures Asked(r, cs[i]) && cs[i].id != c.id
    {
      MarkAsked(h, datagram, cs[i]);
    }
  }

  // An acknowledgement is no data and no request.
  lemma AckStep(tx: TxMap, rx: RxMap, cs: seq<Chunk>, datagram: nat, c: Chunk)
    requires AllRemember(tx, cs, datagram) && AllAsked(rx, cs) && NoDuplicates(cs) && c.Ack?
    ensures AllRemember(tx, cs + [c], datagram) && AllAsked(rx, cs + [c]) && NoDuplicates(cs + [c])
  {
  }

  lemma AppendNoData(tx: TxMap, cs: seq<Chunk>, datagram: nat, c: Chunk)
    requires AllRemember(tx, cs, datagram) && !c.IsData()
    ensures AllRemember(tx, cs + [c], datagram)
  {
  }

  lemma AppendNoRequest(rx: RxMap, cs: seq<Chunk>, c: Chunk)
    requires AllAsked(rx, cs) && !c.Repeat?
    ensures AllAsked(rx, cs + [c])
  {
  }

  // The receiving half of a stream, with the acknowledgements it shares with the others.
  function ReceivedOf(rx: RxMap, acks: seq<(byte, nat)>, id: byte): Rx.RxHalf {
    (if id in rx then rx[id] else RxOrder.EMPTY_HALF).(acks := acks)
  }

  lemma ReceivedOk(rx: RxMap, acks: seq<(byte, nat)>, id: byte)
    requires Receivable(rx)
    ensures RxOrder.HalfOk(ReceivedOf(rx, acks, id)) && FieldsFit(ReceivedOf(rx, acks, id).s.fifo)
  {
  }

  lemma ReceivedStorable(rx: RxMap, acks: seq<(byte, nat)>, id: byte)
    requires Storable(rx)
    ensures RxOrder.IdsFit(ReceivedOf(rx, acks, id).s) && Rx.BuffersFit(ReceivedOf(rx, acks, id).s)
  {
  }

  lemma ReceivableStorable(rx: RxMap)
    requires Receivable(rx)
    ensures Storable(rx)
  {
    forall id | id in rx
      ensures RxOrder.IdsFit(rx[id].s) && Rx.BuffersFit(rx[id].s)
    {
      ReceiveFits(rx[id]);
    }
  }
}
