/**
 The sending half of one stream, on values: the queue of packets, the scan for the next
 packet to send, the chunk cut from it, and what acknowledgements, repeat requests and
 timeouts do to it. The onDelivered callback becomes a log.
 */
module TxModel {
  import opened Common
  import opened Chunks

  const TX_SCAN_LIMIT: nat := 131072 // 1 << 17

  datatype TxPacket = TxPacket(
    id: nat,
    payload: seq<byte>,
    offset: nat,
    timeout: int,
    begin: int,
    datagramId: nat,
    isReliable: bool,
    isAcknowledged: bool,
    isStarted: bool)

  datatype TxState = TxState(
    fifo: seq<TxPacket>,
    packetFifoIdx: nat,
    nextPacketId: nat,
    fifoReturnTime: int,
    stream: byte,
    isReliable: bool)

  /** One call of the onDelivered callback: 's' acknowledged, 't' timed out, 'd' disconnected. */
  datatype TxEvent = TxEvent(id: nat, payload: seq<byte>, status: char)

  datatype TxHalf = TxHalf(t: TxState, log: seq<TxEvent>)

  /** The clock, RTT_us * 2 and the number of the datagram being filled. */
  datatype TxEnv = TxEnv(now: int, rtt2: nat, datagram: nat)

  function NewHalf(stream: byte, isReliable: bool): TxHalf {
    TxHalf(TxState([], 0, 0, 0, stream, isReliable), [])
  }

  // ------------------------------------------------------------------ send_ts

  function Enqueue(h: TxHalf, payload: seq<byte>, deadline: int): TxHalf {
    var p := TxPacket(h.t.nextPacketId, payload, 0, deadline, 0, UINT64_MAX, h.t.isReliable, false, false);
    h.(t := h.t.(fifo := h.t.fifo + [p], nextPacketId := Inc32(h.t.nextPacketId)))
  }

  // ------------------------------------------------------------ processTxFifo

  predicate PopReady(t: TxState, now: int) {
    t.fifo != [] && (t.fifo[0].isAcknowledged || t.fifo[0].timeout < now)
  }

  function PopOnce(h: TxHalf): TxHalf
    requires h.t.fifo != []
  {
    var p := h.t.fifo[0];
    TxHalf(
      h.t.(fifo := h.t.fifo[1..],
           packetFifoIdx := if h.t.packetFifoIdx > 0 then h.t.packetFifoIdx - 1 else 0),
      h.log + [TxEvent(p.id, p.payload, if p.isAcknowledged then 's' else 't')])
  }

  function Process(h: TxHalf, now: int): TxHalf
    decreases |h.t.fifo|
  {
    if PopReady(h.t, now) then Process(PopOnce(h), now) else h
  }

  // ----------------------------------------------------- writeDataChunk: scan

  predicate Skipped(p: TxPacket, env: TxEnv) {
    || p.isAcknowledged
    || p.timeout <= env.now
    || p.datagramId == env.datagram
    || (!p.isStarted && env.now < p.begin + env.rtt2)
  }

  // The scan goes back to the oldest packet, at most once in four round trips.
  function Rewind(t: TxState, env: TxEnv): TxState {
    if t.fifoReturnTime + env.rtt2 < env.now
    then t.(fifoReturnTime := env.now + env.rtt2, packetFifoIdx := 0)
    else t
  }

  predicate ScanStops(t: TxState) {
    t.packetFifoIdx > TX_SCAN_LIMIT || t.packetFifoIdx >= |t.fifo|
  }

  /** The state after the scan, and whether it stopped at a packet to send. */
  function ScanFrom(t: TxState, i: nat, env: TxEnv): (r: (TxState, bool))
    ensures r.0.fifo == t.fifo && r.0.nextPacketId == t.nextPacketId
    ensures r.0.stream == t.stream && r.0.isReliable == t.isReliable
    ensures t.packetFifoIdx <= |t.fifo| ==> r.0.packetFifoIdx <= |t.fifo|
    ensures r.1 ==> r.0.packetFifoIdx < |t.fifo| && !Skipped(t.fifo[r.0.packetFifoIdx], env)
    decreases |t.fifo| - i
  {
    if i >= |t.fifo| then (t, false)
    else
      var u := Rewind(t, env);
      if ScanStops(u) then (u, false)
      else if Skipped(u.fifo[u.packetFifoIdx], env) then
        ScanFrom(u.(packetFifoIdx := u.packetFifoIdx + 1), i + 1, env)
      else (u, true)
  }

  // --------------------------------------------------- writeDataChunk: chunk

  function PieceOverhead(p: TxPacket): nat {
    CHUNK_HEADER_B + Width(p.offset) + 2 + 1
  }

  // What is left of the payload, a uint64 difference.
  function Left(p: TxPacket): nat {
    (|p.payload| - p.offset) % (UINT64_MAX + 1)
  }

  lemma LeftInside(p: TxPacket)
    requires p.offset <= |p.payload| <= UINT64_MAX
    ensures Left(p) == |p.payload| - p.offset
  {
  }

  function PieceLength(p: TxPacket, available: nat): nat
    requires PieceOverhead(p) <= available
  {
    var room := available - PieceOverhead(p) + 1;
    if room < Left(p) then room else Left(p)
  }

  function SmallChunk(t: TxState, p: TxPacket): Chunk {
    Small(t.stream, p.id, p.isReliable, t.packetFifoIdx == 0, p.payload)
  }

  function BeginChunk(t: TxState, p: TxPacket): Chunk {
    Begin(t.stream, p.id, p.isReliable, t.packetFifoIdx == 0, |p.payload|)
  }

  // Outside the payload the source copies what lies behind it; the model then cuts nothing.
  function PieceChunk(t: TxState, p: TxPacket, n: nat): Chunk {
    Piece(t.stream, p.id, p.isReliable, t.packetFifoIdx == 0, p.offset,
          if p.offset + n <= |p.payload| then p.payload[p.offset..p.offset + n] else [])
  }

  /** The chunk writeDataChunk cuts from the packet the scan stopped at, if one fits. */
  function NextChunk(t: TxState, available: nat): Option<Chunk>
    requires t.packetFifoIdx < |t.fifo|
  {
    var p := t.fifo[t.packetFifoIdx];
    if !p.isStarted then
      if EncodedSize(SmallChunk(t, p)) <= available then Some(SmallChunk(t, p))
      else if EncodedSize(BeginChunk(t, p)) <= available then Some(BeginChunk(t, p))
      else None
    else if available < PieceOverhead(p) then None
    else Some(PieceChunk(t, p, PieceLength(p, available)))
  }

  // What writing the chunk does to the packet.
  function Written(p: TxPacket, c: Chunk, env: TxEnv): TxPacket {
    match c
    case Small(_, _, _, _, _) =>
      if p.isReliable then p.(datagramId := env.datagram, begin := env.now)
      else p.(isAcknowledged := true, begin := env.now)
    case Begin(_, _, _, _, _) =>
      p.(isStarted := true, begin := env.now)
    case Piece(_, _, _, _, _, data) =>
      var end := p.offset + |data|;
      if end < |p.payload| then p.(offset := end, isStarted := true, datagramId := env.datagram)
      else if p.isReliable then p.(offset := 0, isStarted := false, datagramId := env.datagram)
      else p.(offset := end, isAcknowledged := true)
    case _ => p
  }

  function SetPacket(h: TxHalf, i: nat, p: TxPacket): TxHalf
    requires i < |h.t.fifo|
  {
    h.(t := h.t.(fifo := h.t.fifo[i := p]))
  }

  // An unreliable packet counts as acknowledged once it is written.
  function WriteChunk(h: TxHalf, c: Chunk, env: TxEnv): TxHalf
    requires h.t.packetFifoIdx < |h.t.fifo|
  {
    var p := Written(h.t.fifo[h.t.packetFifoIdx], c, env);
    var w := SetPacket(h, h.t.packetFifoIdx, p);
    if p.isAcknowledged then Process(w, env.now) else w
  }

  // ---------------------------------------------------------------- readChunk

  /** Linear search for the position of an id: what findPacketIdx computes. */
  function Find(fifo: seq<TxPacket>, id: nat): (r: Option<nat>)
    ensures r.Some? ==> r.value < |fifo| && fifo[r.value].id == id
    ensures r.None? ==> forall i :: 0 <= i < |fifo| ==> fifo[i].id != id
  {
    if fifo == [] then None
    else if fifo[0].id == id then Some(0)
    else match Find(fifo[1..], id)
      case None => (assert forall i :: 1 <= i < |fifo| ==> fifo[i] == fifo[1..][i - 1]; None)
      case Some(i) => Some(i + 1)
  }

  function ReadAck(h: TxHalf, id: nat, now: int): TxHalf {
    match Find(h.t.fifo, id)
    case None => h
    case Some(i) => Process(SetPacket(h, i, h.t.fifo[i].(isAcknowledged := true)), now)
  }

  function ReadRepeat(h: TxHalf, id: nat, offset: nat): TxHalf {
    match Find(h.t.fifo, id)
    case None => h
    case Some(i) =>
      var p := h.t.fifo[i];
      if !p.isReliable then h
      else SetPacket(h, i, p.(offset := offset, isStarted := if offset == 0 then false else p.isStarted))
  }

  // ------------------------------------------------------------ onDisconnected

  function Disconnected(fifo: seq<TxPacket>): seq<TxEvent> {
    if fifo == [] then []
    else
      (if fifo[0].isAcknowledged then [] else [TxEvent(fifo[0].id, fifo[0].payload, 'd')])
      + Disconnected(fifo[1..])
  }
}
