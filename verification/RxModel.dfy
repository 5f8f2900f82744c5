/**
 The receiving half of one stream, on values: what each operation of RxStream, and each
 branch of readChunk that handles received data, does to the queue of received packets,
 to the queue of acknowledgements and to the application, whose callback becomes a log.
 */
module RxModel {
  import opened Common
  import opened Chunks

  const RX_FIFO_LIMIT: nat := 0xFFFF / 2
  const PLACEHOLDER_TIMEOUT_US: int := 50 * 1000

  datatype RxPacket = RxPacket(
    id: nat,
    copy: seq<byte>,
    size: nat,
    offset: nat,
    sizeRepeat: nat,
    offsetRepeat: nat,
    timeout: int,
    datagramId: nat,
    isReliable: bool,
    isReceived: bool)
  {
    predicate NeedToSendRepeatInfo() {
      isReliable && offsetRepeat != UINT64_MAX
    }
  }

  datatype RxState = RxState(
    fifo: seq<RxPacket>,
    front: nat,
    packetIdx: nat,
    isReliable: bool,
    isNew: bool)

  const NEW_STREAM := RxState([], 0, UINT64_MAX, false, true)

  /**
   One call of the onReceived callback. Dropped and TimedOut both carry the status 't':
   the first comes from the rule for ids below frontPacketId, the second from the
   receiver's own clock.
   */
  datatype RxEvent =
    | Delivered(id: nat, size: nat, data: Option<seq<byte>>)
    | Dropped(id: nat)
    | TimedOut(id: nat)
    | PieceOf(id: nat, offset: nat, bytes: seq<byte>)
  {
    predicate Terminal() {
      !PieceOf?
    }
  }

  /** The stream, the acknowledgement queue it shares with the other streams, and the callback log. */
  datatype RxHalf = RxHalf(s: RxState, acks: seq<(byte, nat)>, log: seq<RxEvent>)

  /** What a step takes from outside: the clock, RTT_us * g_rxFifoCleanupK and the buffering threshold. */
  datatype RxEnv = RxEnv(now: int, grace: nat, threshold: nat)

  // ---------------------------------------------------------------- RxStream

  function Blank(id: nat, now: int, isReliable: bool): RxPacket {
    RxPacket(id, [], 0, 0, 0, UINT64_MAX, now + PLACEHOLDER_TIMEOUT_US, UINT64_MAX, isReliable, false)
  }

  function Blanks(from: nat, count: nat, now: int, isReliable: bool): (r: seq<RxPacket>)
    ensures |r| == count && forall i :: 0 <= i < count ==> r[i] == Blank(from + i, now, isReliable)
  {
    seq(count, i requires 0 <= i < count => Blank(from + i, now, isReliable))
  }

  function Ids(fifo: seq<RxPacket>): (r: seq<nat>) {
    seq(|fifo|, i requires 0 <= i < |fifo| => fifo[i].id)
  }

  // The id is past the wrap while the queue or the front is still before it.
  predicate PastWrap(before: nat, id: nat) {
    id < QUARTER && QUARTER3 < before
  }

  function RaiseFront(s: RxState, isFront: bool, id: nat): RxState {
    var f :=
      if s.fifo != [] && (s.front < s.fifo[0].id || PastWrap(s.front, s.fifo[0].id))
      then s.fifo[0].id else s.front;
    s.(front := if isFront && (f < id || PastWrap(f, id)) then id else f)
  }

  predicate IsReceivedBefore(s: RxState, id: nat) {
    if id < s.front then s.front - id <= QUARTER else id - s.front >= QUARTER3
  }

  predicate EmplaceWraps(back: nat, id: nat) {
    QUARTER3 <= back && id < QUARTER && back - id > QUARTER
  }

  // The packets emplace() appends to a queue that is not empty.
  function Appended(back: nat, id: nat, now: int, isReliable: bool): seq<RxPacket> {
    if back < id then Blanks(back + 1, id - back, now, isReliable)
    else if EmplaceWraps(back, id) then
      Blanks(back, if back <= UINT32_MAX then UINT32_MAX - back + 1 else 0, now, isReliable)
      + Blanks(0, id + 1, now, isReliable)
    else []
  }

  function Emplace(s: RxState, now: int, id: nat): RxState {
    if s.fifo == [] then s.(fifo := [Blank(id, now, s.isReliable)])
    else s.(fifo := s.fifo + Appended(s.fifo[|s.fifo| - 1].id, id, now, s.isReliable))
  }

  function EmplaceFront(s: RxState, now: int, id: nat): RxState {
    if s.front < id || PastWrap(s.front, id) then Emplace(s, now, s.front) else s
  }

  function GetState(s: RxState, now: int, id: nat): (r: RxState)
    ensures r.fifo != []
  {
    Emplace(EmplaceFront(s, now, id), now, id)
  }

  // The last position of the id, or the first position of the queue when it is absent.
  function IndexOf(fifo: seq<RxPacket>, id: nat): (i: nat)
    requires fifo != []
    ensures i < |fifo|
  {
    if fifo[|fifo| - 1].id == id then |fifo| - 1
    else if |fifo| == 1 then 0
    else IndexOf(fifo[..|fifo| - 1], id)
  }

  // ------------------------------------------------------------ processRxFifo

  predicate BelowFront(s: RxState)
    requires s.fifo != []
  {
    s.fifo[0].id < s.front && !PastWrap(s.front, s.fifo[0].id)
  }

  predicate PopReady(s: RxState, now: int) {
    && s.fifo != []
    && var p := s.fifo[0];
      || p.isReceived
      || (p.id < s.front && BelowFront(s))
      || (p.id >= s.front && p.timeout <= now)
  }

  function PopEvent(s: RxState): RxEvent
    requires s.fifo != []
  {
    var p := s.fifo[0];
    if p.isReceived then Delivered(p.id, p.size, if p.copy == [] then None else Some(p.copy))
    else if p.id < s.front then Dropped(p.id)
    else TimedOut(p.id)
  }

  function PopFront(s: RxState): RxState
    requires s.fifo != []
  {
    var r := RaiseFront(s, true, Inc32(s.fifo[0].id));
    r.(fifo := s.fifo[1..], packetIdx := if s.packetIdx > 0 then s.packetIdx - 1 else 0)
  }

  function PopOnce(h: RxHalf): RxHalf
    requires h.s.fifo != []
  {
    h.(s := PopFront(h.s), log := h.log + [PopEvent(h.s)])
  }

  function Process(h: RxHalf, now: int): RxHalf
    decreases |h.s.fifo|
  {
    if PopReady(h.s, now) then Process(PopOnce(h), now) else h
  }

  // ---------------------------------------------------------------- readChunk

  function PushAck(h: RxHalf, stream: byte, id: nat): RxHalf {
    if h.acks != [] && h.acks[|h.acks| - 1] == (stream, id) then h
    else h.(acks := h.acks + [(stream, id)])
  }

  // The first chunk of a stream creates the placeholder for id 0.
  function Open(h: RxHalf, now: int): RxHalf {
    if h.s.isNew then h.(s := GetState(h.s.(isNew := false), now, 0)) else h
  }

  function Advance(h: RxHalf, isFront: bool, id: nat): RxHalf {
    h.(s := RaiseFront(h.s, isFront, id))
  }

  predicate IsFull(s: RxState) {
    |s.fifo| >= RX_FIFO_LIMIT
  }

  function Lookup(h: RxHalf, now: int, id: nat): (r: RxHalf)
    ensures r.s.fifo != []
  {
    h.(s := GetState(h.s, now, id))
  }

  function SetPacket(h: RxHalf, i: nat, p: RxPacket): RxHalf
    requires i < |h.s.fifo|
  {
    h.(s := h.s.(fifo := h.s.fifo[i := p]))
  }

  // How every branch ends: an acknowledgement, unless there is none to give, and a pass over the queue.
  function Finish(h: RxHalf, c: Chunk, ack: bool, process: bool, now: int): RxHalf {
    var a := if ack then PushAck(h, c.stream, c.id) else h;
    if process then Process(a, now) else a
  }

  // A small packet that is next in order goes straight to the application.
  function StoreSmall(h: RxHalf, i: nat, id: nat, data: seq<byte>, timeout: int): RxHalf
    requires i < |h.s.fifo|
  {
    var p := h.s.fifo[i].(timeout := timeout);
    if p.isReceived then SetPacket(h, i, p)
    else if h.s.fifo[0].id == id then
      h.(s := PopFront(h.s), log := h.log + [Delivered(id, |data|, Some(data))])
    else
      SetPacket(h, i, p.(isReceived := true, size := |data|, copy := data))
  }

  function Zeros(n: nat): (r: seq<byte>)
    ensures |r| == n && forall i :: 0 <= i < n ==> r[i] == 0
  {
    seq(n, _ => 0)
  }

  function Resized(copy: seq<byte>, n: nat): seq<byte> {
    if n <= |copy| then copy[..n] else copy + Zeros(n - |copy|)
  }

  function BeginPacket(p: RxPacket, c: Chunk, env: RxEnv): RxPacket
    requires c.Begin?
  {
    var t := p.(timeout := env.now + env.grace);
    if t.size != 0 then t
    else
      t.(size := c.size, isReliable := c.reliable,
         copy := if c.size <= env.threshold then Resized(t.copy, c.size) else t.copy)
  }

  /** What a piece finds when it reaches its packet. */
  datatype PieceVerdict = NoSize | Misfit | Old | Gap | OutOfOrder | Buffer | Pass

  function Verdict(p: RxPacket, front: nat, c: Chunk): PieceVerdict
    requires c.Piece?
  {
    if p.size == 0 then NoSize
    else if c.offset + |c.data| > p.size then Misfit
    else if c.offset < p.offset then Old
    else if p.offset != c.offset then Gap
    else if p.copy != [] then Buffer
    else if front != c.id then OutOfOrder
    else Pass
  }

  // The bytes of a piece written over the buffer. The assertion of the source, that they
  // fit, holds wherever BuffersFit does.
  function Overwritten(copy: seq<byte>, offset: nat, data: seq<byte>): seq<byte> {
    if offset + |data| <= |copy| then copy[..offset] + data + copy[offset + |data|..] else copy
  }

  function PiecePacket(p: RxPacket, front: nat, c: Chunk): RxPacket
    requires c.Piece?
  {
    match Verdict(p, front, c)
    case NoSize => p.(offsetRepeat := 0, isReliable := c.reliable)
    case Misfit => p
    case Old => p
    // The source overwrites offset_B first, so the size it asks for is zero.
    case Gap => p.(offset := c.offset, offsetRepeat := c.offset, sizeRepeat := 0)
    case OutOfOrder => p.(offset := 0, offsetRepeat := 0, sizeRepeat := p.size)
    case Buffer =>
      var end := c.offset + |c.data|;
      p.(copy := Overwritten(p.copy, c.offset, c.data),
         offset := end,
         isReceived := p.isReceived || end >= p.size)
    case Pass =>
      var end := c.offset + |c.data|;
      p.(offset := end, isReceived := p.isReceived || end >= p.size)
  }

  function Stamped(p: RxPacket, env: RxEnv): RxPacket {
    p.(timeout := env.now + env.grace)
  }

  predicate PieceCompletes(p: RxPacket, front: nat, c: Chunk)
    requires c.Piece?
  {
    var v := Verdict(p, front, c);
    (v.Buffer? || v.Pass?) && c.offset + |c.data| >= p.size
  }

  function StorePiece(h: RxHalf, i: nat, c: Chunk, env: RxEnv): RxHalf
    requires c.Piece?
    requires i < |h.s.fifo|
  {
    var p := Stamped(h.s.fifo[i], env);
    var t := SetPacket(h, i, PiecePacket(p, h.s.front, c));
    if Verdict(p, h.s.front, c).Pass? then t.(log := t.log + [PieceOf(c.id, c.offset, c.data)]) else t
  }

  function PlaceAt(h: RxHalf, i: nat, c: Chunk, env: RxEnv): RxHalf
    requires c.IsData()
    requires i < |h.s.fifo|
  {
    match c
    case Small(_, id, reliable, _, data) =>
      Finish(StoreSmall(h, i, id, data, env.now + env.grace), c, reliable, true, env.now)
    case Begin(_, _, _, _, _) =>
      Finish(SetPacket(h, i, BeginPacket(h.s.fifo[i], c, env)), c, false, true, env.now)
    case Piece(_, _, _, _, _, _) =>
      var done := PieceCompletes(h.s.fifo[i], h.s.front, c);
      Finish(StorePiece(h, i, c, env), c, done && h.s.fifo[i].isReliable, done, env.now)
  }

  function Place(h: RxHalf, c: Chunk, env: RxEnv): RxHalf
    requires c.IsData()
    requires h.s.fifo != []
  {
    var i := IndexOf(h.s.fifo, c.id);
    if h.s.fifo[i].id != c.id then h else PlaceAt(h, i, c, env)
  }

  // An id below the front is acknowledged again, except for a begin chunk.
  function Accept(h: RxHalf, c: Chunk, env: RxEnv): RxHalf
    requires c.IsData()
  {
    if IsFull(h.s) then h
    else if IsReceivedBefore(h.s, c.id) then
      Finish(h, c, c.reliable && c.CarriesPayload(), false, env.now)
    else Place(Lookup(h, env.now, c.id), c, env)
  }

  /** The three data branches of readChunk, which share their frame. */
  function ReadData(h: RxHalf, c: Chunk, env: RxEnv): RxHalf
    requires c.IsData()
  {
    Accept(Advance(Open(h, env.now), c.front, c.id), c, env)
  }

  // A buffer, when there is one, has the size of the packet.
  predicate BuffersFit(s: RxState) {
    forall i :: 0 <= i < |s.fifo| ==> s.fifo[i].copy == [] || |s.fifo[i].copy| == s.fifo[i].size
  }

  // ----------------------------------------------------------- writeMetaChunk

  function NextIdx(s: RxState): (i: nat)
    requires s.fifo != []
    ensures i < |s.fifo|
  {
    var k := (s.packetIdx + 1) % (UINT64_MAX + 1);
    if k >= |s.fifo| then 0 else k
  }

  // One pass over the queue looking for a packet that wants a retransmission.
  function ScanRepeat(s: RxState, left: nat, datagram: nat): (r: (RxState, bool))
    requires left <= |s.fifo|
    ensures r.0.fifo == s.fifo && r.0.front == s.front && r.0.isNew == s.isNew && r.0.isReliable == s.isReliable
    ensures r.1 ==> r.0.packetIdx < |s.fifo| && s.fifo[r.0.packetIdx].NeedToSendRepeatInfo()
    decreases left
  {
    if left == 0 then (s, false)
    else
      var t := s.(packetIdx := NextIdx(s));
      var p := t.fifo[t.packetIdx];
      if p.datagramId == datagram then (t, false)
      else if p.NeedToSendRepeatInfo() then (t, true)
      else ScanRepeat(t, left - 1, datagram)
  }

  function RepeatOf(stream: byte, p: RxPacket): Chunk {
    Repeat(stream, p.id, p.offsetRepeat, p.sizeRepeat)
  }

  function MarkRepeated(s: RxState, datagram: nat): RxState
    requires s.packetIdx < |s.fifo|
  {
    s.(fifo := s.fifo[s.packetIdx :=
      s.fifo[s.packetIdx].(offsetRepeat := UINT64_MAX, datagramId := datagram)])
  }
}
