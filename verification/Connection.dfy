/** Connection, as it fills datagrams: writeMetaChunk, writeDataChunk and writePacket. */
module Connections {
  import opened Common
  import opened Chunks
  import opened Outgoing
  import opened Filling
  import opened Scheduler
  import opened Selection
  import opened Codec
  import opened Tx = TxModel
  import opened Requests
  import opened Refinement
  import opened Ends
  import Rx = RxModel
  import TxOrder
  import TxStreams
  import PacketSearch
  import Datagrams
  import Incoming
  import Protocol
  import Receivers
  import RxOrder

  // The oldest acknowledgement leaves the queue when there is room for it.
  ghost predicate AckTaken(was: seq<(byte, nat)>, acks: seq<(byte, nat)>, c: Option<Chunk>, available: nat)
    requires was != []
  {
    if CHUNK_HEADER_B <= available then c == Some(Ack(was[0].0, was[0].1)) && acks == was[1..]
    else c == None && acks == was
  }

  ghost predicate AckIds(acks: seq<(byte, nat)>) {
    forall i :: 0 <= i < |acks| ==> acks[i].1 <= UINT32_MAX
  }

  /** What the other end makes of the bytes: the header, the chunks, and nothing left unless padded. */
  ghost predicate ReadBack(buffer: seq<byte>, h: Datagrams.Header, cs: seq<Chunk>, exact: bool) {
    match Datagrams.SplitHeader(buffer)
    case None => false
    case Some((h', body)) => h' == h && ParseAll(body).0 == cs && (exact ==> ParseAll(body).1 == [])
  }

  lemma HoldsNothing(buffer: seq<byte>, cs: seq<Chunk>, pmtu: nat)
    requires Holds(buffer, cs, pmtu)
    ensures |buffer| == Datagrams.HEADER_B <==> cs == []
  {
  }

  lemma WrittenReadBack(h: Datagrams.Header, buffer: seq<byte>, cs: seq<Chunk>, pmtu: nat, pad: nat, exact: bool)
    requires Holds(buffer, cs, pmtu) && h.Fits() && (exact ==> pad == 0)
    ensures ReadBack(Datagrams.WithHeader(h, buffer[Datagrams.HEADER_B..] + Rx.Zeros(pad)), h, cs, exact)
  {
    hide ParseAll, EncodeAll;
    Datagrams.PacketHeaderRoundTrip(h, buffer[Datagrams.HEADER_B..] + Rx.Zeros(pad));
    Datagrams.PaddingIsInert(cs, pad);
  }

  /** The end of writePacket: nothing to say, or the header in front of what was written. */
  method Seal(buffer: seq<byte>, pmtu: nat, isTest: bool, force: bool, h: Datagrams.Header, ghost cs: seq<Chunk>)
    returns (send: bool, datagram: seq<byte>)
    requires Holds(buffer, cs, pmtu) && h.Fits()
    ensures send <==> isTest || force || cs != []
    ensures send ==> |datagram| <= pmtu && (isTest ==> |datagram| == pmtu) && ReadBack(datagram, h, cs, !isTest)
  {
    HoldsNothing(buffer, cs, pmtu);
    WrittenReadBack(h, buffer, cs, pmtu, if isTest then pmtu - |buffer| else 0, !isTest);
    hide ReadBack, Datagrams.WithHeader;
    var body := buffer[Datagrams.HEADER_B..];
    assert body + [] == body;
    if isTest {
      body := body + Rx.Zeros(pmtu - |buffer|);
    } else if !force && |buffer| == Datagrams.HEADER_B {
      return false, buffer;
    }
    return true, Datagrams.WithHeader(h, body);
  }

  /** The branches of readChunk for data, on the stream they are for. */
  method Received(h: Rx.RxHalf, c: Chunk, env: Rx.RxEnv) returns (r: Rx.RxHalf)
    requires RxOrder.IdsFit(h.s) && Rx.BuffersFit(h.s) && c.IsData() && c.id <= UINT32_MAX
    ensures r == Rx.ReadData(h, c, env) && RxOrder.IdsFit(r.s) && Rx.BuffersFit(r.s)
  {
    hide Rx.ReadData, RxOrder.IdsFit, Rx.BuffersFit;
    var receiver := new Receivers.Receiver.Load(c.stream, h);
    receiver.Read(c, env);
    r := receiver.Half();
  }

  // The stream, which the chunk may have created, is stored again.
  lemma StoredKeeps(rx: RxMap, order: seq<byte>, acks: seq<(byte, nat)>, c: Chunk, env: Rx.RxEnv, r: Rx.RxHalf)
    requires Storable(rx) && Ordered(order, rx) && AckIds(acks) && c.IsData() && Incoming.Plain(c)
    requires r == Rx.ReadData(ReceivedOf(rx, acks, c.stream), c, env)
    requires RxOrder.IdsFit(r.s) && Rx.BuffersFit(r.s)
    ensures Storable(rx[c.stream := r]) && AckIds(r.acks)
    ensures Ordered(if c.stream in rx then order else order + [c.stream], rx[c.stream := r])
  {
    hide Rx.ReadData, RxOrder.IdsFit, Rx.BuffersFit;
    Incoming.ReadDataAcks(ReceivedOf(rx, acks, c.stream), c, env);
  }

  lemma KeptKeys(tx: TxMap, enq: map<byte, seq<seq<byte>>>)
    requires QueuesKept(tx, enq)
    ensures tx.Keys == enq.Keys
  {
  }

  predicate NoData(cs: seq<Chunk>) {
    forall c :: c in cs ==> !c.IsData()
  }

  // What the chunks written so far did to the receiving streams and their acknowledgements.
  ghost predicate MetaSoFar(was: RxMap, acks: seq<(byte, nat)>, rx: RxMap, left: seq<(byte, nat)>, cs: seq<Chunk>) {
    AnswerRuns(was, acks, rx, left, cs) && AckList(cs) + left == acks && NoData(cs)
  }

  lemma MetaBegins(rx: RxMap, acks: seq<(byte, nat)>)
    ensures MetaSoFar(rx, acks, rx, acks, [])
  {
    AnswerRunsBegin(rx, acks);
    assert [] + acks == acks;
  }

  lemma MetaIsNoData(was: RxMap, acks: seq<(byte, nat)>, rx: RxMap, left: seq<(byte, nat)>, cs: seq<Chunk>)
    requires MetaSoFar(was, acks, rx, left, cs)
    ensures NoData(cs)
  {
  }

  // One more chunk of writeMetaChunk.
  lemma MetaSoFarStep(was: RxMap, acks: seq<(byte, nat)>, rx: RxMap, left: seq<(byte, nat)>, rx': RxMap,
                      left': seq<(byte, nat)>, cs: seq<Chunk>, c: Option<Chunk>, now: int, datagram: nat, available: nat)
    requires MetaSoFar(was, acks, rx, left, cs) && Receivable(rx)
    requires left != [] ==> AckTaken(left, left', c, available) && rx' == rx
    requires left == [] ==> left' == [] && Requested(rx, rx', c, now, datagram, available)
    requires left == [] && c.Some? ==> c.value.Repeat? && SizeOf(c) <= available
    ensures MetaSoFar(was, acks, rx', left', cs + ListOf(c))
  {
    hide AnswerRuns, Requested, Receivable;
    assert cs + [] == cs;
    if c.Some? {
      AckListAppend(cs, c.value);
    }
    if left == [] {
      assert rx'.Keys == rx.Keys by {
        RequestedKeys(rx, rx', c, now, datagram, available);
      }
      AnswerRunsRequest(was, acks, rx, rx', cs, c, now, datagram, available);
    } else if c.Some? {
      AnswerRunsAck(was, acks, rx, left, cs);
    }
  }

  lemma RequestedKeys(was: RxMap, rx: RxMap, c: Option<Chunk>, now: int, datagram: nat, available: nat)
    requires Requested(was, rx, c, now, datagram, available)
    ensures rx.Keys == was.Keys
  {
  }

  // Data chunks are no part of what goes back.
  ghost predicate SameMeta(cs: seq<Chunk>, cs': seq<Chunk>) {
    AckList(cs') == AckList(cs) && forall id :: MetaOf(cs', id) == MetaOf(cs, id)
  }

  lemma SameMetaStep(was: seq<Chunk>, cs: seq<Chunk>, c: Option<Chunk>)
    requires SameMeta(was, cs) && (c.Some? ==> c.value.IsData())
    ensures SameMeta(was, cs + ListOf(c))
  {
    assert cs + [] == cs;
    if c.Some? {
      AckListAppend(cs, c.value);
      forall id
        ensures MetaOf(cs + ListOf(c), id) == MetaOf(was, id)
      {
        assert MetaOf(cs + ListOf(c), id) == MetaOf(cs, id);
      }
    }
  }

  // What the data chunks written so far did to the sending streams.
  ghost predicate DataSoFar(was: TxMap, meta: seq<Chunk>, tx: TxMap, cs: seq<Chunk>) {
    SendRuns(was, tx, cs) && SameMeta(meta, cs)
  }

  lemma DataBegins(tx: TxMap, cs: seq<Chunk>)
    requires NoData(cs)
    ensures DataSoFar(tx, cs, tx, cs)
  {
    SendRunsBegin(tx, cs);
  }

  // ------------------------------------------------------- what a datagram leaves behind

  // No request goes into the room: the last search found none, or none that fits.
  ghost predicate AskedOut(rx: RxMap, room: nat, now: int, datagram: nat) {
    exists before, spare: nat :: room <= spare && Requested(before, rx, None, now, datagram, spare)
  }

  // No acknowledgement and no request goes into the room that is left.
  ghost predicate MetaClosed(rx: RxMap, acks: seq<(byte, nat)>, room: nat, now: int, datagram: nat) {
    if acks != [] then room < CHUNK_HEADER_B else room == 0 || AskedOut(rx, room, now, datagram)
  }

  // Nothing was written, so this was the first search.
  ghost predicate MetaIdle(was: RxMap, acksWas: seq<(byte, nat)>, rx: RxMap, acks: seq<(byte, nat)>, room: nat,
                           now: int, datagram: nat) {
    acks == acksWas && (acks == [] && room > 0 ==> Requested(was, rx, None, now, datagram, room))
  }

  lemma MetaEnds(was: RxMap, acks: seq<(byte, nat)>, rx: RxMap, left: seq<(byte, nat)>, room: nat,
                 now: int, datagram: nat)
    requires acks != [] ==> AckTaken(acks, left, None, room) && rx == was
    requires acks == [] ==> left == [] && Requested(was, rx, None, now, datagram, room)
    ensures MetaClosed(rx, left, room, now, datagram) && MetaIdle(was, acks, rx, left, room, now, datagram)
  {
    hide Requested;
  }

  lemma NoRoom(was: RxMap, acksWas: seq<(byte, nat)>, rx: RxMap, acks: seq<(byte, nat)>, now: int, datagram: nat)
    ensures MetaClosed(rx, acks, 0, now, datagram)
    ensures acks == acksWas ==> MetaIdle(was, acksWas, rx, acks, 0, now, datagram)
  {
    hide Requested;
  }

  lemma MetaClosedLess(rx: RxMap, acks: seq<(byte, nat)>, room: nat, less: nat, now: int, datagram: nat)
    requires MetaClosed(rx, acks, room, now, datagram) && less <= room
    ensures MetaClosed(rx, acks, less, now, datagram)
  {
    hide Requested;
  }

  // Two and twenty bytes are enough for any request.
  lemma RequestFits(rx: RxMap, id: byte, now: int, datagram: nat)
    requires Waits(rx, id, now, datagram)
    ensures EncodedSize(RequestOf(rx, id, now, datagram)) <= 22
  {
    hide AfterRepeatScan, NumberOfBits;
  }

  lemma IdleMeans(was: RxMap, acksWas: seq<(byte, nat)>, rx: RxMap, acks: seq<(byte, nat)>, room: nat,
                  now: int, datagram: nat)
    requires MetaIdle(was, acksWas, rx, acks, room, now, datagram) && MetaClosed(rx, acks, room, now, datagram)
    requires room >= 22
    ensures acksWas == [] && forall id :: !Wants(was, id, now, datagram)
  {
    hide Waits, Wants, RequestOf, OthersScanned, EncodedSize, AskedOut;
    if id :| Waits(was, id, now, datagram) && EncodedSize(RequestOf(was, id, now, datagram)) > room {
      RequestFits(was, id, now, datagram);
    }
  }

  /** No data goes into the room that is left, for some draw of the last turn and the rotations before it. */
  ghost predicate DataClosed(tx: TxMap, vec: seq<seq<byte>>, vecIdx: seq<nat>, sent: Counts, room: nat, env: TxEnv)
    requires |vec| == CLASSES == |vecIdx|
  {
    || room <= CHUNK_HEADER_B
    || exists turns: seq<nat>, slot: nat :: LastTurn(tx, vec, turns, vecIdx, sent, slot, room, env)
  }

  ghost predicate LastTurn(tx: TxMap, vec: seq<seq<byte>>, turns: seq<nat>, vecIdx: seq<nat>, sent: Counts, slot: nat,
                           room: nat, env: TxEnv)
    requires |vec| == CLASSES
  {
    && |turns| == CLASSES && slot < CLASSES
    && vecIdx == Rotated(turns, vec, Chosen(Offers(tx, vec, turns, env), sent, slot))
    && Full(tx, vec, turns, sent, slot, room, env)
  }

  lemma DataEnds(was: TxMap, tx: TxMap, priority: map<byte, nat>, vec: seq<seq<byte>>, turns: seq<nat>,
                 vecIdx: seq<nat>, sent: Counts, slot: nat, choice: Option<(nat, byte)>, room: nat, env: TxEnv)
    requires Grouped(vec, priority) && was.Keys == priority.Keys && Priorities(priority)
    requires |vec| == CLASSES == |turns| && slot < CLASSES
    requires choice == Chosen(Offers(was, vec, turns, env), sent, slot)
    requires Outcome(was, tx, choice, None, room, env) && vecIdx == Rotated(turns, vec, choice)
    ensures DataClosed(tx, vec, vecIdx, sent, room, env) && ScannedOnce(was, tx, env)
  {
    hide Chosen, Offers, Outcome, Full, Rotated, ScannedOnce, Grouped;
    OutcomeFull(was, tx, priority, vec, turns, sent, slot, room, env);
    OutcomeScanned(was, tx, choice, room, env);
    OffersAfterScan(was, tx, vec, turns, env);
    assert LastTurn(tx, vec, turns, vecIdx, sent, slot, room, env);
  }

  lemma NoDataRoom(tx: TxMap, vec: seq<seq<byte>>, vecIdx: seq<nat>, sent: Counts, room: nat, env: TxEnv)
    requires |vec| == CLASSES == |vecIdx| && room <= CHUNK_HEADER_B
    ensures DataClosed(tx, vec, vecIdx, sent, room, env) && ScannedOnce(tx, tx, env)
  {
  }

  lemma DataMeans(tx: TxMap, vec: seq<seq<byte>>, vecIdx: seq<nat>, sent: Counts, room: nat, env: TxEnv)
    requires |vec| == CLASSES == |vecIdx| && DataClosed(tx, vec, vecIdx, sent, room, env)
    ensures room < 18 || forall id :: !HasPacket(tx, id, env)
  {
    hide Full, HasPacket, Chosen, Offers, Rotated;
    if room >= 18 {
      var turns: seq<nat>, slot: nat :| LastTurn(tx, vec, turns, vecIdx, sent, slot, room, env);
      FullMeans(tx, vec, turns, sent, slot, room, env);
    }
  }

  // Scanned streams have to send what they had before the scan.
  lemma ScannedHas(was: TxMap, tx: TxMap, id: byte, env: TxEnv)
    requires ScannedOnce(was, tx, env) && !HasPacket(tx, id, env)
    ensures !HasPacket(was, id, env)
  {
    ReadyIff(was, id, env);
    ReadyIff(tx, id, env);
    hide HasPacket;
    if id in was {
      TxOrder.ScanAgain(was[id], env);
    }
  }

  /**
   A datagram with room takes what is waiting. In what is left of it there is no place for an
   acknowledgement, a request or a chunk that could still be written. If it is empty, and of
   at least the base size, nothing was waiting anywhere.
   */
  ghost predicate Exhausted(was: End, e: End, vec: seq<seq<byte>>, vecIdx: seq<nat>, sent: Counts, cs: seq<Chunk>,
                            pmtu: nat, env: TxEnv) {
    var room := pmtu - Datagrams.HEADER_B - |EncodeAll(cs)|;
    && room >= 0 && |vec| == CLASSES == |vecIdx|
    && (e.acks != [] ==> room < 6)
    && MetaClosed(e.rx, e.acks, room, env.now, env.datagram)
    && DataClosed(e.tx, vec, vecIdx, sent, room, env)
    && (room < 18 || forall id :: !HasPacket(e.tx, id, env))
    && (cs == [] && pmtu >= 1172 ==> Idle(was, env))
  }

  // No acknowledgement waits, no packet lacks anything, and none is due.
  ghost predicate Idle(e: End, env: TxEnv) {
    && e.acks == []
    && (forall id :: !Wants(e.rx, id, env.now, env.datagram))
    && (forall id :: !HasPacket(e.tx, id, env))
  }

  lemma FilledExhausts(was: End, e: End, vec: seq<seq<byte>>, vecIdx: seq<nat>, sent: Counts, meta: seq<Chunk>,
                       cs: seq<Chunk>, metaRoom: nat, buffer: seq<byte>, pmtu: nat, env: TxEnv)
    requires |vec| == CLASSES == |vecIdx| && Holds(buffer, cs, pmtu) && pmtu - |buffer| <= metaRoom && |meta| <= |cs|
    requires MetaClosed(e.rx, e.acks, metaRoom, env.now, env.datagram)
    requires meta == [] ==> MetaIdle(was.rx, was.acks, e.rx, e.acks, metaRoom, env.now, env.datagram)
    requires DataClosed(e.tx, vec, vecIdx, sent, pmtu - |buffer|, env)
    requires cs == meta ==> ScannedOnce(was.tx, e.tx, env)
    ensures Exhausted(was, e, vec, vecIdx, sent, cs, pmtu, env)
  {
    hide DataClosed, HasPacket, ScannedOnce, Wants, MetaIdle, AskedOut;
    var room := pmtu - |buffer|;
    assert |buffer| == Datagrams.HEADER_B + |EncodeAll(cs)|;
    MetaClosedLess(e.rx, e.acks, metaRoom, room, env.now, env.datagram);
    DataMeans(e.tx, vec, vecIdx, sent, room, env);
    if cs == [] && pmtu >= 1172 {
      IdleMeans(was.rx, was.acks, e.rx, e.acks, metaRoom, env.now, env.datagram);
      forall id
        ensures !HasPacket(was.tx, id, env)
      {
        ScannedHas(was.tx, e.tx, id, env);
      }
    }
  }

  lemma DatagramWrote(e: End, e': End, meta: seq<Chunk>, cs: seq<Chunk>, buffer: seq<byte>, pmtu: nat, datagram: nat)
    requires MetaSoFar(e.rx, e.acks, e'.rx, e'.acks, meta) && DataSoFar(e.tx, meta, e'.tx, cs)
    requires e'.enq == e.enq && e'.gaps == e.gaps && Receivable(e'.rx)
    requires Holds(buffer, cs, pmtu) && AllRemember(e'.tx, cs, datagram) && AllAsked(e'.rx, cs)
    ensures Wrote(e, e', cs) && (cs == [] ==> e'.acks == e.acks)
  {
    hide SendRun, AnswerRun, Receivable, Encodable, EncodeAll, Remembers, Asked;
    assert [] + e'.acks == e'.acks;
    forall c | c in cs
      ensures Own(e, c)
    {
      var i :| 0 <= i < |cs| && cs[i] == c;
    }
  }

  lemma NothingAdded(cs: seq<Chunk>)
    ensures cs + ListOf(None) == cs && SizeOf(None) == 0
  {
  }

  lemma NothingCounted(sent: Counts, choice: Option<(nat, byte)>)
    ensures Accounted(sent, choice, None) == sent
  {
  }

  lemma DataSoFarStep(was: TxMap, meta: seq<Chunk>, tx: TxMap, tx': TxMap, choice: Option<(nat, byte)>,
                      cs: seq<Chunk>, c: Option<Chunk>, available: nat, env: TxEnv)
    requires DataSoFar(was, meta, tx, cs) && tx'.Keys == tx.Keys
    requires available <= CHUNK_HEADER_B ==> c == None && tx' == tx
    requires available > CHUNK_HEADER_B ==> Outcome(tx, tx', choice, c, available, env)
    requires c.Some? ==> c.value.IsData() && choice.Some? && c.value.stream == choice.value.1
    ensures DataSoFar(was, meta, tx', cs + ListOf(c))
  {
    hide SendRuns, Outcome, SameMeta;
    assert cs + [] == cs;
    SameMetaStep(meta, cs, c);
    if available > CHUNK_HEADER_B {
      SendRunsStep(was, tx, tx', choice, cs, c, available, env);
    }
  }

  class Connection {
    var tx: TxMap
    var priority: map<byte, nat>
    var vec: seq<seq<byte>>
    var vecIdx: seq<nat>
    var sent: Counts
    var isStreamsChanged: bool
    var rx: RxMap
    var rxOrder: seq<byte> // the order rxStreams.map is iterated in
    var rxNext: nat // the stream rxStreams.next() moves to
    var isRxChanged: bool
    var acks: seq<(byte, nat)>
    var txPacketsCount: nat
    var pmtu: nat
    var txBuffer: seq<byte>
    ghost var enq: map<byte, seq<seq<byte>>>
    ghost var gaps: map<byte, Protocol.Gaps>
    ghost var chunks: seq<Chunk>

    ghost function View(): End
      reads this
    {
      End(tx, rx, acks, enq, gaps)
    }

    // The search for requests starts again after a new stream.
    ghost function SearchStart(): nat
      reads this
    {
      if isRxChanged then 0 else rxNext
    }

    /** What every operation keeps, whatever arrives. */
    ghost predicate Kept()
      reads this
    {
      && Datagrams.HEADER_B <= pmtu <= MAX_DATAGRAM
      && txPacketsCount <= UINT32_MAX
      && |vec| == CLASSES == |vecIdx|
      && QueuesKept(tx, enq)
      && priority.Keys == tx.Keys
      && Priorities(priority)
      && (!isStreamsChanged ==> Grouped(vec, priority))
      && Storable(rx)
      && Ordered(rxOrder, rx)
      && AckIds(acks)
    }

    /** The offsets lie inside the payloads, and the receiving queues are away from the wrap. */
    ghost predicate Valid()
      reads this
    {
      Kept() && AllInside(tx) && Receivable(rx)
    }

    /** The datagram being filled holds the chunks, and the queues remember what they gave. */
    ghost predicate Filled()
      reads this
    {
      && Valid()
      && Holds(txBuffer, chunks, pmtu)
      && AllRemember(tx, chunks, txPacketsCount)
      && AllAsked(rx, chunks)
      && NoDuplicates(chunks)
    }

    constructor (pmtu: nat)
      requires Datagrams.HEADER_B <= pmtu <= MAX_DATAGRAM
      ensures Valid() && View() == NEW_END && this.pmtu == pmtu
    {
      tx, priority, enq, rx, gaps := map[], map[], map[], map[], map[];
      vec, vecIdx, sent, isStreamsChanged := [[], [], [], []], [0, 0, 0, 0], ZERO, true;
      rxOrder, rxNext, isRxChanged, acks := [], 0, true, [];
      txPacketsCount, this.pmtu, txBuffer, chunks := 0, pmtu, [], [];
    }

    /** send_ts: a new stream is reliable and of medium priority. */
    method Send(id: byte, payload: seq<byte>, timeoutMs: nat, now: int) returns (ok: bool)
      requires Kept() && |payload| <= UINT64_MAX
      requires |StreamOf(tx, id).t.fifo| < U32_MOD
      modifies this`tx, this`priority, this`isStreamsChanged, this`enq
      ensures Kept() && (old(Valid()) ==> Valid())
      ensures ok <==> payload != [] && timeoutMs >= 10
      ensures priority == if ok && id !in old(tx) then old(priority)[id := MEDIUM] else old(priority)
      ensures View() == if ok then SendBy(old(View()), id, payload, now + timeoutMs * 1000) else old(View())
    {
      hide QueuesKept, AllInside, Storable, Receivable, Grouped, Ordered, AckIds, Enqueue;
      if payload == [] || timeoutMs < 10 {
        return false;
      }
      KeptKeys(tx, enq);
      EnqueueStep(tx, enq, id, payload, now + timeoutMs * 1000);
      var h := StreamOf(tx, id);
      if id !in tx {
        priority := priority[id := MEDIUM];
        isStreamsChanged := true;
      }
      tx := tx[id := Enqueue(h, payload, now + timeoutMs * 1000)];
      enq := enq[id := EnqOf(enq, id) + [payload]];
      return true;
    }

    /** An acknowledgement for a stream or a packet that is not there changes nothing. */
    method ReadAck(id: byte, packetId: nat, now: int)
      requires Kept()
      modifies this`tx
      ensures Kept() && (old(Valid()) ==> Valid())
      ensures tx == if id in old(tx) then old(tx)[id := Tx.ReadAck(old(tx)[id], packetId, now)] else old(tx)
    {
      hide QueuesKept, AllInside, Storable, Receivable, Grouped, Ordered, AckIds, Priorities, Tx.ReadAck;
      hide PacketSearch.Consecutive;
      if id in tx {
        ReadAckStep(tx, enq, id, packetId, now);
        var h := TxStreams.ReadAck(tx[id], packetId, now);
        tx := tx[id := h];
      }
    }

    /** Any request is taken. The connection may send on exactly when its offset lies inside the payload. */
    method ReadRepeat(id: byte, packetId: nat, offset: nat)
      requires Kept()
      modifies this`tx
      ensures Kept()
      ensures old(Valid()) ==> (Valid() <==> id in old(tx) ==> RequestInside(old(tx)[id], packetId, offset))
      ensures tx == if id in old(tx) then old(tx)[id := Tx.ReadRepeat(old(tx)[id], packetId, offset)] else old(tx)
    {
      hide QueuesKept, AllInside, Storable, Receivable, Grouped, Ordered, AckIds, Priorities, Tx.ReadRepeat;
      hide PacketSearch.Consecutive, RequestInside;
      if id in tx {
        ReadRepeatStep(tx, enq, id, packetId, offset);
        var h := TxStreams.ReadRepeat(tx[id], packetId, offset);
        tx := tx[id := h];
      }
    }

    /** A data chunk goes to its stream, which it may create; all streams share the acknowledgements. */
    method ReadData(c: Chunk, env: Rx.RxEnv)
      requires Kept() && c.IsData() && Incoming.Plain(c)
      modifies this`rx, this`rxOrder, this`isRxChanged, this`acks, this`gaps
      ensures Kept() && (old(Valid()) && c.id < QUARTER ==> Valid())
      ensures View() == ReadBy(old(View()), c, env)
    {
      hide Protocol.GapsAfter;
      hide QueuesKept, AllInside, Receivable, Grouped, Priorities, Rx.ReadData, Rx.BuffersFit, RxOrder.IdsFit;
      hide Storable, Ordered, AckIds;
      ReceivedStorable(rx, acks, c.stream);
      ReceivableAfter(rx, acks, c, env);
      var h := ReceivedOf(rx, acks, c.stream);
      var r := Received(h, c, env);
      StoredKeeps(rx, rxOrder, acks, c, env, r);
      if c.stream !in rx {
        rxOrder := rxOrder + [c.stream];
        isRxChanged := true;
      }
      gaps := gaps[c.stream := Protocol.GapsAfter(GapsOf(gaps, c.stream), h, c, env)];
      rx := rx[c.stream := r];
      acks := r.acks;
    }

    /** readChunk sends each chunk to the queue it is for. */
    method ReadChunk(c: Chunk, env: Rx.RxEnv)
      requires Kept() && Incoming.Plain(c)
      modifies this`tx, this`rx, this`rxOrder, this`isRxChanged, this`acks, this`gaps
      ensures Kept() && View() == ReadBy(old(View()), c, env)
    {
      hide Kept, Rx.ReadData, Tx.ReadAck, Tx.ReadRepeat, Protocol.GapsAfter;
      hide AllInside, Receivable, RequestInside, Incoming.Plain;
      match c
      case Ack(stream, id) => ReadAck(stream, id, env.now);
      case Repeat(stream, id, offset, _) => ReadRepeat(stream, id, offset);
      case _ => ReadData(c, env);
    }

    method Update()
      requires Filled()
      modifies this`vec, this`isStreamsChanged
      ensures Filled() && !isStreamsChanged && Grouped(vec, priority)
      ensures !old(isStreamsChanged) ==> vec == old(vec)
    {
      hide QueuesKept, AllInside, Storable, Receivable, Holds, AllRemember, AllAsked, NoDuplicates, Grouped;
      if isStreamsChanged {
        vec := GroupByPriority(priority);
        isStreamsChanged := false;
      }
    }

    // The chunk goes behind those already written.
    method Append(c: Chunk)
      requires Holds(txBuffer, chunks, pmtu) && Encodable(c) && |txBuffer| + EncodedSize(c) <= pmtu
      modifies this`txBuffer, this`chunks
      ensures Holds(txBuffer, chunks, pmtu)
      ensures chunks == old(chunks) + [c] && |txBuffer| == old(|txBuffer|) + EncodedSize(c)
    {
      AppendHolds(txBuffer, chunks, pmtu, c);
      hide Holds, Encodable, EncodedSize;
      txBuffer := txBuffer + Encode(c);
      chunks := chunks + [c];
    }

    /**
     The chunk comes from the stream the scheduler chose among those ready; the bytes of its
     class and the rotation of the class move, and no other stream gives a chunk.
     */
    method WriteDataChunk(slot: nat, available: nat, env: TxEnv)
      returns (choice: Option<(nat, byte)>, c: Option<Chunk>)
      requires Filled() && slot < CLASSES && env.datagram == txPacketsCount
      requires available == pmtu - |txBuffer| && sent.Total() + available < UINT32_MAX
      modifies this`tx, this`vec, this`isStreamsChanged, this`vecIdx, this`sent, this`txBuffer, this`chunks
      ensures Filled()
      ensures chunks == old(chunks) + ListOf(c) && |txBuffer| == old(|txBuffer|) + SizeOf(c)
      ensures c.Some? ==> c.value.IsData() && SizeOf(c) > 0 && choice.Some? && c.value.stream == choice.value.1
      ensures tx.Keys == old(tx.Keys)
      ensures available <= CHUNK_HEADER_B ==> choice == None && c == None && tx == old(tx)
      ensures available > CHUNK_HEADER_B ==>
        && Grouped(vec, priority)
        && choice == Chosen(Offers(old(tx), vec, old(vecIdx), env), old(sent), slot)
        && Outcome(old(tx), tx, choice, c, available, env)
      ensures sent == Accounted(old(sent), choice, c) && vecIdx == Rotated(old(vecIdx), vec, choice)
    {
      hide QueuesKept, AllInside, Storable, Receivable, Holds, AllRemember, AllAsked;
      hide NoDuplicates, Grouped, Outcome, Chosen, Offers;
      hide EncodedSize, Encodable, Priorities, Ordered, AckIds, Moved, Sendable;
      choice, c := None, None;
      if available <= CHUNK_HEADER_B {
        return;
      }
      Update();
      SendableIff(tx, enq);
      tx, choice, c := SendNext(tx, vec, vecIdx, sent, slot, available, env, priority, enq, chunks);
      SendableIff(tx, enq);
      assert chunks + [] == chunks;
      if choice.Some? {
        Account(choice.value.0, c);
      }
    }

    method Account(k: nat, c: Option<Chunk>)
      requires Valid() && Holds(txBuffer, chunks, pmtu) && AllAsked(rx, chunks)
      requires k < CLASSES && vec[k] != []
      requires c.Some? ==> Encodable(c.value) && c.value.IsData() && |txBuffer| + EncodedSize(c.value) <= pmtu
      modifies this`vecIdx, this`sent, this`txBuffer, this`chunks
      ensures Valid() && Holds(txBuffer, chunks, pmtu) && AllAsked(rx, chunks)
      ensures chunks == old(chunks) + ListOf(c) && |txBuffer| == old(|txBuffer|) + SizeOf(c)
      ensures vecIdx == old(vecIdx)[k := Moved(old(vecIdx)[k], |vec[k]|)]
      ensures sent == if c.Some? then old(sent).Add(k, EncodedSize(c.value)) else old(sent)
    {
      hide QueuesKept, AllInside, Storable, Receivable, Holds, AllAsked, Grouped;
      hide EncodedSize, Encodable, Priorities, Ordered, AckIds;
      vecIdx := vecIdx[k := vecIdx[k] + 1];
      if vecIdx[k] >= |vec[k]| {
        vecIdx := vecIdx[k := 0];
      }
      if c.Some? {
        AppendNoRequest(rx, chunks, c.value);
        Append(c.value);
        sent := sent.Add(k, EncodedSize(c.value));
      }
    }

    /** Acknowledgements go first, one at a time; then repeat requests. */
    method WriteMetaChunk(available: nat, now: int) returns (c: Option<Chunk>)
      requires Filled() && available == pmtu - |txBuffer|
      modifies this`rx, this`rxNext, this`isRxChanged, this`acks, this`txBuffer, this`chunks
      ensures Filled()
      ensures chunks == old(chunks) + ListOf(c) && |txBuffer| == old(|txBuffer|) + SizeOf(c)
      ensures c.Some? ==> !c.value.IsData() && SizeOf(c) > 0
      ensures old(acks) != [] ==> AckTaken(old(acks), acks, c, available) && rx == old(rx)
      ensures old(acks) == [] ==>
        && acks == [] && (c.Some? ==> c.value.Repeat?)
        && Requested(old(rx), rx, c, now, txPacketsCount, available)
        && (c.Some? ==> NextInTurn(old(rx), rxOrder, old(SearchStart()), rxNext, c.value.stream, now, txPacketsCount))
    {
      hide Filled, Requested, AckTaken, NextInTurn;
      if acks != [] {
        c := WriteAck(available);
      } else {
        c := WriteRequest(available, now);
      }
    }

    method WriteAck(available: nat) returns (c: Option<Chunk>)
      requires Filled() && available == pmtu - |txBuffer| && acks != []
      modifies this`acks, this`txBuffer, this`chunks
      ensures Filled()
      ensures chunks == old(chunks) + ListOf(c) && |txBuffer| == old(|txBuffer|) + SizeOf(c)
      ensures c.Some? ==> c.value.Ack? && SizeOf(c) > 0
      ensures AckTaken(old(acks), acks, c, available)
    {
      hide QueuesKept, AllInside, Storable, Receivable, Holds, AllRemember;
      hide AllAsked, NoDuplicates, Grouped, Priorities, Ordered;
      c := None;
      if CHUNK_HEADER_B <= available {
        c := Some(Ack(acks[0].0, acks[0].1));
        AckStep(tx, rx, chunks, txPacketsCount, c.value);
        Append(c.value);
        acks := acks[1..];
      }
    }

    method WriteRequest(available: nat, now: int) returns (c: Option<Chunk>)
      requires Filled() && available == pmtu - |txBuffer|
      modifies this`rx, this`rxNext, this`isRxChanged, this`txBuffer, this`chunks
      ensures Filled()
      ensures chunks == old(chunks) + ListOf(c) && |txBuffer| == old(|txBuffer|) + SizeOf(c)
      ensures c.Some? ==> c.value.Repeat? && SizeOf(c) > 0
      ensures Requested(old(rx), rx, c, now, txPacketsCount, available)
      ensures !isRxChanged
      ensures c.Some? ==> NextInTurn(old(rx), rxOrder, old(SearchStart()), rxNext, c.value.stream, now, txPacketsCount)
    {
      hide NextInTurn;
      hide QueuesKept, AllInside, Storable, Receivable, Holds, AllRemember, AllAsked;
      hide NoDuplicates, Grouped, Requested, Priorities, AckIds, Ordered;
      hide EncodedSize, Encodable;
      if isRxChanged {
        isRxChanged := false;
        rxNext := 0;
      }
      rx, rxNext, c := ScanRepeats(rx, rxOrder, rxNext, now, txPacketsCount, available, chunks);
      ReceivableStorable(rx);
      assert chunks + [] == chunks;
      if c.Some? {
        AppendNoData(tx, chunks, txPacketsCount, c.value);
        Append(c.value);
      }
    }

    method FillMeta(now: int)
      requires Filled() && chunks == []
      modifies this`rx, this`rxNext, this`isRxChanged, this`acks, this`txBuffer, this`chunks
      ensures Filled() && MetaSoFar(old(rx), old(acks), rx, acks, chunks) && NoData(chunks) && |txBuffer| <= pmtu
      ensures MetaClosed(rx, acks, pmtu - |txBuffer|, now, txPacketsCount)
      ensures chunks == [] ==> MetaIdle(old(rx), old(acks), rx, acks, pmtu - |txBuffer|, now, txPacketsCount)
    {
      hide MetaClosed, MetaIdle;
      hide Filled, Requested, MetaSoFar, AckTaken, Receivable, Holds, AllRemember, AllAsked, NoData, SizeOf;
      ghost var rxStart, acksStart := rx, acks;
      MetaBegins(rx, acks);
      FilledFits();
      while true
        invariant Filled() && MetaSoFar(rxStart, acksStart, rx, acks, chunks) && |txBuffer| <= pmtu
        invariant chunks == [] ==> rx == rxStart && acks == acksStart
        decreases pmtu - |txBuffer|
      {
        var available := pmtu - |txBuffer|;
        if available == 0 {
          NoRoom(rxStart, acksStart, rx, acks, now, txPacketsCount);
          break;
        }
        ghost var rxWas, acksWas, before := rx, acks, chunks;
        FilledHolds();
        var c := WriteMetaChunk(available, now);
        FilledFits();
        MetaSoFarStep(rxStart, acksStart, rxWas, acksWas, rx, acks, before, c, now, txPacketsCount, available);
        NothingAdded(before);
        if c == None {
          MetaEnds(rxWas, acksWas, rx, acks, available, now, txPacketsCount);
          break;
        }
      }
      MetaIsNoData(rxStart, acksStart, rx, acks, chunks);
    }

    method FillData(env: TxEnv)
      requires Filled() && env.datagram == txPacketsCount && sent.Total() + (pmtu - |txBuffer|) < UINT32_MAX
      requires NoData(chunks)
      modifies this`tx, this`vec, this`isStreamsChanged, this`vecIdx, this`sent, this`txBuffer, this`chunks
      ensures Filled() && DataSoFar(old(tx), old(chunks), tx, chunks) && |txBuffer| <= pmtu
      ensures |vec| == CLASSES == |vecIdx| && DataClosed(tx, vec, vecIdx, sent, pmtu - |txBuffer|, env)
      ensures |txBuffer| >= old(|txBuffer|) && |chunks| >= |old(chunks)|
      ensures chunks == old(chunks) ==> ScannedOnce(old(tx), tx, env)
    {
      hide DataClosed, ScannedOnce;
      hide Filled, Outcome, Chosen, Offers, DataSoFar, Rotated, Accounted, SizeOf, Grouped, NoData;
      ghost var txStart, meta := tx, chunks;
      DataBegins(tx, chunks);
      FilledFits();
      while true
        invariant Filled() && DataSoFar(txStart, meta, tx, chunks)
        invariant |txBuffer| <= pmtu && sent.Total() + (pmtu - |txBuffer|) < UINT32_MAX
        invariant |txBuffer| >= old(|txBuffer|) && |chunks| >= |meta| && (|chunks| == |meta| ==> tx == txStart)
        decreases pmtu - |txBuffer|
      {
        FilledClasses();
        var available := pmtu - |txBuffer|;
        if available == 0 {
          NoDataRoom(tx, vec, vecIdx, sent, 0, env);
          break;
        }
        ghost var txWas, before, sentWas, turns := tx, chunks, sent, vecIdx;
        var slot: nat :| slot < CLASSES;
        var choice, c := WriteDataChunk(slot, available, env);
        FilledFits();
        AccountedTotal(sentWas, choice, c);
        DataSoFarStep(txStart, meta, txWas, tx, choice, before, c, available, env);
        FilledClasses();
        NothingAdded(before);
        NothingCounted(sentWas, choice);
        if c == None {
          if available <= CHUNK_HEADER_B {
            NoDataRoom(tx, vec, vecIdx, sent, available, env);
          } else {
            DataEnds(txWas, tx, priority, vec, turns, vecIdx, sent, slot, choice, available, env);
          }
          break;
        }
      }
    }

    lemma FilledClasses()
      requires Filled()
      ensures |vec| == CLASSES == |vecIdx| && tx.Keys == priority.Keys && Priorities(priority)
    {
    }

    lemma FilledFits()
      requires Filled()
      ensures |txBuffer| <= pmtu
    {
    }

    method NextDatagram()
      requires Valid()
      modifies this`txPacketsCount, this`txBuffer, this`chunks
      ensures Filled() && chunks == [] && |txBuffer| == Datagrams.HEADER_B
      ensures txPacketsCount == Inc32(old(txPacketsCount))
    {
      hide QueuesKept, AllInside, Storable, Receivable, Grouped, Ordered, AckIds, Priorities;
      txPacketsCount := Inc32(txPacketsCount);
      txBuffer := Rx.Zeros(Datagrams.HEADER_B);
      chunks := [];
    }

    method Fill(now: int, rtt2: nat)
      requires Valid() && sent.Total() + pmtu < UINT32_MAX
      modifies this
      ensures Filled() && pmtu == old(pmtu) && txPacketsCount == Inc32(old(txPacketsCount))
      ensures Wrote(old(View()), View(), chunks) && (chunks == [] ==> acks == old(acks))
      ensures Exhausted(old(View()), View(), vec, vecIdx, sent, chunks, pmtu, TxEnv(now, rtt2, txPacketsCount))
    {
      hide Exhausted, MetaClosed, MetaIdle, DataClosed, ScannedOnce;
      hide Filled, MetaSoFar, DataSoFar, Wrote, NoData, Receivable, Holds, AllRemember, AllAsked;
      ghost var start := View();
      NextDatagram();
      FillMeta(now);
      ghost var meta, metaRoom := chunks, pmtu - |txBuffer|;
      var env := TxEnv(now, rtt2, txPacketsCount);
      FillData(env);
      FilledHolds();
      DatagramWrote(start, View(), meta, chunks, txBuffer, pmtu, txPacketsCount);
      FilledExhausts(start, View(), vec, vecIdx, sent, meta, chunks, metaRoom, txBuffer, pmtu, env);
    }

    lemma FilledHolds()
      requires Filled()
      ensures Receivable(rx)
      ensures Holds(txBuffer, chunks, pmtu) && AllRemember(tx, chunks, txPacketsCount) && AllAsked(rx, chunks)
    {
    }

    /**
     The datagram fits the path, its header and its chunks are read back as they were
     written, no packet gives its payload twice, and every acknowledgement that left the
     queue is in it. Each stream has taken steps of the two-endpoint model that put exactly its
     chunks on the wire. It takes what is waiting as long as there is room. With nothing to say
     the datagram is not sent and takes no number.
     */
    method WritePacket(isTest: bool, force: bool, now: int, rtt2: nat, h: Datagrams.Header) returns (send: bool)
      requires Valid() && h.Fits() && sent.Total() + pmtu < UINT32_MAX
      modifies this
      ensures Valid() && pmtu == old(pmtu)
      ensures NoDuplicates(chunks) && Wrote(old(View()), View(), chunks)
      ensures Exhausted(old(View()), View(), vec, vecIdx, sent, chunks, pmtu,
                        TxEnv(now, rtt2, Inc32(old(txPacketsCount))))
      ensures send <==> isTest || force || chunks != []
      ensures !send ==> txPacketsCount == old(txPacketsCount) && acks == old(acks)
      ensures send ==>
        && txPacketsCount == Inc32(old(txPacketsCount))
        && |txBuffer| <= pmtu && (isTest ==> |txBuffer| == pmtu)
        && ReadBack(txBuffer, h.(packetId := Datagrams.TYPE_A, packetNumber := txPacketsCount), chunks, !isTest)
    {
      hide QueuesKept, AllInside, Storable, Receivable, Grouped, Ordered, AckIds;
      hide Priorities, ReadBack, AllRemember, AllAsked, NoDuplicates, Holds;
      hide Wrote, Exhausted;
      Fill(now, rtt2);
      var header := h.(packetId := Datagrams.TYPE_A, packetNumber := txPacketsCount);
      send, txBuffer := Seal(txBuffer, pmtu, isTest, force, header, chunks);
      if !send {
        txPacketsCount := if txPacketsCount == 0 then UINT32_MAX else txPacketsCount - 1;
      }
    }
  }
}
