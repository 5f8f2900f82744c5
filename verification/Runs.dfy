/**
 Every run of the two endpoints. The invariant ties the sender's queue, the receiver's queue
 and everything ever put on the wire, and the promises of the transport follow from it.
 */
module Runs {
  import opened Common
  import opened Chunks
  import opened RxModel
  import opened RxOrder
  import opened Protocol
  import opened Soundness
  import opened Payload
  import opened Pieces
  import Tx = TxModel
  import TxOrder

  /** Acknowledged at the sender means got at the receiver. */
  ghost predicate TxSound(tx: Tx.TxHalf, rx: RxHalf) {
    && (forall k :: 0 <= k < |tx.log| && tx.log[k].status == 's' ==> Got(rx, k))
    && (forall j :: 0 <= j < |tx.t.fifo| && tx.t.fifo[j].isAcknowledged ==> Got(rx, |tx.log| + j))
  }

  // The next byte to send is inside the payload, unless the packet is done.
  ghost predicate OffsetInside(p: Tx.TxPacket) {
    p.offset < |p.payload| || (!p.isReliable && p.isAcknowledged)
  }

  ghost predicate OffsetsInside(tx: Tx.TxHalf) {
    forall j :: 0 <= j < |tx.t.fifo| ==> OffsetInside(tx.t.fifo[j])
  }

  // A chunk says it is the front only when everything older has left the sender.
  ghost predicate DownOk(c: Chunk, tx: Tx.TxHalf, enq: seq<seq<byte>>) {
    && ChunkTrue(c, enq)
    && c.stream == tx.t.stream
    && c.reliable == tx.t.isReliable
    && (c.front ==> c.id <= |tx.log|)
  }

  ghost predicate UpOk(c: Chunk, tx: Tx.TxHalf, rx: RxHalf, enq: seq<seq<byte>>) {
    && (c.Ack? && c.stream == tx.t.stream && tx.t.isReliable ==> Settled(rx, tx.log, c.id))
    && (c.Repeat? ==> c.id < |enq| && c.repeatOffset < |enq[c.id]|)
  }

  ghost predicate WireOk(sys: System) {
    && (forall c :: c in sys.down ==> DownOk(c, sys.tx, sys.enq))
    && (forall c :: c in sys.up ==> UpOk(c, sys.tx, sys.rx, sys.enq))
  }

  ghost predicate ReliableOk(sys: System) {
    sys.tx.t.isReliable ==> RxSound(sys.rx, sys.tx.log, sys.tx.t.stream) && TxSound(sys.tx, sys.rx)
  }

  ghost predicate Inv(sys: System) {
    && |sys.enq| <= QUARTER
    && TxOrder.Conserved(sys.tx, sys.enq)
    && OffsetsInside(sys.tx)
    && HalfOk(sys.rx)
    && Truthful(sys.rx, sys.enq, sys.gaps)
    && Tiled(sys.rx, sys.enq, sys.gaps)
    && WireOk(sys)
    && ReliableOk(sys)
  }

  lemma EmptyHalfOk()
    ensures HalfOk(EMPTY_HALF) && Truthful(EMPTY_HALF, [], {})
  {
  }

  lemma EmptyHalfTiled()
    ensures Tiled(EMPTY_HALF, [], {})
  {
  }

  lemma InitInv(stream: byte, isReliable: bool)
    ensures Inv(Init(stream, isReliable))
  {
    hide Tiled, Truthful, HalfOk;
    EmptyHalfOk();
    EmptyHalfTiled();
    assert Init(stream, isReliable).rx == EMPTY_HALF;
  }

  // ------------------------------------------------------------- sender lemmas

  lemma PlainId(tx: Tx.TxHalf, enq: seq<seq<byte>>, j: nat)
    requires TxOrder.Conserved(tx, enq) && |enq| <= QUARTER && j < |tx.t.fifo|
    ensures tx.t.fifo[j].id == |tx.log| + j < |enq| && tx.t.fifo[j].payload == enq[|tx.log| + j]
  {
  }

  lemma {:induction false} ProcessTxSound(tx: Tx.TxHalf, rx: RxHalf, now: int)
    requires TxSound(tx, rx)
    ensures TxSound(Tx.Process(tx, now), rx)
    decreases |tx.t.fifo|
  {
    if Tx.PopReady(tx.t, now) {
      var r := Tx.PopOnce(tx);
      forall j | 0 <= j < |r.t.fifo| && r.t.fifo[j].isAcknowledged
        ensures Got(rx, |r.log| + j)
      {
        assert r.t.fifo[j] == tx.t.fifo[j + 1];
        assert Got(rx, |tx.log| + (j + 1));
      }
      assert tx.t.fifo[0].isAcknowledged ==> Got(rx, |tx.log| + 0);
      ProcessTxSound(r, rx, now);
    }
  }

  lemma {:induction false} ProcessOffsets(tx: Tx.TxHalf, now: int)
    requires OffsetsInside(tx)
    ensures OffsetsInside(Tx.Process(tx, now))
    decreases |tx.t.fifo|
  {
    if Tx.PopReady(tx.t, now) {
      var r := Tx.PopOnce(tx);
      forall j | 0 <= j < |r.t.fifo|
        ensures OffsetInside(r.t.fifo[j])
      {
        assert r.t.fifo[j] == tx.t.fifo[j + 1];
      }
      ProcessOffsets(r, now);
    }
  }

  // What the sender's own steps leave true of everything else.
  lemma SenderMoves(sys: System, tx': Tx.TxHalf)
    requires Inv(sys)
    requires TxOrder.Conserved(tx', sys.enq) && OffsetsInside(tx') && sys.tx.log <= tx'.log
    requires tx'.t.stream == sys.tx.t.stream && tx'.t.isReliable == sys.tx.t.isReliable
    requires tx'.t.isReliable ==> TxSound(tx', sys.rx)
    ensures Inv(sys.(tx := tx'))
  {
    var rx := sys.rx;
    forall c | c in sys.up
      ensures UpOk(c, tx', rx, sys.enq)
    {
      assert UpOk(c, sys.tx, rx, sys.enq);
    }
    if tx'.t.isReliable {
      assert RxSound(rx, tx'.log, tx'.t.stream) by {
        forall id | 0 <= id < rx.s.front
          ensures Settled(rx, tx'.log, id)
        {
          assert Settled(rx, sys.tx.log, id);
        }
        forall i | 0 <= i < |rx.acks| && rx.acks[i].0 == tx'.t.stream
          ensures Settled(rx, tx'.log, rx.acks[i].1)
        {
          assert Settled(rx, sys.tx.log, rx.acks[i].1);
        }
      }
    }
  }

  lemma ScanInv(sys: System, env: Tx.TxEnv)
    requires Inv(sys)
    ensures Inv(sys.(tx := TxOrder.AfterScan(sys.tx, env).0))
  {
    hide Tiled, Truthful, HalfOk, RxSound, WireOk, TxSound, OffsetsInside;
    TxOrder.ProcessConserved(sys.tx, sys.enq, env.now);
    ProcessOffsets(sys.tx, env.now);
    if sys.tx.t.isReliable {
      ProcessTxSound(sys.tx, sys.rx, env.now);
    }
    SenderMoves(sys, TxOrder.AfterScan(sys.tx, env).0);
  }

  /** A chunk cut from the queue is true, and is marked front only at the oldest packet. */
  lemma NextChunkOk(tx: Tx.TxHalf, enq: seq<seq<byte>>, available: nat)
    requires TxOrder.Conserved(tx, enq) && |enq| <= QUARTER && OffsetsInside(tx) && Payloads(enq)
    requires tx.t.packetFifoIdx < |tx.t.fifo| && !tx.t.fifo[tx.t.packetFifoIdx].isAcknowledged
    ensures Tx.NextChunk(tx.t, available).Some? ==> DownOk(Tx.NextChunk(tx.t, available).value, tx, enq)
  {
    hide Tx.PieceLength;
    var p, k := tx.t.fifo[tx.t.packetFifoIdx], |tx.log| + tx.t.packetFifoIdx;
    assert TxOrder.IsNth(p, k, enq) && OffsetInside(p) && p.isReliable == tx.t.isReliable;
    assert k < |enq| && p.id == k && p.payload == enq[k];
    hide TxOrder.Conserved, OffsetsInside;
    if p.isStarted && Tx.PieceOverhead(p) <= available {
      NextPieceTrue(tx.t, p, available, enq);
    }
  }

  lemma NextPieceTrue(t: Tx.TxState, p: Tx.TxPacket, available: nat, enq: seq<seq<byte>>)
    requires Payloads(enq) && p.id < |enq| && p.payload == enq[p.id] && p.offset < |p.payload|
    requires Tx.PieceOverhead(p) <= available
    ensures ChunkTrue(Tx.PieceChunk(t, p, Tx.PieceLength(p, available)), enq)
  {
    Tx.LeftInside(p);
    hide Tx.Left, Tx.PieceOverhead;
  }

  lemma WriteChunkKeeps(tx: Tx.TxHalf, rx: RxHalf, enq: seq<seq<byte>>, available: nat, env: Tx.TxEnv)
    requires TxOrder.Conserved(tx, enq) && OffsetsInside(tx)
    requires tx.t.packetFifoIdx < |tx.t.fifo| && !tx.t.fifo[tx.t.packetFifoIdx].isAcknowledged
    requires Tx.NextChunk(tx.t, available).Some?
    ensures var r := Tx.WriteChunk(tx, Tx.NextChunk(tx.t, available).value, env);
      OffsetsInside(r) && (tx.t.isReliable && TxSound(tx, rx) ==> TxSound(r, rx))
  {
    var i := tx.t.packetFifoIdx;
    var c := Tx.NextChunk(tx.t, available).value;
    var p := tx.t.fifo[i];
    var q := Tx.Written(p, c, env);
    var w := Tx.SetPacket(tx, i, q);
    assert OffsetInside(p) && OffsetInside(q);
    forall j | 0 <= j < |w.t.fifo|
      ensures OffsetInside(w.t.fifo[j])
    {
      assert j != i ==> w.t.fifo[j] == tx.t.fifo[j];
    }
    ProcessOffsets(w, env.now);
    if tx.t.isReliable && TxSound(tx, rx) {
      assert p.isReliable && !q.isAcknowledged;
      forall j | 0 <= j < |w.t.fifo| && w.t.fifo[j].isAcknowledged
        ensures Got(rx, |w.log| + j)
      {
        assert w.t.fifo[j] == tx.t.fifo[j];
        assert Got(rx, |tx.log| + j);
      }
    }
  }

  lemma WriteInv(sys: System, env: Tx.TxEnv, available: nat)
    requires Inv(sys)
    requires sys.tx.t.packetFifoIdx < |sys.tx.t.fifo| && !sys.tx.t.fifo[sys.tx.t.packetFifoIdx].isAcknowledged
    requires Tx.NextChunk(sys.tx.t, available).Some?
    ensures var c := Tx.NextChunk(sys.tx.t, available).value;
      Inv(sys.(tx := Tx.WriteChunk(sys.tx, c, env), down := sys.down + {c}))
  {
    var c := Tx.NextChunk(sys.tx.t, available).value;
    NextChunkOk(sys.tx, sys.enq, available);
    var with := sys.(down := sys.down + {c});
    assert Inv(with);
    TxOrder.WriteChunkConserved(sys.tx, sys.enq, c, env);
    WriteChunkKeeps(sys.tx, sys.rx, sys.enq, available, env);
    WriteChunkFrame(sys.tx, sys.enq, c, env);
    SenderMoves(with, Tx.WriteChunk(sys.tx, c, env));
  }

  lemma WriteChunkFrame(tx: Tx.TxHalf, enq: seq<seq<byte>>, c: Chunk, env: Tx.TxEnv)
    requires TxOrder.Conserved(tx, enq) && tx.t.packetFifoIdx < |tx.t.fifo|
    ensures var r := Tx.WriteChunk(tx, c, env);
      r.t.stream == tx.t.stream && r.t.isReliable == tx.t.isReliable
  {
    var i := tx.t.packetFifoIdx;
    var q := Tx.Written(tx.t.fifo[i], c, env);
    TxOrder.SetPacketConserved(tx, enq, i, q);
    TxOrder.ProcessConserved(Tx.SetPacket(tx, i, q), enq, env.now);
  }

  lemma OfferInv(sys: System, env: Tx.TxEnv, available: nat)
    requires Inv(sys)
    ensures Inv(OfferStep(sys, env, available))
  {
    ScanInv(sys, env);
    var (h, found) := TxOrder.AfterScan(sys.tx, env);
    if found && Tx.NextChunk(h.t, available).Some? {
      WriteInv(sys.(tx := h), env, available);
    }
  }

  lemma ReadAckInv(sys: System, id: nat, now: int)
    requires Inv(sys)
    requires sys.tx.t.isReliable ==> Settled(sys.rx, sys.tx.log, id)
    ensures Inv(sys.(tx := Tx.ReadAck(sys.tx, id, now)))
  {
    var tx := sys.tx;
    var found := Tx.Find(tx.t.fifo, id);
    if found.Some? {
      var i := found.value;
      PlainId(tx, sys.enq, i);
      var p := tx.t.fifo[i].(isAcknowledged := true);
      var w := Tx.SetPacket(tx, i, p);
      TxOrder.SetPacketConserved(tx, sys.enq, i, p);
      TxOrder.ProcessConserved(w, sys.enq, now);
      assert OffsetsInside(w) by {
        forall j | 0 <= j < |w.t.fifo|
          ensures OffsetInside(w.t.fifo[j])
        {
          assert OffsetInside(tx.t.fifo[j]);
        }
      }
      ProcessOffsets(w, now);
      if tx.t.isReliable {
        assert TxSound(w, sys.rx) by {
          forall j | 0 <= j < |w.t.fifo| && w.t.fifo[j].isAcknowledged
            ensures Got(sys.rx, |w.log| + j)
          {
            assert j != i ==> w.t.fifo[j] == tx.t.fifo[j];
          }
        }
        ProcessTxSound(w, sys.rx, now);
      }
      SenderMoves(sys, Tx.ReadAck(tx, id, now));
    }
  }

  lemma ReadRepeatInv(sys: System, id: nat, offset: nat)
    requires Inv(sys) && id < |sys.enq| && offset < |sys.enq[id]|
    ensures Inv(sys.(tx := Tx.ReadRepeat(sys.tx, id, offset)))
  {
    hide Tiled, Truthful, HalfOk, RxSound, WireOk, Got;
    var tx := sys.tx;
    var found := Tx.Find(tx.t.fifo, id);
    if found.Some? && tx.t.fifo[found.value].isReliable {
      var i := found.value;
      PlainId(tx, sys.enq, i);
      var r := Tx.ReadRepeat(tx, id, offset);
      TxOrder.ReadRepeatConserved(tx, sys.enq, id, offset);
      forall j | 0 <= j < |r.t.fifo|
        ensures OffsetInside(r.t.fifo[j])
        ensures r.t.fifo[j].isAcknowledged == tx.t.fifo[j].isAcknowledged
      {
        assert j != i ==> r.t.fifo[j] == tx.t.fifo[j];
        assert OffsetInside(tx.t.fifo[j]);
      }
      SenderMoves(sys, r);
    }
  }

  // ----------------------------------------------------------- receiver lemmas

  // What the receiver's own steps leave true of everything else.
  lemma ReceiverMoves(sys: System, rx': RxHalf, gaps': Gaps)
    requires Inv(sys) && HalfOk(rx')
    requires Truthful(rx', sys.enq, gaps') && Tiled(rx', sys.enq, gaps')
    requires sys.tx.t.isReliable ==> RxSound(rx', sys.tx.log, sys.tx.t.stream) && Keeps(sys.rx, rx')
    ensures Inv(sys.(rx := rx', gaps := gaps'))
  {
  }

  lemma ReadDownInv(sys: System, c: Chunk, env: RxEnv)
    requires Inv(sys) && c in sys.down
    ensures Inv(sys.(rx := ReadData(sys.rx, c, env), gaps := GapsAfter(sys.gaps, sys.rx, c, env)))
  {
    hide Tiled, Truthful, HalfOk, RxSound, TxSound, Keeps, ReadData;
    assert DownOk(c, sys.tx, sys.enq);
    ReadDataOk(sys.rx, c, env);
    ReadDataTrue(sys.rx, c, env, sys.enq, sys.gaps);
    ReadDataTiled(sys.rx, c, env, sys.enq, sys.gaps);
    if sys.tx.t.isReliable {
      FrontIsSettled(sys, c);
      ReadDataSound(sys.rx, c, env, sys.tx.log);
    }
    ReceiverMoves(sys, ReadData(sys.rx, c, env), GapsAfter(sys.gaps, sys.rx, c, env));
  }

  /** Everything older than a chunk marked front is settled: the heart of the front rule. */
  lemma FrontIsSettled(sys: System, c: Chunk)
    requires Inv(sys) && c in sys.down && sys.tx.t.isReliable
    ensures c.front ==> forall q :: 0 <= q < c.id ==> Settled(sys.rx, sys.tx.log, q)
  {
  }

  // The position of the repeat scan plays no part in the invariants.
  lemma ScanPositionIrrelevant(h: RxHalf, k: nat, enq: seq<seq<byte>>, gaps: Gaps)
    requires HalfOk(h) && Truthful(h, enq, gaps) && Tiled(h, enq, gaps)
    ensures var r := h.(s := h.s.(packetIdx := k));
      HalfOk(r) && Truthful(r, enq, gaps) && Tiled(r, enq, gaps) && Keeps(h, r)
  {
    hide Left, Completed, Slices, Disjoint, Covered;
  }

  lemma ScannedInv(sys: System, k: nat)
    requires Inv(sys)
    ensures Inv(sys.(rx := sys.rx.(s := sys.rx.s.(packetIdx := k))))
  {
    var h := sys.rx;
    var r := h.(s := h.s.(packetIdx := k));
    ScanPositionIrrelevant(h, k, sys.enq, sys.gaps);
    if sys.tx.t.isReliable {
      CarryOver(h, r, sys.tx.log, sys.tx.t.stream);
    }
    ReceiverMoves(sys, r, sys.gaps);
  }

  lemma ProcessedInv(sys: System, now: int)
    requires Inv(sys) && !sys.rx.s.isNew
    ensures Inv(sys.(rx := Process(sys.rx, now)))
  {
    ProcessOk(sys.rx, now);
    ProcessTrue(sys.rx, now, sys.enq, sys.gaps);
    ProcessTiled(sys.rx, now, sys.enq, sys.gaps);
    if sys.tx.t.isReliable {
      ProcessSound(sys.rx, now, sys.tx.log, sys.tx.t.stream);
    }
    ReceiverMoves(sys, Process(sys.rx, now), sys.gaps);
  }

  lemma MarkedInv(sys: System, datagram: nat)
    requires Inv(sys) && sys.rx.s.packetIdx < |sys.rx.s.fifo|
    ensures Inv(sys.(rx := sys.rx.(s := MarkRepeated(sys.rx.s, datagram))))
  {
    var h := sys.rx;
    var i := h.s.packetIdx;
    var p := h.s.fifo[i];
    var q := p.(offsetRepeat := UINT64_MAX, datagramId := datagram);
    assert PacketTrue(p, sys.enq[p.id], sys.gaps);
    assert BufferTrue(q, sys.enq[p.id], sys.gaps) by {
      forall k | 0 <= k < |sys.enq[p.id]|
        ensures ByteAt(q, sys.enq[p.id], sys.gaps, k) == ByteAt(p, sys.enq[p.id], sys.gaps, k)
      {
      }
    }
    SetPacketOk(h, i, q);
    SetPacketTrue(h, i, q, sys.enq, sys.gaps, sys.gaps);
    assert Covered(p, h.log, sys.enq, sys.gaps);
    SetPacketTiled(h, i, q, sys.enq, sys.gaps, sys.gaps);
    if sys.tx.t.isReliable {
      SetPacketSound(h, i, q, sys.tx.log, sys.tx.t.stream);
    }
    ReceiverMoves(sys, SetPacket(h, i, q), sys.gaps);
  }

  lemma RepeatInv(sys: System, now: int, datagram: nat, available: nat)
    requires Inv(sys) && !sys.rx.s.isNew
    ensures Inv(RepeatStep(sys, now, datagram, available))
  {
    hide Tiled, HalfOk, RxSound, TxSound, Process, TxOrder.Conserved, OffsetsInside;
    ProcessedInv(sys, now);
    var h := Process(sys.rx, now);
    var (t, found) := ScanRepeat(h.s, |h.s.fifo|, datagram);
    var scanned := sys.(rx := h.(s := t));
    assert t == h.s.(packetIdx := t.packetIdx);
    ScannedInv(sys.(rx := h), t.packetIdx);
    assert Inv(scanned);
    if found {
      var p := t.fifo[t.packetIdx];
      var c := RepeatOf(sys.tx.t.stream, p);
      assert PacketTrue(p, sys.enq[p.id], sys.gaps);
      assert UpOk(c, sys.tx, scanned.rx, sys.enq);
      var with := scanned.(up := scanned.up + {c});
      assert Inv(with);
      MarkedInv(with, datagram);
    }
  }

  lemma WriteAckInv(sys: System)
    requires Inv(sys) && sys.rx.acks != []
    ensures Inv(Apply(sys, WriteAck))
  {
    var h := sys.rx;
    var c := Ack(h.acks[0].0, h.acks[0].1);
    var with := sys.(up := sys.up + {c});
    assert UpOk(c, sys.tx, h, sys.enq);
    assert Inv(with);
    AcksIrrelevant(with, h.acks[1..]);
  }

  lemma AcksIrrelevant(sys: System, acks: seq<(byte, nat)>)
    requires Inv(sys)
    requires forall i :: 0 <= i < |acks| && acks[i].0 == sys.tx.t.stream ==> acks[i] in sys.rx.acks
    ensures Inv(sys.(rx := sys.rx.(acks := acks)))
  {
    var h := sys.rx;
    var r := h.(acks := acks);
    assert QueueCovered(r, sys.enq, sys.gaps);
    if sys.tx.t.isReliable {
      forall i | 0 <= i < |acks| && acks[i].0 == sys.tx.t.stream
        ensures Settled(r, sys.tx.log, acks[i].1)
      {
        var j :| 0 <= j < |h.acks| && h.acks[j] == acks[i];
        assert Settled(h, sys.tx.log, h.acks[j].1);
      }
      forall id | 0 <= id < r.s.front
        ensures Settled(r, sys.tx.log, id)
      {
        assert Settled(h, sys.tx.log, id);
      }
    }
    ReceiverMoves(sys, r, sys.gaps);
  }

  lemma SendInv(sys: System, payload: seq<byte>, deadline: int)
    requires Inv(sys) && IsPayload(payload) && |sys.enq| < QUARTER
    ensures Inv(sys.(tx := Tx.Enqueue(sys.tx, payload, deadline), enq := sys.enq + [payload]))
  {
    hide Tiled, Truthful, HalfOk, RxSound, Settled;
    EnqGrows(sys.rx, sys.enq, payload, sys.gaps);
    EnqueueKeeps(sys.tx, sys.rx, sys.enq, payload, deadline);
    var tx' := Tx.Enqueue(sys.tx, payload, deadline);
    var enq' := sys.enq + [payload];
    forall c | c in sys.down
      ensures DownOk(c, tx', enq')
    {
      assert DownOk(c, sys.tx, sys.enq);
    }
    forall c | c in sys.up
      ensures UpOk(c, tx', sys.rx, enq')
    {
      assert UpOk(c, sys.tx, sys.rx, sys.enq);
    }
  }

  lemma EnqueueKeeps(tx: Tx.TxHalf, rx: RxHalf, enq: seq<seq<byte>>, payload: seq<byte>, deadline: int)
    requires TxOrder.Conserved(tx, enq) && OffsetsInside(tx) && IsPayload(payload)
    ensures var r := Tx.Enqueue(tx, payload, deadline);
      && TxOrder.Conserved(r, enq + [payload]) && OffsetsInside(r) && (TxSound(tx, rx) ==> TxSound(r, rx))
      && r.log == tx.log && r.t.stream == tx.t.stream && r.t.isReliable == tx.t.isReliable
  {
    TxOrder.EnqueueConserved(tx, enq, payload, deadline);
    hide TxOrder.Conserved, Got;
    var r := Tx.Enqueue(tx, payload, deadline);
    assert forall j :: 0 <= j < |tx.t.fifo| ==> r.t.fifo[j] == tx.t.fifo[j] && OffsetInside(tx.t.fifo[j]);
  }

  lemma EnqGrows(h: RxHalf, enq: seq<seq<byte>>, payload: seq<byte>, gaps: Gaps)
    requires HalfOk(h) && Truthful(h, enq, gaps) && Tiled(h, enq, gaps) && IsPayload(payload)
    ensures Truthful(h, enq + [payload], gaps) && Tiled(h, enq + [payload], gaps)
  {
    EnqGrowsTrue(h, enq, payload, gaps);
    hide Tiled;
    EnqGrowsTiled(h, enq, payload, gaps);
  }

  lemma EnqGrowsTrue(h: RxHalf, enq: seq<seq<byte>>, payload: seq<byte>, gaps: Gaps)
    requires Truthful(h, enq, gaps) && IsPayload(payload)
    ensures Truthful(h, enq + [payload], gaps)
  {
  }

  lemma EnqGrowsTiled(h: RxHalf, enq: seq<seq<byte>>, payload: seq<byte>, gaps: Gaps)
    requires Tiled(h, enq, gaps) && End(h.s) <= |enq| && Base(h.s) <= |enq|
    ensures Tiled(h, enq + [payload], gaps)
  {
    var enq' := enq + [payload];
    hide PieceBytes, Reached;
    assert Left(h.log, Base(h.s), enq', gaps) by {
      forall id | 0 <= id < Base(h.s) && id < |enq'|
        ensures Whole(h.log, id) || Told(h.log, enq'[id], id, gaps)
      {
        assert enq'[id] == enq[id];
      }
    }
    forall i | 0 <= i < |h.s.fifo|
      ensures Covered(h.s.fifo[i], h.log, enq', gaps)
    {
      assert Covered(h.s.fifo[i], h.log, enq, gaps);
    }
  }

  // ---------------------------------------------------------------- every run

  lemma ApplyInv(sys: System, step: Step)
    requires Inv(sys) && |Apply(sys, step).enq| <= QUARTER
    ensures Inv(Apply(sys, step))
  {
    match step
    case Send(payload, deadline) => if IsPayload(payload) { SendInv(sys, payload, deadline); }
    case Offer(env, available) => OfferInv(sys, env, available);
    case Scan(env) => ScanInv(sys, env);
    case ReadDown(c, env) => if c in sys.down { ReadDownInv(sys, c, env); }
    case WriteAck => if sys.rx.acks != [] { WriteAckInv(sys); }
    case WriteRepeat(now, datagram, available) =>
      if sys.rx.acks == [] && !sys.rx.s.isNew { RepeatInv(sys, now, datagram, available); }
    case ReadUp(c, now) =>
      if c in sys.up {
        assert UpOk(c, sys.tx, sys.rx, sys.enq);
        if c.Ack? && c.stream == sys.tx.t.stream { ReadAckInv(sys, c.id, now); }
        if c.Repeat? && c.stream == sys.tx.t.stream { ReadRepeatInv(sys, c.id, c.repeatOffset); }
      }
    case OtherStreamAck(stream, id) =>
      if stream != sys.tx.t.stream { AcksIrrelevant(sys, sys.rx.acks + [(stream, id)]); }
  }

  lemma ApplyGrows(sys: System, step: Step)
    ensures sys.enq <= Apply(sys, step).enq
  {
  }

  /** The invariant holds after every run in which at most UINT32_MAX / 4 packets are sent. */
  lemma {:induction false} RunInv(stream: byte, isReliable: bool, steps: seq<Step>)
    requires |Run(Init(stream, isReliable), steps).enq| <= QUARTER
    ensures Inv(Run(Init(stream, isReliable), steps))
  {
    if steps == [] {
      InitInv(stream, isReliable);
    } else {
      var n := |steps| - 1;
      var before := Run(Init(stream, isReliable), steps[..n]);
      ApplyGrows(before, steps[n]);
      RunInv(stream, isReliable, steps[..n]);
      ApplyInv(before, steps[n]);
    }
  }
}
