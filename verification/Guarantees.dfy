/** What the transport promises, read off the invariant of every run. */
module Guarantees {
  import opened Common
  import opened RxModel
  import opened RxOrder
  import opened Protocol
  import opened Soundness
  import opened Payload
  import opened Pieces
  import opened Runs
  import opened Chunks
  import Tx = TxModel
  import TxOrder

  // A run between two endpoints that start empty, with fewer ids than a quarter of the circle.
  ghost predicate Reachable(sys: System, stream: byte, isReliable: bool, steps: seq<Step>) {
    sys == Run(Init(stream, isReliable), steps) && |sys.enq| <= QUARTER
  }

  lemma {:induction false} StreamConstant(stream: byte, isReliable: bool, steps: seq<Step>)
    requires |Run(Init(stream, isReliable), steps).enq| <= QUARTER
    ensures Run(Init(stream, isReliable), steps).tx.t.stream == stream
    ensures Run(Init(stream, isReliable), steps).tx.t.isReliable == isReliable
  {
    if steps != [] {
      var n := |steps| - 1;
      var before := Run(Init(stream, isReliable), steps[..n]);
      ApplyGrows(before, steps[n]);
      StreamConstant(stream, isReliable, steps[..n]);
      RunInv(stream, isReliable, steps[..n]);
      ApplyKeepsStream(before, steps[n]);
    }
  }

  lemma ApplyKeepsStream(sys: System, step: Step)
    requires Inv(sys)
    ensures Apply(sys, step).tx.t.stream == sys.tx.t.stream
    ensures Apply(sys, step).tx.t.isReliable == sys.tx.t.isReliable
  {
    hide Tiled, Truthful, HalfOk, ReliableOk, WireOk;
    match step
    case Offer(env, available) =>
      ScanInv(sys, env);
      TxOrder.ProcessConserved(sys.tx, sys.enq, env.now);
      var (h, found) := TxOrder.AfterScan(sys.tx, env);
      if found && Tx.NextChunk(h.t, available).Some? {
        WriteChunkFrame(h, sys.enq, Tx.NextChunk(h.t, available).value, env);
      }
    case Scan(env) => TxOrder.ProcessConserved(sys.tx, sys.enq, env.now);
    case ReadUp(c, now) =>
      if c in sys.up && c.Ack? && c.stream == sys.tx.t.stream {
        var found := Tx.Find(sys.tx.t.fifo, c.id);
        if found.Some? {
          var p := sys.tx.t.fifo[found.value].(isAcknowledged := true);
          TxOrder.SetPacketConserved(sys.tx, sys.enq, found.value, p);
          TxOrder.ProcessConserved(Tx.SetPacket(sys.tx, found.value, p), sys.enq, now);
        }
      }
    case _ =>
  }

  // A terminal event is the last that happens to a packet.
  lemma OneFate(h: RxHalf, e: RxEvent, id: nat)
    requires HalfOk(h) && e in h.log && e.Terminal() && e.id == id
    ensures forall d :: d in h.log && d.Terminal() && d.id == id ==> d == e
    ensures forall i :: 0 <= i < |h.s.fifo| ==> h.s.fifo[i].id != id
  {
  }

  /**
   Acknowledgement soundness: when the sender of a reliable stream reports 's' for a packet,
   the receiver has delivered it or holds it flagged received if and only if it did not give
   it up by its own clock.
   */
  lemma AckSoundness(sys: System, stream: byte, steps: seq<Step>, k: nat)
    requires Reachable(sys, stream, true, steps)
    requires k < |sys.tx.log| && sys.tx.log[k].status == 's'
    ensures TimedOut(k) !in sys.rx.log <==> WasDelivered(sys.rx, k) || Held(sys.rx.s.fifo, k)
  {
    RunInv(stream, true, steps);
    StreamConstant(stream, true, steps);
    assert Got(sys.rx, k);
    if TimedOut(k) in sys.rx.log {
      OneFate(sys.rx, TimedOut(k), k);
    } else if Logged(sys.rx.log, k) {
      var i :| 0 <= i < |sys.rx.log| && (sys.rx.log[i].Delivered? || sys.rx.log[i].TimedOut?) && sys.rx.log[i].id == k;
      assert sys.rx.log[i] in sys.rx.log;
    }
  }

  /**
   Front-rule safety: whenever the receiver of a reliable stream drops a packet because its
   id is below frontPacketId, the sender has already reported that packet 't'.
   */
  lemma FrontRuleSafety(sys: System, stream: byte, steps: seq<Step>, id: nat)
    requires Reachable(sys, stream, true, steps)
    requires Dropped(id) in sys.rx.log
    ensures id < |sys.tx.log| && sys.tx.log[id].status == 't'
  {
    RunInv(stream, true, steps);
    StreamConstant(stream, true, steps);
    var i :| 0 <= i < |sys.rx.log| && sys.rx.log[i] == Dropped(id);
    assert SenderTimedOut(sys.tx.log, sys.rx.log[i].id);
  }

  /** Nothing below the front of a reliable stream is lost without one side having timed it out. */
  lemma BelowFrontAccounted(sys: System, stream: byte, steps: seq<Step>, id: nat)
    requires Reachable(sys, stream, true, steps)
    requires id < sys.rx.s.front
    ensures Got(sys.rx, id) || (id < |sys.tx.log| && sys.tx.log[id].status == 't')
  {
    RunInv(stream, true, steps);
    StreamConstant(stream, true, steps);
    assert Settled(sys.rx, sys.tx.log, id);
  }

  /**
   Payload integrity, exactly: the bytes delivered under an id are the bytes enqueued under
   it, with zeros where a piece jumped ahead; so they are right if and only if every byte
   jumped over was zero anyway.
   */
  lemma DeliveredBytes(sys: System, stream: byte, isReliable: bool, steps: seq<Step>, id: nat, size: nat, data: seq<byte>)
    requires Reachable(sys, stream, isReliable, steps)
    requires Delivered(id, size, Some(data)) in sys.rx.log
    ensures id < |sys.enq| && size == |data| == |sys.enq[id]|
    ensures forall k :: 0 <= k < |data| ==> data[k] == if (id, k) in sys.gaps then 0 else sys.enq[id][k]
    ensures data == sys.enq[id] <==> forall k :: 0 <= k < |data| && (id, k) in sys.gaps ==> sys.enq[id][k] == 0
  {
    RunInv(stream, isReliable, steps);
    var i :| 0 <= i < |sys.rx.log| && sys.rx.log[i] == Delivered(id, size, Some(data));
    assert EventTrue(sys.rx.log[i], sys.enq, sys.gaps);
  }

  /**
   Piece events never overlap and each is a true slice. The pieces of a packet not handed over
   in a buffer are the bytes up to some offset that no piece jumped over, so they tile a prefix
   of the payload if and only if nothing in it was jumped over; at 's' the offset is the size.
   */
  lemma PieceEventsTile(sys: System, stream: byte, isReliable: bool, steps: seq<Step>, id: nat)
    requires Reachable(sys, stream, isReliable, steps) && id < |sys.enq|
    ensures Slices(sys.rx.log, sys.enq) && Disjoint(sys.rx.log)
    ensures !Buffered(sys.rx, id) ==>
      exists n: nat :: n <= |sys.enq[id]| && PieceBytes(sys.rx.log, id) == Reached(sys.enq[id], id, n, sys.gaps)
    ensures Delivered(id, |sys.enq[id]|, None) in sys.rx.log ==>
      && PieceBytes(sys.rx.log, id) == Reached(sys.enq[id], id, |sys.enq[id]|, sys.gaps)
      && (PieceBytes(sys.rx.log, id) == sys.enq[id] <==> NoGap(sys, id))
  {
    RunInv(stream, isReliable, steps);
    ReachedIsPrefix(sys.enq[id], id, |sys.enq[id]|, sys.gaps);
    assert sys.enq[id][..|sys.enq[id]|] == sys.enq[id];
    if !Buffered(sys.rx, id) {
      PiecesTold(sys.rx, sys.enq, sys.gaps, id);
    }
  }

  // The packet came, or waits, in a buffer.
  ghost predicate Buffered(h: RxHalf, id: nat) {
    Whole(h.log, id) || exists i :: 0 <= i < |h.s.fifo| && h.s.fifo[i].id == id && h.s.fifo[i].copy != []
  }

  ghost predicate NoGap(sys: System, id: nat)
    requires id < |sys.enq|
  {
    forall k :: 0 <= k < |sys.enq[id]| ==> (id, k) !in sys.gaps
  }

  lemma PiecesTold(h: RxHalf, enq: seq<seq<byte>>, gaps: Gaps, id: nat)
    requires HalfOk(h) && Tiled(h, enq, gaps) && id < |enq| && !Buffered(h, id)
    ensures Told(h.log, enq[id], id, gaps)
  {
    if End(h.s) <= id {
      NothingTold(h, enq, gaps, id);
    } else if Base(h.s) <= id {
      assert Covered(h.s.fifo[id - Base(h.s)], h.log, enq, gaps);
    }
  }

  /** The terminal callbacks of the receiver name strictly increasing ids, all of them sent. */
  lemma InOrderAtMostOnce(sys: System, stream: byte, isReliable: bool, steps: seq<Step>, i: nat, j: nat)
    requires Reachable(sys, stream, isReliable, steps)
    requires i < j < |sys.rx.log| && sys.rx.log[i].Terminal() && sys.rx.log[j].Terminal()
    ensures sys.rx.log[i].id < sys.rx.log[j].id < |sys.enq|
  {
    RunInv(stream, isReliable, steps);
  }

  /**
   Sender offset invariant: the offset of a packet still to be sent lies inside its payload,
   and so does the offset of every repeat request on the wire.
   */
  lemma OffsetsStayInside(sys: System, stream: byte, isReliable: bool, steps: seq<Step>)
    requires Reachable(sys, stream, isReliable, steps)
    ensures forall j :: 0 <= j < |sys.tx.t.fifo| && (isReliable || !sys.tx.t.fifo[j].isAcknowledged) ==>
      sys.tx.t.fifo[j].offset < |sys.tx.t.fifo[j].payload|
    ensures forall c :: c in sys.up && c.Repeat? ==> c.id < |sys.enq| && c.repeatOffset < |sys.enq[c.id]|
    ensures forall c :: c in sys.down && c.Piece? ==>
      c.id < |sys.enq| && c.data != [] && c.offset + |c.data| <= |sys.enq[c.id]|
  {
    RunInv(stream, isReliable, steps);
    StreamConstant(stream, isReliable, steps);
    forall j | 0 <= j < |sys.tx.t.fifo| && (isReliable || !sys.tx.t.fifo[j].isAcknowledged)
      ensures sys.tx.t.fifo[j].offset < |sys.tx.t.fifo[j].payload|
    {
      assert OffsetInside(sys.tx.t.fifo[j]);
    }
    forall c | c in sys.up && c.Repeat?
      ensures c.id < |sys.enq| && c.repeatOffset < |sys.enq[c.id]|
    {
      assert UpOk(c, sys.tx, sys.rx, sys.enq);
    }
    forall c | c in sys.down && c.Piece?
      ensures c.id < |sys.enq| && c.data != [] && c.offset + |c.data| <= |sys.enq[c.id]|
    {
      assert DownOk(c, sys.tx, sys.enq);
    }
  }

  // The application has, or the receiver holds ready for it, exactly the payload.
  ghost predicate HasPayload(h: RxHalf, id: nat, payload: seq<byte>) {
    || Delivered(id, |payload|, Some(payload)) in h.log
    || (Delivered(id, |payload|, None) in h.log && PieceBytes(h.log, id) == payload)
    || exists i :: 0 <= i < |h.s.fifo| && h.s.fifo[i].id == id && h.s.fifo[i].isReceived
         && (h.s.fifo[i].copy == payload || (h.s.fifo[i].copy == [] && PieceBytes(h.log, id) == payload))
  }

  // A buffer may have been jumped over where the payload is zero; pieces may not.
  ghost predicate Harmless(sys: System, id: nat)
    requires id < |sys.enq|
  {
    forall k :: 0 <= k < |sys.enq[id]| && (id, k) in sys.gaps ==> Buffered(sys.rx, id) && sys.enq[id][k] == 0
  }

  // A held packet is the only one of its id, and was not reported.
  lemma OnlyHeld(h: RxHalf, i: nat)
    requires HalfOk(h) && i < |h.s.fifo|
    ensures forall e :: e in h.log && e.Terminal() ==> e.id != h.s.fifo[i].id
    ensures forall j :: 0 <= j < |h.s.fifo| && h.s.fifo[j].id == h.s.fifo[i].id ==> j == i
  {
  }

  lemma HeldHas(h: RxHalf, i: nat, payload: seq<byte>)
    requires HalfOk(h) && i < |h.s.fifo| && h.s.fifo[i].isReceived
    ensures var p := h.s.fifo[i];
      HasPayload(h, p.id, payload) <==> p.copy == payload || (p.copy == [] && PieceBytes(h.log, p.id) == payload)
    ensures Buffered(h, h.s.fifo[i].id) <==> h.s.fifo[i].copy != []
  {
    OnlyHeld(h, i);
    hide HalfOk, PieceBytes;
  }

  lemma BufferIsPayload(p: RxPacket, payload: seq<byte>, gaps: Gaps)
    requires PacketTrue(p, payload, gaps) && p.isReceived && p.copy != []
    ensures p.copy == payload <==> forall k :: 0 <= k < |payload| && (p.id, k) in gaps ==> payload[k] == 0
  {
    assert forall k :: 0 <= k < |payload| ==> p.copy[k] == ByteAt(p, payload, gaps, k);
  }

  lemma PiecesArePayload(p: RxPacket, payload: seq<byte>, log: seq<RxEvent>, enq: seq<seq<byte>>, gaps: Gaps)
    requires p.isReceived && p.copy == [] && PacketTrue(p, payload, gaps)
    requires Covered(p, log, enq, gaps) && enq[p.id] == payload
    ensures PieceBytes(log, p.id) == payload <==> forall k :: 0 <= k < |payload| ==> (p.id, k) !in gaps
  {
    ReachedIsPrefix(payload, p.id, |payload|, gaps);
    assert payload[..|payload|] == payload;
  }

  lemma HeldPayload(sys: System, i: nat)
    requires Inv(sys) && i < |sys.rx.s.fifo| && sys.rx.s.fifo[i].isReceived
    ensures var id := sys.rx.s.fifo[i].id;
      id < |sys.enq| && (HasPayload(sys.rx, id, sys.enq[id]) <==> Harmless(sys, id))
  {
    var p := sys.rx.s.fifo[i];
    assert PacketTrue(p, sys.enq[p.id], sys.gaps) && Covered(p, sys.rx.log, sys.enq, sys.gaps);
    assert sys.enq[p.id] != [] && HalfOk(sys.rx);
    HeldHas(sys.rx, i, sys.enq[p.id]);
    hide Inv, HalfOk, HasPayload, Buffered, PieceBytes, PacketTrue, Covered;
    if p.copy != [] {
      BufferIsPayload(p, sys.enq[p.id], sys.gaps);
    } else {
      PiecesArePayload(p, sys.enq[p.id], sys.rx.log, sys.enq, sys.gaps);
    }
  }

  // The only fate of the packet is the given delivery.
  ghost predicate Fate(h: RxHalf, e: RxEvent) {
    && e in h.log && e.Delivered?
    && (forall d :: d in h.log && d.Terminal() && d.id == e.id ==> d == e)
    && (forall i :: 0 <= i < |h.s.fifo| ==> h.s.fifo[i].id != e.id)
  }

  lemma FateInBuffer(h: RxHalf, e: RxEvent, payload: seq<byte>)
    requires Fate(h, e) && e.data.Some? && e.size == |e.data.value| == |payload|
    ensures Buffered(h, e.id) && (HasPayload(h, e.id, payload) <==> e.data.value == payload)
  {
    assert Delivered(e.id, |payload|, None) !in h.log;
    hide PieceBytes;
  }

  lemma FateInPieces(h: RxHalf, e: RxEvent, payload: seq<byte>)
    requires Fate(h, e) && e.data.None? && e.size == |payload|
    ensures !Buffered(h, e.id) && (HasPayload(h, e.id, payload) <==> PieceBytes(h.log, e.id) == payload)
  {
    assert e == Delivered(e.id, |payload|, None);
    hide PieceBytes;
  }

  lemma DeliveredPayload(sys: System, stream: byte, isReliable: bool, steps: seq<Step>, e: RxEvent)
    requires Reachable(sys, stream, isReliable, steps) && e in sys.rx.log && e.Delivered?
    ensures e.id < |sys.enq| && (HasPayload(sys.rx, e.id, sys.enq[e.id]) <==> Harmless(sys, e.id))
  {
    RunInv(stream, isReliable, steps);
    assert EventTrue(e, sys.enq, sys.gaps);
    OneFate(sys.rx, e, e.id);
    assert Fate(sys.rx, e);
    hide Inv, Fate, HasPayload, Buffered, PieceBytes, Reached;
    match e.data
    case None =>
      assert e == Delivered(e.id, |sys.enq[e.id]|, None);
      FateInPieces(sys.rx, e, sys.enq[e.id]);
      PieceEventsTile(sys, stream, isReliable, steps, e.id);
    case Some(data) =>
      FateInBuffer(sys.rx, e, sys.enq[e.id]);
      DeliveredBytes(sys, stream, isReliable, steps, e.id, e.size, data);
  }

  /**
   End to end on a reliable stream: 's' at the sender means that the receiver's application
   has exactly the bytes handed to send(), or the receiver holds them ready, if and only if
   the receiver's own clock did not give the packet up and what was jumped over is harmless.
   */
  lemma EndToEnd(sys: System, stream: byte, steps: seq<Step>, k: nat)
    requires Reachable(sys, stream, true, steps)
    requires k < |sys.tx.log| && sys.tx.log[k].status == 's'
    ensures k < |sys.enq| && sys.tx.log[k].payload == sys.enq[k]
    ensures HasPayload(sys.rx, k, sys.enq[k]) <==> TimedOut(k) !in sys.rx.log && Harmless(sys, k)
  {
    RunInv(stream, true, steps);
    AckSoundness(sys, stream, steps, k);
    assert TxOrder.EventIsNth(sys.tx.log[k], k, sys.enq);
    hide Inv, HalfOk, Harmless;
    if TimedOut(k) in sys.rx.log {
      GivenUp(sys.rx, k, sys.enq[k]);
    } else if WasDelivered(sys.rx, k) {
      var i :| 0 <= i < |sys.rx.log| && sys.rx.log[i].Delivered? && sys.rx.log[i].id == k;
      DeliveredPayload(sys, stream, true, steps, sys.rx.log[i]);
    } else {
      var i :| 0 <= i < |sys.rx.s.fifo| && sys.rx.s.fifo[i].id == k && sys.rx.s.fifo[i].isReceived;
      HeldPayload(sys, i);
    }
  }

  lemma GivenUp(h: RxHalf, id: nat, payload: seq<byte>)
    requires HalfOk(h) && TimedOut(id) in h.log
    ensures !HasPayload(h, id, payload)
  {
    OneFate(h, TimedOut(id), id);
  }
}
