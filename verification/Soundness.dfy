/**
 Acknowledgement soundness and the safety of the front rule on reliable streams, as an
 invariant of the two endpoints together.
 */
module Soundness {
  import opened Common
  import opened Chunks
  import opened RxModel
  import opened RxOrder
  import Tx = TxModel

  ghost predicate Logged(log: seq<RxEvent>, id: nat) {
    exists i :: 0 <= i < |log| && (log[i].Delivered? || log[i].TimedOut?) && log[i].id == id
  }

  ghost predicate Held(fifo: seq<RxPacket>, id: nat) {
    exists i :: 0 <= i < |fifo| && fifo[i].id == id && fifo[i].isReceived
  }

  ghost predicate WasDelivered(h: RxHalf, id: nat) {
    exists i :: 0 <= i < |h.log| && h.log[i].Delivered? && h.log[i].id == id
  }

  /** The receiver delivered the packet, holds it received, or gave it up by its own clock. */
  ghost predicate Got(h: RxHalf, id: nat) {
    Logged(h.log, id) || Held(h.s.fifo, id)
  }

  ghost predicate SenderTimedOut(tlog: seq<Tx.TxEvent>, id: nat) {
    id < |tlog| && tlog[id].status == 't'
  }

  ghost predicate Settled(h: RxHalf, tlog: seq<Tx.TxEvent>, id: nat) {
    Got(h, id) || SenderTimedOut(tlog, id)
  }

  ghost predicate Keeps(h: RxHalf, h': RxHalf) {
    forall id :: Got(h, id) ==> Got(h', id)
  }

  /** What the receiver may rely on, given the sender's log. */
  ghost predicate RxSound(h: RxHalf, tlog: seq<Tx.TxEvent>, stream: byte) {
    && (forall id :: 0 <= id < h.s.front ==> Settled(h, tlog, id))
    && (forall i :: 0 <= i < |h.acks| && h.acks[i].0 == stream ==> Settled(h, tlog, h.acks[i].1))
    && (forall i :: 0 <= i < |h.log| && h.log[i].Dropped? ==> SenderTimedOut(tlog, h.log[i].id))
  }

  // ------------------------------------------------------- receiver, op by op

  // Everything but the front, the queue and the log is as before, and nothing got is lost.
  lemma CarryOver(h: RxHalf, h': RxHalf, tlog: seq<Tx.TxEvent>, stream: byte)
    requires RxSound(h, tlog, stream) && Keeps(h, h')
    requires h'.acks == h.acks && h'.log == h.log
    requires forall id :: h.s.front <= id < h'.s.front ==> Settled(h', tlog, id)
    ensures RxSound(h', tlog, stream)
  {
    forall id | 0 <= id < h'.s.front
      ensures Settled(h', tlog, id)
    {
      if id < h.s.front {
        assert Settled(h, tlog, id);
      }
    }
    forall i | 0 <= i < |h'.acks| && h'.acks[i].0 == stream
      ensures Settled(h', tlog, h'.acks[i].1)
    {
      assert Settled(h, tlog, h.acks[i].1);
    }
  }

  lemma ExtendsKeeps(h: RxHalf, r: RxState, now: int, length: nat)
    requires Extends(h.s, r, now, length)
    ensures Keeps(h, h.(s := r))
  {
  }

  lemma OpenSound(h: RxHalf, now: int, tlog: seq<Tx.TxEvent>, stream: byte)
    requires HalfOk(h) && RxSound(h, tlog, stream)
    ensures RxSound(Open(h, now), tlog, stream) && Keeps(h, Open(h, now))
  {
  }

  lemma AdvanceSound(h: RxHalf, isFront: bool, id: nat, tlog: seq<Tx.TxEvent>, stream: byte)
    requires HalfOk(h) && !h.s.isNew && RxSound(h, tlog, stream) && id < QUARTER
    requires isFront ==> forall q :: 0 <= q < id ==> Settled(h, tlog, q)
    ensures RxSound(Advance(h, isFront, id), tlog, stream) && Keeps(h, Advance(h, isFront, id))
  {
    RaiseFrontOk(h.s, isFront, id);
    var h' := Advance(h, isFront, id);
    assert h'.s.fifo == h.s.fifo && h'.log == h.log;
    forall q | h.s.front <= q < h'.s.front
      ensures Settled(h', tlog, q)
    {
      assert Settled(h, tlog, q);
    }
    CarryOver(h, h', tlog, stream);
  }

  lemma LookupSound(h: RxHalf, now: int, id: nat, tlog: seq<Tx.TxEvent>, stream: byte)
    requires HalfOk(h) && !h.s.isNew && h.s.front <= id < QUARTER && RxSound(h, tlog, stream)
    ensures RxSound(Lookup(h, now, id), tlog, stream) && Keeps(h, Lookup(h, now, id))
  {
    GetFinds(h.s, now, id);
    ExtendsKeeps(h, GetState(h.s, now, id), now, Max(|h.s.fifo|, id + 1 - Base(h.s)));
    CarryOver(h, Lookup(h, now, id), tlog, stream);
  }

  lemma SetPacketSound(h: RxHalf, i: nat, p: RxPacket, tlog: seq<Tx.TxEvent>, stream: byte)
    requires RxSound(h, tlog, stream) && i < |h.s.fifo|
    requires p.id == h.s.fifo[i].id && (h.s.fifo[i].isReceived ==> p.isReceived)
    ensures RxSound(SetPacket(h, i, p), tlog, stream) && Keeps(h, SetPacket(h, i, p))
    ensures p.isReceived ==> Got(SetPacket(h, i, p), p.id)
  {
    var h' := SetPacket(h, i, p);
    assert h'.s.fifo[i] == p;
    forall id | Got(h, id)
      ensures Got(h', id)
    {
      if Held(h.s.fifo, id) {
        var j :| 0 <= j < |h.s.fifo| && h.s.fifo[j].id == id && h.s.fifo[j].isReceived;
        assert h'.s.fifo[j].id == id && h'.s.fifo[j].isReceived;
      }
    }
    CarryOver(h, h', tlog, stream);
  }

  lemma PushAckSound(h: RxHalf, stream: byte, id: nat, tlog: seq<Tx.TxEvent>)
    requires RxSound(h, tlog, stream) && Settled(h, tlog, id)
    ensures RxSound(PushAck(h, stream, id), tlog, stream) && Keeps(h, PushAck(h, stream, id))
  {
    var h' := PushAck(h, stream, id);
    forall q | 0 <= q < h'.s.front
      ensures Settled(h', tlog, q)
    {
      assert Settled(h, tlog, q);
    }
    forall i | 0 <= i < |h'.acks| && h'.acks[i].0 == stream
      ensures Settled(h', tlog, h'.acks[i].1)
    {
      if i < |h.acks| {
        assert h'.acks[i] == h.acks[i];
        assert Settled(h, tlog, h.acks[i].1);
      } else {
        assert h'.acks[i] == (stream, id);
      }
    }
  }

  // The event e ends the packet at the front of the queue, and the packet leaves.
  lemma LeaveKeeps(h: RxHalf, e: RxEvent)
    requires HalfOk(h) && h.s.fifo != []
    requires e.id == h.s.fifo[0].id && (h.s.fifo[0].isReceived ==> e.Delivered?)
    ensures Keeps(h, h.(s := PopFront(h.s), log := h.log + [e]))
    ensures e.Delivered? || e.TimedOut? ==> Got(h.(s := PopFront(h.s), log := h.log + [e]), e.id)
  {
    PopFrontOk(h.s);
    var h' := h.(s := PopFront(h.s), log := h.log + [e]);
    assert h'.log[|h.log|] == e;
    forall id | Got(h, id)
      ensures Got(h', id)
    {
      if Logged(h.log, id) {
        var i :| 0 <= i < |h.log| && (h.log[i].Delivered? || h.log[i].TimedOut?) && h.log[i].id == id;
        assert h'.log[i] == h.log[i];
      } else {
        var i :| 0 <= i < |h.s.fifo| && h.s.fifo[i].id == id && h.s.fifo[i].isReceived;
        if i > 0 {
          assert h'.s.fifo[i - 1] == h.s.fifo[i];
        }
      }
    }
  }

  lemma LeaveSound(h: RxHalf, e: RxEvent, tlog: seq<Tx.TxEvent>, stream: byte)
    requires HalfOk(h) && RxSound(h, tlog, stream) && h.s.fifo != []
    requires e.id == h.s.fifo[0].id && (h.s.fifo[0].isReceived ==> e.Delivered?)
    requires e.Dropped? ==> SenderTimedOut(tlog, e.id)
    requires e.Terminal()
    ensures var h' := h.(s := PopFront(h.s), log := h.log + [e]);
      RxSound(h', tlog, stream) && Keeps(h, h')
  {
    PopFrontOk(h.s);
    LeaveKeeps(h, e);
    var h' := h.(s := PopFront(h.s), log := h.log + [e]);
    forall id | 0 <= id < h'.s.front
      ensures Settled(h', tlog, id)
    {
      if id < h.s.front {
        assert Settled(h, tlog, id);
      } else {
        assert id == e.id;
      }
    }
    forall i | 0 <= i < |h'.acks| && h'.acks[i].0 == stream
      ensures Settled(h', tlog, h'.acks[i].1)
    {
      assert Settled(h, tlog, h.acks[i].1);
    }
    forall i | 0 <= i < |h'.log| && h'.log[i].Dropped?
      ensures SenderTimedOut(tlog, h'.log[i].id)
    {
      if i < |h.log| {
        assert h'.log[i] == h.log[i];
      } else {
        assert h'.log[i] == e;
      }
    }
  }

  // A queued packet that is not received has not been got.
  lemma QueuedNotGot(h: RxHalf, i: nat)
    requires HalfOk(h) && i < |h.s.fifo| && !h.s.fifo[i].isReceived
    ensures !Got(h, h.s.fifo[i].id)
  {
  }

  /**
   Front-rule safety, the step: a packet dropped because its id is below frontPacketId had
   already been reported 't' by the sender.
   */
  lemma DropIsSafe(h: RxHalf, tlog: seq<Tx.TxEvent>, stream: byte)
    requires HalfOk(h) && RxSound(h, tlog, stream) && h.s.fifo != []
    requires PopEvent(h.s).Dropped?
    ensures SenderTimedOut(tlog, h.s.fifo[0].id)
  {
    QueuedNotGot(h, 0);
    assert Settled(h, tlog, h.s.fifo[0].id);
  }

  lemma PopOnceSound(h: RxHalf, tlog: seq<Tx.TxEvent>, stream: byte)
    requires HalfOk(h) && RxSound(h, tlog, stream) && h.s.fifo != []
    ensures RxSound(PopOnce(h), tlog, stream) && Keeps(h, PopOnce(h))
  {
    if PopEvent(h.s).Dropped? {
      DropIsSafe(h, tlog, stream);
    }
    LeaveSound(h, PopEvent(h.s), tlog, stream);
  }

  lemma {:induction false} ProcessSound(h: RxHalf, now: int, tlog: seq<Tx.TxEvent>, stream: byte)
    requires HalfOk(h) && !h.s.isNew && RxSound(h, tlog, stream)
    ensures RxSound(Process(h, now), tlog, stream) && Keeps(h, Process(h, now))
    decreases |h.s.fifo|
  {
    if PopReady(h.s, now) {
      PopOnceOk(h);
      PopOnceSound(h, tlog, stream);
      ProcessSound(PopOnce(h), now, tlog, stream);
    }
  }

  lemma FinishSound(h: RxHalf, c: Chunk, ack: bool, process: bool, now: int, tlog: seq<Tx.TxEvent>)
    requires HalfOk(h) && !h.s.isNew && RxSound(h, tlog, c.stream)
    requires ack ==> Settled(h, tlog, c.id)
    ensures RxSound(Finish(h, c, ack, process, now), tlog, c.stream)
    ensures Keeps(h, Finish(h, c, ack, process, now))
  {
    if ack {
      PushAckSound(h, c.stream, c.id, tlog);
    }
    var a := if ack then PushAck(h, c.stream, c.id) else h;
    if process {
      ProcessSound(a, now, tlog, c.stream);
    }
  }

  lemma StoreSmallSound(h: RxHalf, i: nat, id: nat, data: seq<byte>, timeout: int, tlog: seq<Tx.TxEvent>, stream: byte)
    requires HalfOk(h) && RxSound(h, tlog, stream) && i < |h.s.fifo| && h.s.fifo[i].id == id
    ensures var r := StoreSmall(h, i, id, data, timeout);
      RxSound(r, tlog, stream) && Keeps(h, r) && Got(r, id)
  {
    var p := h.s.fifo[i].(timeout := timeout);
    if p.isReceived {
      SetPacketSound(h, i, p, tlog, stream);
    } else if h.s.fifo[0].id == id {
      assert i == 0;
      LeaveSound(h, Delivered(id, |data|, Some(data)), tlog, stream);
      LeaveKeeps(h, Delivered(id, |data|, Some(data)));
    } else {
      SetPacketSound(h, i, p.(isReceived := true, size := |data|, copy := data), tlog, stream);
    }
  }

  lemma PieceLogSound(h: RxHalf, e: RxEvent, tlog: seq<Tx.TxEvent>, stream: byte)
    requires RxSound(h, tlog, stream) && e.PieceOf?
    ensures var r := h.(log := h.log + [e]); RxSound(r, tlog, stream) && Keeps(h, r)
  {
    var r := h.(log := h.log + [e]);
    forall id | Got(h, id)
      ensures Got(r, id)
    {
      if Logged(h.log, id) {
        var i :| 0 <= i < |h.log| && (h.log[i].Delivered? || h.log[i].TimedOut?) && h.log[i].id == id;
        assert r.log[i] == h.log[i];
      }
    }
    forall id | 0 <= id < r.s.front
      ensures Settled(r, tlog, id)
    {
      assert Settled(h, tlog, id);
    }
    forall i | 0 <= i < |r.acks| && r.acks[i].0 == stream
      ensures Settled(r, tlog, r.acks[i].1)
    {
      assert Settled(h, tlog, h.acks[i].1);
    }
  }

  lemma StorePieceSound(h: RxHalf, i: nat, c: Chunk, env: RxEnv, tlog: seq<Tx.TxEvent>)
    requires RxSound(h, tlog, c.stream) && i < |h.s.fifo| && c.Piece? && h.s.fifo[i].id == c.id
    ensures var r := StorePiece(h, i, c, env);
      && RxSound(r, tlog, c.stream) && Keeps(h, r)
      && (PieceCompletes(h.s.fifo[i], h.s.front, c) ==> Got(r, c.id))
  {
    var p := Stamped(h.s.fifo[i], env);
    var q := PiecePacket(p, h.s.front, c);
    var t := SetPacket(h, i, q);
    SetPacketSound(h, i, q, tlog, c.stream);
    PieceLogSound(t, PieceOf(c.id, c.offset, c.data), tlog, c.stream);
  }

  lemma PlaceSmallSound(h: RxHalf, i: nat, c: Chunk, env: RxEnv, tlog: seq<Tx.TxEvent>)
    requires HalfOk(h) && !h.s.isNew && c.Small? && i < |h.s.fifo| && h.s.fifo[i].id == c.id
    requires RxSound(h, tlog, c.stream)
    ensures RxSound(PlaceAt(h, i, c, env), tlog, c.stream) && Keeps(h, PlaceAt(h, i, c, env))
  {
    hide StoreSmall, Process, RxSound, HalfOk, Got;
    var r := StoreSmall(h, i, c.id, c.data, env.now + env.grace);
    StoreSmallOk(h, i, c.id, c.data, env.now + env.grace);
    StoreSmallSound(h, i, c.id, c.data, env.now + env.grace, tlog, c.stream);
    FinishSound(r, c, c.reliable, true, env.now, tlog);
  }

  lemma PlaceBeginSound(h: RxHalf, i: nat, c: Chunk, env: RxEnv, tlog: seq<Tx.TxEvent>)
    requires HalfOk(h) && !h.s.isNew && c.Begin? && i < |h.s.fifo| && h.s.fifo[i].id == c.id
    requires RxSound(h, tlog, c.stream)
    ensures RxSound(PlaceAt(h, i, c, env), tlog, c.stream) && Keeps(h, PlaceAt(h, i, c, env))
  {
    var p := BeginPacket(h.s.fifo[i], c, env);
    SetPacketOk(h, i, p);
    SetPacketSound(h, i, p, tlog, c.stream);
    FinishSound(SetPacket(h, i, p), c, false, true, env.now, tlog);
  }

  lemma PlacePieceSound(h: RxHalf, i: nat, c: Chunk, env: RxEnv, tlog: seq<Tx.TxEvent>)
    requires HalfOk(h) && !h.s.isNew && c.Piece? && i < |h.s.fifo| && h.s.fifo[i].id == c.id
    requires RxSound(h, tlog, c.stream)
    ensures RxSound(PlaceAt(h, i, c, env), tlog, c.stream) && Keeps(h, PlaceAt(h, i, c, env))
  {
    StorePieceOk(h, i, c, env);
    StorePieceSound(h, i, c, env, tlog);
    var done := PieceCompletes(h.s.fifo[i], h.s.front, c);
    FinishSound(StorePiece(h, i, c, env), c, done && h.s.fifo[i].isReliable, done, env.now, tlog);
  }

  lemma PlaceAtSound(h: RxHalf, i: nat, c: Chunk, env: RxEnv, tlog: seq<Tx.TxEvent>)
    requires HalfOk(h) && !h.s.isNew && c.IsData() && i < |h.s.fifo| && h.s.fifo[i].id == c.id
    requires RxSound(h, tlog, c.stream)
    ensures RxSound(PlaceAt(h, i, c, env), tlog, c.stream) && Keeps(h, PlaceAt(h, i, c, env))
  {
    if c.Small? {
      PlaceSmallSound(h, i, c, env, tlog);
    } else if c.Begin? {
      PlaceBeginSound(h, i, c, env, tlog);
    } else {
      PlacePieceSound(h, i, c, env, tlog);
    }
  }

  lemma AcceptSound(h: RxHalf, c: Chunk, env: RxEnv, tlog: seq<Tx.TxEvent>)
    requires HalfOk(h) && !h.s.isNew && c.IsData() && c.id < QUARTER
    requires RxSound(h, tlog, c.stream)
    ensures RxSound(Accept(h, c, env), tlog, c.stream) && Keeps(h, Accept(h, c, env))
  {
    ReceivedBeforeOk(h.s, c.id);
    if !IsFull(h.s) && !IsReceivedBefore(h.s, c.id) {
      LookupOk(h, env.now, c.id);
      LookupSound(h, env.now, c.id, tlog, c.stream);
      var g := Lookup(h, env.now, c.id);
      PlaceAtSound(g, IndexOf(g.s.fifo, c.id), c, env, tlog);
    } else if !IsFull(h.s) {
      FinishSound(h, c, c.reliable && c.CarriesPayload(), false, env.now, tlog);
    }
  }

  lemma ReadDataSound(h: RxHalf, c: Chunk, env: RxEnv, tlog: seq<Tx.TxEvent>)
    requires HalfOk(h) && c.IsData() && c.id < QUARTER
    requires RxSound(h, tlog, c.stream)
    requires c.front ==> forall q :: 0 <= q < c.id ==> Settled(h, tlog, q)
    ensures RxSound(ReadData(h, c, env), tlog, c.stream) && Keeps(h, ReadData(h, c, env))
  {
    OpenOk(h, env.now);
    OpenSound(h, env.now, tlog, c.stream);
    var o := Open(h, env.now);
    assert c.front ==> forall q :: 0 <= q < c.id ==> Settled(o, tlog, q) by {
      forall q | c.front && 0 <= q < c.id
        ensures Settled(o, tlog, q)
      {
        assert Settled(h, tlog, q);
      }
    }
    AdvanceOk(o, c.front, c.id);
    AdvanceSound(o, c.front, c.id, tlog, c.stream);
    AcceptSound(Advance(o, c.front, c.id), c, env, tlog);
  }
}
