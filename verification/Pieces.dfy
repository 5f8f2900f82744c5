/**
 Piece events. For a packet too large to be buffered the application receives 'p' events:
 true slices of the payload that never overlap, and together exactly the bytes up to the
 offset that no piece jumped over.
 */
module Pieces {
  import opened Common
  import opened Chunks
  import opened RxModel
  import opened RxOrder
  import opened Protocol
  import opened Payload

  predicate IsPieceOf(e: RxEvent, id: nat) {
    e.PieceOf? && e.id == id
  }

  /** The bytes the piece events of one packet handed over, in callback order. */
  function PieceBytes(log: seq<RxEvent>, id: nat): seq<byte> {
    if log == [] then []
    else
      PieceBytes(log[..|log| - 1], id)
      + (if IsPieceOf(log[|log| - 1], id) then log[|log| - 1].bytes else [])
  }

  ghost predicate SliceTrue(e: RxEvent, enq: seq<seq<byte>>) {
    e.PieceOf? ==>
      && e.id < |enq|
      && e.offset + |e.bytes| <= |enq[e.id]|
      && e.bytes == enq[e.id][e.offset..e.offset + |e.bytes|]
  }

  /** The first n bytes of the payload of one packet, without those jumped over. */
  function Reached(payload: seq<byte>, id: nat, n: nat, gaps: Gaps): seq<byte>
    requires n <= |payload|
  {
    if n == 0 then []
    else Reached(payload, id, n - 1, gaps) + (if (id, n - 1) in gaps then [] else [payload[n - 1]])
  }

  // A packet that is not buffered handed over what was reached; a buffered one nothing, until it is whole.
  ghost predicate Covered(p: RxPacket, log: seq<RxEvent>, enq: seq<seq<byte>>, gaps: Gaps) {
    && p.id < |enq| && p.offset <= |enq[p.id]|
    && (p.copy == [] ==>
      && (forall i :: 0 <= i < |log| && IsPieceOf(log[i], p.id) ==> log[i].offset + |log[i].bytes| <= p.offset)
      && PieceBytes(log, p.id) == Reached(enq[p.id], p.id, p.offset, gaps))
    && (p.copy != [] && !p.isReceived ==> PieceBytes(log, p.id) == [])
  }

  ghost predicate Disjoint(log: seq<RxEvent>) {
    forall i, j :: 0 <= i < j < |log| && log[i].PieceOf? && IsPieceOf(log[j], log[i].id) ==>
      log[i].offset + |log[i].bytes| <= log[j].offset
  }

  ghost predicate QueueCovered(h: RxHalf, enq: seq<seq<byte>>, gaps: Gaps) {
    forall i :: 0 <= i < |h.s.fifo| ==> Covered(h.s.fifo[i], h.log, enq, gaps)
  }

  // The packet was delivered with its data in one piece.
  ghost predicate Whole(log: seq<RxEvent>, id: nat) {
    exists i :: 0 <= i < |log| && log[i].Delivered? && log[i].data.Some? && log[i].id == id
  }

  // The pieces of a packet are what was reached of it at some offset.
  ghost predicate Told(log: seq<RxEvent>, payload: seq<byte>, id: nat, gaps: Gaps) {
    exists n: nat :: n <= |payload| && PieceBytes(log, id) == Reached(payload, id, n, gaps)
  }

  // The packets that have left the queue.
  ghost predicate Left(log: seq<RxEvent>, base: nat, enq: seq<seq<byte>>, gaps: Gaps) {
    forall id :: 0 <= id < base && id < |enq| ==> Whole(log, id) || Told(log, enq[id], id, gaps)
  }

  ghost predicate Completed(log: seq<RxEvent>, enq: seq<seq<byte>>, gaps: Gaps) {
    forall i :: 0 <= i < |log| && log[i].Delivered? && log[i].data.None? ==>
      log[i].id < |enq| && PieceBytes(log, log[i].id) == Reached(enq[log[i].id], log[i].id, |enq[log[i].id]|, gaps)
  }

  ghost predicate Slices(log: seq<RxEvent>, enq: seq<seq<byte>>) {
    forall i :: 0 <= i < |log| ==> SliceTrue(log[i], enq)
  }

  ghost predicate PiecesBelow(h: RxHalf) {
    forall i :: 0 <= i < |h.log| && h.log[i].PieceOf? ==> h.log[i].id < End(h.s) && h.log[i].id <= h.s.front
  }

  ghost predicate Tiled(h: RxHalf, enq: seq<seq<byte>>, gaps: Gaps) {
    && Slices(h.log, enq)
    && PiecesBelow(h)
    && Disjoint(h.log)
    && QueueCovered(h, enq, gaps)
    && Left(h.log, Base(h.s), enq, gaps)
    && Completed(h.log, enq, gaps)
  }

  // ------------------------------------------------------------ what is reached

  lemma {:induction false} ReachedAgree(payload: seq<byte>, id: nat, n: nat, gaps: Gaps, gaps': Gaps)
    requires n <= |payload| && forall k :: 0 <= k < n ==> ((id, k) in gaps <==> (id, k) in gaps')
    ensures Reached(payload, id, n, gaps) == Reached(payload, id, n, gaps')
  {
    if n > 0 {
      ReachedAgree(payload, id, n - 1, gaps, gaps');
    }
  }

  lemma {:induction false} ReachedSkips(payload: seq<byte>, id: nat, m: nat, n: nat, gaps: Gaps)
    requires m <= n <= |payload| && forall k :: m <= k < n ==> (id, k) in gaps
    ensures Reached(payload, id, n, gaps) == Reached(payload, id, m, gaps)
  {
    if m < n {
      ReachedSkips(payload, id, m, n - 1, gaps);
    }
  }

  lemma {:induction false} ReachedGrows(payload: seq<byte>, id: nat, m: nat, n: nat, gaps: Gaps)
    requires m <= n <= |payload| && forall k :: m <= k < n ==> (id, k) !in gaps
    ensures Reached(payload, id, n, gaps) == Reached(payload, id, m, gaps) + payload[m..n]
  {
    if m < n {
      ReachedGrows(payload, id, m, n - 1, gaps);
      assert payload[m..n] == payload[m..n - 1] + [payload[n - 1]];
    }
  }

  /** What is reached is the prefix itself exactly when nothing in it was jumped over. */
  lemma {:induction false} ReachedIsPrefix(payload: seq<byte>, id: nat, n: nat, gaps: Gaps)
    requires n <= |payload|
    ensures |Reached(payload, id, n, gaps)| <= n
    ensures Reached(payload, id, n, gaps) == payload[..n] <==> forall k :: 0 <= k < n ==> (id, k) !in gaps
  {
    if n > 0 {
      ReachedIsPrefix(payload, id, n - 1, gaps);
      assert payload[..n] == payload[..n - 1] + [payload[n - 1]];
    }
  }

  // -------------------------------------------------------------- small facts

  lemma {:induction false} NoPieces(log: seq<RxEvent>, id: nat)
    requires forall i :: 0 <= i < |log| ==> !IsPieceOf(log[i], id)
    ensures PieceBytes(log, id) == []
  {
    if log != [] {
      NoPieces(log[..|log| - 1], id);
    }
  }

  lemma PieceBytesAppend(log: seq<RxEvent>, e: RxEvent, id: nat)
    ensures PieceBytes(log + [e], id) == PieceBytes(log, id) + (if IsPieceOf(e, id) then e.bytes else [])
  {
  }

  // An id from the end of the queue on has no piece yet.
  lemma NothingTold(h: RxHalf, enq: seq<seq<byte>>, gaps: Gaps, id: nat)
    requires PiecesBelow(h) && End(h.s) <= id < |enq|
    ensures PieceBytes(h.log, id) == [] && Told(h.log, enq[id], id, gaps)
  {
    NoPieces(h.log, id);
    assert Reached(enq[id], id, 0, gaps) == [];
  }

  lemma LeftGrows(h: RxHalf, base: nat, enq: seq<seq<byte>>, gaps: Gaps)
    requires PiecesBelow(h) && Left(h.log, Base(h.s), enq, gaps) && h.s.fifo == []
    ensures Left(h.log, base, enq, gaps)
  {
    forall id | 0 <= id < base && id < |enq|
      ensures Whole(h.log, id) || Told(h.log, enq[id], id, gaps)
    {
      if id >= Base(h.s) {
        NothingTold(h, enq, gaps, id);
      }
    }
  }

  // ------------------------------------------------------- receiver, op by op

  // Another queue with the same log.
  lemma QueueTiled(h: RxHalf, r: RxState, enq: seq<seq<byte>>, gaps: Gaps)
    requires Tiled(h, enq, gaps) && QueueCovered(h.(s := r), enq, gaps)
    requires Base(r) == Base(h.s) || h.s.fifo == []
    requires End(h.s) <= End(r) && h.s.front <= r.front
    ensures Tiled(h.(s := r), enq, gaps)
  {
    hide Left, Completed, QueueCovered, Slices, Disjoint;
    if Base(r) != Base(h.s) {
      LeftGrows(h, Base(r), enq, gaps);
    }
  }

  lemma ExtendsCovered(h: RxHalf, r: RxState, now: int, length: nat, enq: seq<seq<byte>>, gaps: Gaps)
    requires PiecesBelow(h) && QueueCovered(h, enq, gaps)
    requires Extends(h.s, r, now, length) && Base(r) == Base(h.s) && End(r) <= |enq|
    ensures QueueCovered(h.(s := r), enq, gaps)
  {
    forall i | 0 <= i < |r.fifo|
      ensures Covered(r.fifo[i], h.log, enq, gaps)
    {
      if i < |h.s.fifo| {
        assert r.fifo[i] == h.s.fifo[i];
      } else {
        assert r.fifo[i] == Blank(Base(h.s) + i, now, h.s.isReliable);
        NoPieces(h.log, r.fifo[i].id);
      }
    }
  }

  lemma ExtendsTiled(h: RxHalf, r: RxState, now: int, length: nat, enq: seq<seq<byte>>, gaps: Gaps)
    requires Tiled(h, enq, gaps)
    requires Extends(h.s, r, now, length) && Base(r) == Base(h.s) && End(r) <= |enq|
    ensures Tiled(h.(s := r), enq, gaps)
  {
    hide Left, Completed, QueueCovered, Slices, Disjoint, PiecesBelow;
    ExtendsCovered(h, r, now, length, enq, gaps);
    QueueTiled(h, r, enq, gaps);
  }

  lemma OpenTiled(h: RxHalf, now: int, enq: seq<seq<byte>>, gaps: Gaps)
    requires HalfOk(h) && Tiled(h, enq, gaps) && enq != []
    ensures Tiled(Open(h, now), enq, gaps)
  {
    OpenOk(h, now);
    hide Left, Completed, QueueCovered, Slices, Disjoint, PiecesBelow, Open;
    if h.s.isNew {
      var o := h.(s := h.s.(isNew := false));
      QueueTiled(h, o.s, enq, gaps);
      ExtendsTiled(o, Open(h, now).s, now, 1, enq, gaps);
    }
  }

  lemma AdvanceTiled(h: RxHalf, isFront: bool, id: nat, enq: seq<seq<byte>>, gaps: Gaps)
    requires HalfOk(h) && !h.s.isNew && Tiled(h, enq, gaps) && id < QUARTER
    ensures Tiled(Advance(h, isFront, id), enq, gaps)
  {
    RaiseFrontOk(h.s, isFront, id);
    QueueTiled(h, RaiseFront(h.s, isFront, id), enq, gaps);
  }

  lemma LookupTiled(h: RxHalf, now: int, id: nat, enq: seq<seq<byte>>, gaps: Gaps)
    requires HalfOk(h) && !h.s.isNew && h.s.front <= id < QUARTER && Tiled(h, enq, gaps)
    requires id < |enq| && End(h.s) <= |enq|
    ensures Tiled(Lookup(h, now, id), enq, gaps)
  {
    GetFinds(h.s, now, id);
    ExtendsTiled(h, GetState(h.s, now, id), now, Max(|h.s.fifo|, id + 1 - Base(h.s)), enq, gaps);
  }

  // The packets other than one do not notice that its bytes were jumped over or repaired.
  lemma CoveredOff(p: RxPacket, log: seq<RxEvent>, enq: seq<seq<byte>>, gaps: Gaps, gaps': Gaps, id: nat)
    requires Covered(p, log, enq, gaps) && AgreeOff(gaps, gaps', id) && p.id != id
    ensures Covered(p, log, enq, gaps')
  {
    ReachedAgree(enq[p.id], p.id, p.offset, gaps, gaps');
  }

  lemma LeftOff(log: seq<RxEvent>, base: nat, enq: seq<seq<byte>>, gaps: Gaps, gaps': Gaps, id: nat)
    requires Left(log, base, enq, gaps) && AgreeOff(gaps, gaps', id) && base <= id
    ensures Left(log, base, enq, gaps')
  {
    forall q | 0 <= q < base && q < |enq|
      ensures Whole(log, q) || Told(log, enq[q], q, gaps')
    {
      if !Whole(log, q) {
        var n: nat :| n <= |enq[q]| && PieceBytes(log, q) == Reached(enq[q], q, n, gaps);
        ReachedAgree(enq[q], q, n, gaps, gaps');
      }
    }
  }

  lemma CompletedOff(log: seq<RxEvent>, base: nat, enq: seq<seq<byte>>, gaps: Gaps, gaps': Gaps, id: nat)
    requires Completed(log, enq, gaps) && LogOk(log, base) && AgreeOff(gaps, gaps', id) && base <= id
    ensures Completed(log, enq, gaps')
  {
    forall i | 0 <= i < |log| && log[i].Delivered? && log[i].data.None?
      ensures log[i].id < |enq|
      ensures PieceBytes(log, log[i].id) == Reached(enq[log[i].id], log[i].id, |enq[log[i].id]|, gaps')
    {
      ReachedAgree(enq[log[i].id], log[i].id, |enq[log[i].id]|, gaps, gaps');
    }
  }

  // The invariant under another history of one packet that is still queued.
  lemma TiledOff(h: RxHalf, enq: seq<seq<byte>>, gaps: Gaps, gaps': Gaps, i: nat)
    requires HalfOk(h) && Tiled(h, enq, gaps) && i < |h.s.fifo| && AgreeOff(gaps, gaps', h.s.fifo[i].id)
    ensures forall j :: 0 <= j < |h.s.fifo| && j != i ==> Covered(h.s.fifo[j], h.log, enq, gaps')
    ensures Left(h.log, Base(h.s), enq, gaps') && Completed(h.log, enq, gaps')
  {
    var id := h.s.fifo[i].id;
    hide Left, Completed, Covered;
    LeftOff(h.log, Base(h.s), enq, gaps, gaps', id);
    CompletedOff(h.log, Base(h.s), enq, gaps, gaps', id);
    forall j | 0 <= j < |h.s.fifo| && j != i
      ensures Covered(h.s.fifo[j], h.log, enq, gaps')
    {
      CoveredOff(h.s.fifo[j], h.log, enq, gaps, gaps', id);
    }
  }

  lemma SetPacketTiled(h: RxHalf, i: nat, p: RxPacket, enq: seq<seq<byte>>, gaps: Gaps, gaps': Gaps)
    requires HalfOk(h) && Tiled(h, enq, gaps) && i < |h.s.fifo| && p.id == h.s.fifo[i].id
    requires AgreeOff(gaps, gaps', p.id) && Covered(p, h.log, enq, gaps')
    ensures Tiled(SetPacket(h, i, p), enq, gaps')
  {
    TiledOff(h, enq, gaps, gaps', i);
    hide Left, Completed, Covered;
  }

  // A terminal event hands over no piece.
  lemma LeaveTiled(h: RxHalf, e: RxEvent, enq: seq<seq<byte>>, gaps: Gaps, gaps': Gaps)
    requires HalfOk(h) && Tiled(h, enq, gaps) && h.s.fifo != [] && e.Terminal() && e.id == h.s.fifo[0].id
    requires AgreeOff(gaps, gaps', e.id) && e.id < |enq|
    requires (e.Delivered? && e.data.Some?) || Told(h.log, enq[e.id], e.id, gaps')
    requires e.Delivered? && e.data.None? ==>
      PieceBytes(h.log, e.id) == Reached(enq[e.id], e.id, |enq[e.id]|, gaps')
    ensures Tiled(h.(s := PopFront(h.s), log := h.log + [e]), enq, gaps')
  {
    hide Left, Completed, Covered, Slices, Disjoint, PiecesBelow, PieceBytes, Told;
    TiledOff(h, enq, gaps, gaps', 0);
    forall id
      ensures PieceBytes(h.log + [e], id) == PieceBytes(h.log, id)
    {
      PieceBytesAppend(h.log, e, id);
    }
    LeaveLeft(h, e, enq, gaps');
    LeaveCovered(h, e, enq, gaps');
    LeaveLog(h, e, enq, gaps');
  }

  lemma LeaveLog(h: RxHalf, e: RxEvent, enq: seq<seq<byte>>, gaps: Gaps)
    requires HalfOk(h) && h.s.fifo != [] && e.Terminal() && e.id < |enq|
    requires Slices(h.log, enq) && PiecesBelow(h) && Disjoint(h.log) && Completed(h.log, enq, gaps)
    requires forall id :: PieceBytes(h.log + [e], id) == PieceBytes(h.log, id)
    requires e.Delivered? && e.data.None? ==>
      PieceBytes(h.log, e.id) == Reached(enq[e.id], e.id, |enq[e.id]|, gaps)
    ensures var r := h.(s := PopFront(h.s), log := h.log + [e]);
      Slices(r.log, enq) && PiecesBelow(r) && Disjoint(r.log) && Completed(r.log, enq, gaps)
  {
    PopFrontOk(h.s);
    hide Reached, PieceBytes;
  }

  lemma LeaveCovered(h: RxHalf, e: RxEvent, enq: seq<seq<byte>>, gaps: Gaps)
    requires HalfOk(h) && h.s.fifo != [] && e.Terminal()
    requires forall j :: 0 < j < |h.s.fifo| ==> Covered(h.s.fifo[j], h.log, enq, gaps)
    requires forall id :: PieceBytes(h.log + [e], id) == PieceBytes(h.log, id)
    ensures QueueCovered(h.(s := PopFront(h.s), log := h.log + [e]), enq, gaps)
  {
    PopFrontOk(h.s);
    var r := h.(s := PopFront(h.s), log := h.log + [e]);
    forall j | 0 <= j < |r.s.fifo|
      ensures Covered(r.s.fifo[j], r.log, enq, gaps)
    {
      assert r.s.fifo[j] == h.s.fifo[j + 1];
    }
  }

  lemma LeaveLeft(h: RxHalf, e: RxEvent, enq: seq<seq<byte>>, gaps: Gaps)
    requires HalfOk(h) && PiecesBelow(h) && Left(h.log, Base(h.s), enq, gaps)
    requires h.s.fifo != [] && e.Terminal() && e.id == h.s.fifo[0].id < |enq|
    requires (e.Delivered? && e.data.Some?) || Told(h.log, enq[e.id], e.id, gaps)
    requires forall id :: PieceBytes(h.log + [e], id) == PieceBytes(h.log, id)
    ensures Left(h.log + [e], Base(PopFront(h.s)), enq, gaps)
  {
    PopFrontOk(h.s);
    var log := h.log + [e];
    assert log[|h.log|] == e;
    forall id | 0 <= id < Base(PopFront(h.s)) && id < |enq|
      ensures Whole(log, id) || Told(log, enq[id], id, gaps)
    {
      if id < Base(h.s) && Whole(h.log, id) {
        var i :| 0 <= i < |h.log| && h.log[i].Delivered? && h.log[i].data.Some? && h.log[i].id == id;
        assert log[i] == h.log[i];
      } else {
        if id > e.id {
          NothingTold(h, enq, gaps, id);
        }
        if !Whole(log, id) {
          var n: nat :| n <= |enq[id]| && PieceBytes(h.log, id) == Reached(enq[id], id, n, gaps);
        }
      }
    }
  }

  // A packet that leaves the queue told what it reached, unless its buffer is delivered.
  lemma QueuedTold(p: RxPacket, log: seq<RxEvent>, enq: seq<seq<byte>>, gaps: Gaps)
    requires Covered(p, log, enq, gaps)
    ensures Told(log, enq[p.id], p.id, gaps) || (p.copy != [] && p.isReceived)
  {
    if p.copy != [] && !p.isReceived {
      assert Reached(enq[p.id], p.id, 0, gaps) == [];
    }
  }

  lemma PopOnceTiled(h: RxHalf, enq: seq<seq<byte>>, gaps: Gaps)
    requires HalfOk(h) && Truthful(h, enq, gaps) && Tiled(h, enq, gaps) && h.s.fifo != []
    ensures Tiled(PopOnce(h), enq, gaps)
  {
    var p := h.s.fifo[0];
    assert PacketTrue(p, enq[p.id], gaps);
    assert Covered(p, h.log, enq, gaps);
    QueuedTold(p, h.log, enq, gaps);
    hide Tiled, HalfOk, Truthful;
    LeaveTiled(h, PopEvent(h.s), enq, gaps, gaps);
  }

  lemma {:induction false} ProcessTiled(h: RxHalf, now: int, enq: seq<seq<byte>>, gaps: Gaps)
    requires HalfOk(h) && !h.s.isNew && Truthful(h, enq, gaps) && Tiled(h, enq, gaps)
    ensures Tiled(Process(h, now), enq, gaps)
    decreases |h.s.fifo|
  {
    if PopReady(h.s, now) {
      PopOnceOk(h);
      PopEventTrue(h.s, enq, gaps);
      LeaveTrue(h, PopEvent(h.s), enq, gaps, gaps);
      PopOnceTiled(h, enq, gaps);
      ProcessTiled(PopOnce(h), now, enq, gaps);
    }
  }

  lemma FinishTiled(h: RxHalf, c: Chunk, ack: bool, process: bool, now: int, enq: seq<seq<byte>>, gaps: Gaps)
    requires HalfOk(h) && !h.s.isNew && Truthful(h, enq, gaps) && Tiled(h, enq, gaps)
    ensures Tiled(Finish(h, c, ack, process, now), enq, gaps)
  {
    var a := if ack then PushAck(h, c.stream, c.id) else h;
    assert a.s == h.s && a.log == h.log;
    assert Tiled(a, enq, gaps) && Truthful(a, enq, gaps);
    if process {
      ProcessTiled(a, now, enq, gaps);
    }
  }

  lemma StoreSmallTiled(h: RxHalf, i: nat, c: Chunk, timeout: int, enq: seq<seq<byte>>, gaps: Gaps)
    requires HalfOk(h) && Truthful(h, enq, gaps) && Tiled(h, enq, gaps) && i < |h.s.fifo|
    requires c.Small? && h.s.fifo[i].id == c.id && ChunkTrue(c, enq)
    ensures Tiled(StoreSmall(h, i, c.id, c.data, timeout), enq, GapsAt(gaps, h.s.fifo[i], h.s.front, c))
  {
    var gaps' := GapsAt(gaps, h.s.fifo[i], h.s.front, c);
    var p := h.s.fifo[i].(timeout := timeout);
    assert PacketTrue(h.s.fifo[i], enq[c.id], gaps);
    assert Covered(h.s.fifo[i], h.log, enq, gaps);
    assert c.data != [];
    hide Tiled, HalfOk, Truthful;
    if p.isReceived {
      SetPacketTiled(h, i, p, enq, gaps, gaps');
    } else if h.s.fifo[0].id == c.id {
      LeaveTiled(h, Delivered(c.id, |c.data|, Some(c.data)), enq, gaps, gaps');
    } else {
      SetPacketTiled(h, i, p.(isReceived := true, size := |c.data|, copy := c.data), enq, gaps, gaps');
    }
  }

  // The packet at i is next in order and not buffered; p is the packet after the piece.
  ghost predicate Passing(h: RxHalf, i: nat, p: RxPacket, c: Chunk, enq: seq<seq<byte>>, gaps: Gaps) {
    && i < |h.s.fifo| && c.Piece? && ChunkTrue(c, enq)
    && h.s.fifo[i].id == p.id == c.id == h.s.front
    && h.s.fifo[i].copy == [] && h.s.fifo[i].offset == c.offset
    && p.copy == [] && p.offset == c.offset + |c.data|
    && forall k :: (c.id, k) in gaps ==> k < c.offset
  }

  lemma PassCovered(h: RxHalf, i: nat, p: RxPacket, c: Chunk, enq: seq<seq<byte>>, gaps: Gaps)
    requires HalfOk(h) && QueueCovered(h, enq, gaps) && Passing(h, i, p, c, enq, gaps)
    ensures var t := SetPacket(h, i, p);
      QueueCovered(t.(log := t.log + [PieceOf(c.id, c.offset, c.data)]), enq, gaps)
  {
    var e := PieceOf(c.id, c.offset, c.data);
    var r := SetPacket(h, i, p);
    forall j | 0 <= j < |r.s.fifo|
      ensures Covered(r.s.fifo[j], h.log + [e], enq, gaps)
    {
      PieceBytesAppend(h.log, e, r.s.fifo[j].id);
      assert Covered(h.s.fifo[j], h.log, enq, gaps);
      if j == i {
        ReachedGrows(enq[c.id], c.id, c.offset, p.offset, gaps);
      } else {
        assert r.s.fifo[j].id != c.id;
      }
    }
  }

  // The packets that have left the queue get no more pieces.
  lemma PassLeft(h: RxHalf, e: RxEvent, enq: seq<seq<byte>>, gaps: Gaps)
    requires Left(h.log, Base(h.s), enq, gaps) && e.PieceOf? && e.id >= Base(h.s)
    ensures Left(h.log + [e], Base(h.s), enq, gaps)
  {
    var log := h.log + [e];
    forall id | 0 <= id < Base(h.s) && id < |enq|
      ensures Whole(log, id) || Told(log, enq[id], id, gaps)
    {
      PieceBytesAppend(h.log, e, id);
      if Whole(h.log, id) {
        var i :| 0 <= i < |h.log| && h.log[i].Delivered? && h.log[i].data.Some? && h.log[i].id == id;
        assert log[i] == h.log[i];
      } else {
        var n: nat :| n <= |enq[id]| && PieceBytes(h.log, id) == Reached(enq[id], id, n, gaps);
        assert PieceBytes(log, id) == Reached(enq[id], id, n, gaps);
      }
    }
  }

  lemma PassCompleted(h: RxHalf, e: RxEvent, enq: seq<seq<byte>>, gaps: Gaps)
    requires HalfOk(h) && Completed(h.log, enq, gaps) && e.PieceOf? && e.id >= Base(h.s)
    ensures Completed(h.log + [e], enq, gaps)
  {
    var log := h.log + [e];
    forall i | 0 <= i < |log| && log[i].Delivered? && log[i].data.None?
      ensures log[i].id < |enq|
      ensures PieceBytes(log, log[i].id) == Reached(enq[log[i].id], log[i].id, |enq[log[i].id]|, gaps)
    {
      PieceBytesAppend(h.log, e, log[i].id);
    }
  }

  lemma PassDisjoint(h: RxHalf, i: nat, c: Chunk, enq: seq<seq<byte>>, gaps: Gaps)
    requires QueueCovered(h, enq, gaps) && Disjoint(h.log) && i < |h.s.fifo| && c.Piece?
    requires h.s.fifo[i].id == c.id && h.s.fifo[i].copy == [] && h.s.fifo[i].offset == c.offset
    ensures Disjoint(h.log + [PieceOf(c.id, c.offset, c.data)])
  {
    assert Covered(h.s.fifo[i], h.log, enq, gaps);
    hide PieceBytes, Reached;
  }

  // The event and the offset move together.
  lemma PassTiled(h: RxHalf, i: nat, p: RxPacket, c: Chunk, enq: seq<seq<byte>>, gaps: Gaps)
    requires HalfOk(h) && Tiled(h, enq, gaps) && Passing(h, i, p, c, enq, gaps)
    ensures var t := SetPacket(h, i, p);
      Tiled(t.(log := t.log + [PieceOf(c.id, c.offset, c.data)]), enq, gaps)
  {
    hide QueueCovered, Left, Completed, PieceBytes, Disjoint;
    var e := PieceOf(c.id, c.offset, c.data);
    PassCovered(h, i, p, c, enq, gaps);
    PassLeft(h, e, enq, gaps);
    PassCompleted(h, e, enq, gaps);
    PassDisjoint(h, i, c, enq, gaps);
  }

  // The three verdicts that leave the packet unbuffered and pass nothing on.
  lemma PieceCovered(p: RxPacket, front: nat, c: Chunk, log: seq<RxEvent>, enq: seq<seq<byte>>, gaps: Gaps)
    requires c.Piece? && ChunkTrue(c, enq) && p.id == c.id && !Verdict(p, front, c).Pass?
    requires PacketTrue(p, enq[c.id], gaps) && Covered(p, log, enq, gaps)
    requires Verdict(p, front, c).OutOfOrder? ==> 
      PieceBytes(log, c.id) == [] && forall i :: 0 <= i < |log| ==> !IsPieceOf(log[i], c.id)
    ensures Covered(PiecePacket(p, front, c), log, enq, GapsAt(gaps, p, front, c))
  {
    var gaps' := GapsAt(gaps, p, front, c);
    hide BufferTrue;
    if Verdict(p, front, c).Gap? && p.copy == [] {
      ReachedSkips(enq[c.id], c.id, p.offset, c.offset, gaps');
      ReachedAgree(enq[c.id], c.id, p.offset, gaps, gaps');
    }
  }

  // What is known of the packet a piece reaches: a restart finds that nothing was passed on.
  lemma PieceFacts(h: RxHalf, i: nat, c: Chunk, env: RxEnv, enq: seq<seq<byte>>, gaps: Gaps)
    requires HalfOk(h) && Truthful(h, enq, gaps) && Tiled(h, enq, gaps) && i < |h.s.fifo|
    requires c.Piece? && h.s.fifo[i].id == c.id && ChunkTrue(c, enq) && h.s.front <= c.id
    ensures var p := Stamped(h.s.fifo[i], env);
      && PacketTrue(p, enq[c.id], gaps) && Covered(p, h.log, enq, gaps)
      && (Verdict(p, h.s.front, c).Pass? ==> Passing(h, i, PiecePacket(p, h.s.front, c), c, enq, gaps))
      && (Verdict(p, h.s.front, c).OutOfOrder? ==>
          PieceBytes(h.log, c.id) == [] && forall i :: 0 <= i < |h.log| ==> !IsPieceOf(h.log[i], c.id))
  {
    hide Left, Completed, Disjoint;
    var p := Stamped(h.s.fifo[i], env);
    PacketTrueStamp(h.s.fifo[i], env.now + env.grace, enq[c.id], gaps);
    assert Covered(h.s.fifo[i], h.log, enq, gaps);
    hide BufferTrue;
    if Verdict(p, h.s.front, c).OutOfOrder? {
      NoPieces(h.log, c.id);
    }
  }

  lemma StorePieceTiled(h: RxHalf, i: nat, c: Chunk, env: RxEnv, enq: seq<seq<byte>>, gaps: Gaps)
    requires HalfOk(h) && Truthful(h, enq, gaps) && Tiled(h, enq, gaps) && i < |h.s.fifo|
    requires c.Piece? && h.s.fifo[i].id == c.id && ChunkTrue(c, enq) && h.s.front <= c.id
    ensures Tiled(StorePiece(h, i, c, env), enq, GapsAt(gaps, h.s.fifo[i], h.s.front, c))
  {
    hide Tiled, HalfOk, Truthful, Covered, Passing, PacketTrue;
    var p := Stamped(h.s.fifo[i], env);
    var q := PiecePacket(p, h.s.front, c);
    PieceFacts(h, i, c, env, enq, gaps);
    if Verdict(p, h.s.front, c).Pass? {
      PassTiled(h, i, q, c, enq, gaps);
    } else {
      PiecePacketTrue(p, h.s.front, c, enq, gaps);
      PieceCovered(p, h.s.front, c, h.log, enq, gaps);
      SetPacketTiled(h, i, q, enq, gaps, GapsAt(gaps, p, h.s.front, c));
    }
  }

  lemma PlaceSmallTiled(h: RxHalf, i: nat, c: Chunk, env: RxEnv, enq: seq<seq<byte>>, gaps: Gaps)
    requires HalfOk(h) && !h.s.isNew && Truthful(h, enq, gaps) && Tiled(h, enq, gaps)
    requires i < |h.s.fifo| && h.s.fifo[i].id == c.id && ChunkTrue(c, enq) && c.Small?
    ensures Tiled(PlaceAt(h, i, c, env), enq, GapsAt(gaps, h.s.fifo[i], h.s.front, c))
  {
    hide StoreSmall, Process, Tiled, Truthful, HalfOk;
    var r := StoreSmall(h, i, c.id, c.data, env.now + env.grace);
    StoreSmallOk(h, i, c.id, c.data, env.now + env.grace);
    StoreSmallTrue(h, i, c, env.now + env.grace, enq, gaps);
    StoreSmallTiled(h, i, c, env.now + env.grace, enq, gaps);
    assert PlaceAt(h, i, c, env) == Finish(r, c, c.reliable, true, env.now);
    FinishTiled(r, c, c.reliable, true, env.now, enq, GapsAt(gaps, h.s.fifo[i], h.s.front, c));
  }

  lemma PlaceBeginTiled(h: RxHalf, i: nat, c: Chunk, env: RxEnv, enq: seq<seq<byte>>, gaps: Gaps)
    requires HalfOk(h) && !h.s.isNew && Truthful(h, enq, gaps) && Tiled(h, enq, gaps)
    requires i < |h.s.fifo| && h.s.fifo[i].id == c.id && ChunkTrue(c, enq) && c.Begin?
    ensures Tiled(PlaceAt(h, i, c, env), enq, gaps)
  {
    var p := BeginPacket(h.s.fifo[i], c, env);
    SetPacketOk(h, i, p);
    BeginPacketTrue(h.s.fifo[i], c, env, enq, gaps);
    SetPacketTrue(h, i, p, enq, gaps, gaps);
    assert Covered(p, h.log, enq, gaps) by {
      assert Covered(h.s.fifo[i], h.log, enq, gaps) && PacketTrue(h.s.fifo[i], enq[c.id], gaps);
    }
    hide Tiled, HalfOk, Truthful, Covered, Process;
    SetPacketTiled(h, i, p, enq, gaps, gaps);
    FinishTiled(SetPacket(h, i, p), c, false, true, env.now, enq, gaps);
  }

  lemma PlacePieceTiled(h: RxHalf, i: nat, c: Chunk, env: RxEnv, enq: seq<seq<byte>>, gaps: Gaps)
    requires HalfOk(h) && !h.s.isNew && Truthful(h, enq, gaps) && Tiled(h, enq, gaps)
    requires i < |h.s.fifo| && h.s.fifo[i].id == c.id && ChunkTrue(c, enq) && c.Piece? && h.s.front <= c.id
    ensures Tiled(PlaceAt(h, i, c, env), enq, GapsAt(gaps, h.s.fifo[i], h.s.front, c))
  {
    StorePieceOk(h, i, c, env);
    StorePieceTrue(h, i, c, env, enq, gaps);
    StorePieceTiled(h, i, c, env, enq, gaps);
    var done := PieceCompletes(h.s.fifo[i], h.s.front, c);
    FinishTiled(StorePiece(h, i, c, env), c, done && h.s.fifo[i].isReliable, done, env.now,
                enq, GapsAt(gaps, h.s.fifo[i], h.s.front, c));
  }

  lemma AcceptTiled(h: RxHalf, c: Chunk, env: RxEnv, enq: seq<seq<byte>>, gaps: Gaps)
    requires HalfOk(h) && !h.s.isNew && Truthful(h, enq, gaps) && Tiled(h, enq, gaps)
    requires ChunkTrue(c, enq) && c.id < QUARTER
    ensures Tiled(Accept(h, c, env), enq, GapsAccept(gaps, h, c, env))
  {
    hide Tiled, Process, PlaceAt, GetState;
    ReceivedBeforeOk(h.s, c.id);
    if !IsFull(h.s) && !IsReceivedBefore(h.s, c.id) {
      LookupOk(h, env.now, c.id);
      LookupTrue(h, env.now, c.id, enq, gaps);
      LookupTiled(h, env.now, c.id, enq, gaps);
      var g := Lookup(h, env.now, c.id);
      var i := IndexOf(g.s.fifo, c.id);
      if c.Small? {
        PlaceSmallTiled(g, i, c, env, enq, gaps);
      } else if c.Begin? {
        PlaceBeginTiled(g, i, c, env, enq, gaps);
      } else {
        GetFinds(h.s, env.now, c.id);
        PlacePieceTiled(g, i, c, env, enq, gaps);
      }
    } else if !IsFull(h.s) {
      FinishTiled(h, c, c.reliable && c.CarriesPayload(), false, env.now, enq, gaps);
    }
  }

  lemma ReadDataTiled(h: RxHalf, c: Chunk, env: RxEnv, enq: seq<seq<byte>>, gaps: Gaps)
    requires HalfOk(h) && Truthful(h, enq, gaps) && Tiled(h, enq, gaps)
    requires ChunkTrue(c, enq) && c.id < QUARTER
    ensures Tiled(ReadData(h, c, env), enq, GapsAfter(gaps, h, c, env))
  {
    hide Tiled, Truthful, HalfOk, Accept;
    OpenOk(h, env.now);
    OpenTrue(h, env.now, enq, gaps);
    OpenTiled(h, env.now, enq, gaps);
    var o := Open(h, env.now);
    AdvanceOk(o, c.front, c.id);
    AdvanceTrue(o, c.front, c.id, enq, gaps);
    AdvanceTiled(o, c.front, c.id, enq, gaps);
    AcceptTiled(Advance(o, c.front, c.id), c, env, enq, gaps);
  }
}
