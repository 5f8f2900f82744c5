/**
 Payload integrity. A buffered packet reported 's' carries exactly the bytes queued under
 its id, except that a byte skipped by a piece that arrived ahead of the offset is zero.
 */
module Payload {
  import opened Common
  import opened Chunks
  import opened RxModel
  import opened RxOrder
  import opened Protocol

  /** The chunk was cut from the payload enqueued under its id. */
  ghost predicate ChunkTrue(c: Chunk, enq: seq<seq<byte>>) {
    && c.IsData()
    && c.id < |enq|
    && match c
      case Small(_, id, _, _, data) => data == enq[id]
      case Begin(_, id, _, _, size) => size == |enq[id]|
      case Piece(_, id, _, _, offset, data) =>
        data != [] && offset + |data| <= |enq[id]| && data == enq[id][offset..offset + |data|]
  }

  // The byte a buffer holds: zero where it was skipped or has not been reached.
  function ByteAt(p: RxPacket, payload: seq<byte>, gaps: Gaps, k: nat): byte
    requires k < |payload|
  {
    if (p.id, k) in gaps then 0
    else if k < p.offset || p.isReceived then payload[k]
    else 0
  }

  ghost predicate BufferTrue(p: RxPacket, payload: seq<byte>, gaps: Gaps) {
    || p.copy == []
    || (|p.copy| == |payload| && forall k :: 0 <= k < |payload| ==> p.copy[k] == ByteAt(p, payload, gaps, k))
  }

  ghost predicate PacketTrue(p: RxPacket, payload: seq<byte>, gaps: Gaps) {
    && (p.size == 0 || p.size == |payload|)
    && p.offset <= |payload|
    && (p.size == 0 ==> p.offset == 0 && p.copy == [] && !p.isReceived)
    && BufferTrue(p, payload, gaps)
    && (forall k :: (p.id, k) in gaps ==> k < p.offset)
    && (p.isReceived && p.copy == [] ==> p.offset == |payload|)
    && (p.offsetRepeat == UINT64_MAX || p.offsetRepeat < |payload|)
  }

  // The delivered bytes, exactly.
  ghost predicate EventTrue(e: RxEvent, enq: seq<seq<byte>>, gaps: Gaps) {
    e.Delivered? ==>
      && e.id < |enq|
      && e.size == |enq[e.id]|
      && (e.data.Some? ==>
        && |e.data.value| == |enq[e.id]|
        && forall k :: 0 <= k < |enq[e.id]| ==>
          e.data.value[k] == if (e.id, k) in gaps then 0 else enq[e.id][k])
  }

  // What send_ts takes: a payload that is not empty, of a uint64 size.
  ghost predicate Payloads(enq: seq<seq<byte>>) {
    forall k :: 0 <= k < |enq| ==> IsPayload(enq[k])
  }

  ghost predicate Truthful(h: RxHalf, enq: seq<seq<byte>>, gaps: Gaps) {
    && End(h.s) <= |enq| && h.s.front <= |enq|
    && Payloads(enq)
    && (forall i :: 0 <= i < |h.s.fifo| ==> h.s.fifo[i].id < |enq|)
    && (forall i :: 0 <= i < |h.s.fifo| ==> PacketTrue(h.s.fifo[i], enq[h.s.fifo[i].id], gaps))
    && (forall g :: g in gaps ==> g.0 < End(h.s))
    && (forall i :: 0 <= i < |h.log| ==> EventTrue(h.log[i], enq, gaps))
  }

  // ------------------------------------------------------- receiver, op by op

  lemma ExtendsTrue(h: RxHalf, r: RxState, now: int, length: nat, enq: seq<seq<byte>>, gaps: Gaps)
    requires HalfOk(h) && Truthful(h, enq, gaps)
    requires Extends(h.s, r, now, length) && StreamOk(r) && Base(r) == Base(h.s) && End(r) <= |enq|
    ensures Truthful(h.(s := r), enq, gaps)
  {
  }

  lemma OpenTrue(h: RxHalf, now: int, enq: seq<seq<byte>>, gaps: Gaps)
    requires HalfOk(h) && Truthful(h, enq, gaps) && enq != []
    ensures Truthful(Open(h, now), enq, gaps)
  {
  }

  lemma AdvanceTrue(h: RxHalf, isFront: bool, id: nat, enq: seq<seq<byte>>, gaps: Gaps)
    requires HalfOk(h) && !h.s.isNew && Truthful(h, enq, gaps) && id < |enq| && id < QUARTER
    ensures Truthful(Advance(h, isFront, id), enq, gaps)
  {
  }

  lemma LookupTrue(h: RxHalf, now: int, id: nat, enq: seq<seq<byte>>, gaps: Gaps)
    requires HalfOk(h) && !h.s.isNew && h.s.front <= id < QUARTER && Truthful(h, enq, gaps) && id < |enq|
    ensures Truthful(Lookup(h, now, id), enq, gaps)
  {
    GetFinds(h.s, now, id);
    ExtendsTrue(h, GetState(h.s, now, id), now, Max(|h.s.fifo|, id + 1 - Base(h.s)), enq, gaps);
  }

  // The two histories differ at most on the bytes of one packet.
  ghost predicate AgreeOff(gaps: Gaps, gaps': Gaps, id: nat) {
    forall q, k :: q != id ==> ((q, k) in gaps <==> (q, k) in gaps')
  }

  lemma SetPacketTrue(h: RxHalf, i: nat, p: RxPacket, enq: seq<seq<byte>>,
                      gaps: Gaps, gaps': Gaps)
    requires HalfOk(h) && Truthful(h, enq, gaps) && i < |h.s.fifo| && p.id == h.s.fifo[i].id
    requires PacketTrue(p, enq[p.id], gaps') && AgreeOff(gaps, gaps', p.id)
    ensures Truthful(SetPacket(h, i, p), enq, gaps')
  {
  }

  lemma LeaveTrue(h: RxHalf, e: RxEvent, enq: seq<seq<byte>>, gaps: Gaps, gaps': Gaps)
    requires HalfOk(h) && Truthful(h, enq, gaps) && h.s.fifo != []
    requires e.id == h.s.fifo[0].id && EventTrue(e, enq, gaps') && AgreeOff(gaps, gaps', e.id)
    ensures Truthful(h.(s := PopFront(h.s), log := h.log + [e]), enq, gaps')
  {
  }

  lemma PopEventTrue(s: RxState, enq: seq<seq<byte>>, gaps: Gaps)
    requires s.fifo != [] && s.fifo[0].id < |enq| && PacketTrue(s.fifo[0], enq[s.fifo[0].id], gaps)
    ensures EventTrue(PopEvent(s), enq, gaps)
  {
  }

  lemma {:induction false} ProcessTrue(h: RxHalf, now: int, enq: seq<seq<byte>>, gaps: Gaps)
    requires HalfOk(h) && !h.s.isNew && Truthful(h, enq, gaps)
    ensures Truthful(Process(h, now), enq, gaps)
    decreases |h.s.fifo|
  {
    if PopReady(h.s, now) {
      PopEventTrue(h.s, enq, gaps);
      PopOnceOk(h);
      LeaveTrue(h, PopEvent(h.s), enq, gaps, gaps);
      ProcessTrue(PopOnce(h), now, enq, gaps);
    }
  }

  lemma FinishTrue(h: RxHalf, c: Chunk, ack: bool, process: bool, now: int, enq: seq<seq<byte>>, gaps: Gaps)
    requires HalfOk(h) && !h.s.isNew && Truthful(h, enq, gaps)
    ensures Truthful(Finish(h, c, ack, process, now), enq, gaps)
  {
    var a := if ack then PushAck(h, c.stream, c.id) else h;
    assert a.s == h.s && a.log == h.log;
    if process {
      ProcessTrue(a, now, enq, gaps);
    }
  }

  lemma StoreSmallTrue(h: RxHalf, i: nat, c: Chunk, timeout: int, enq: seq<seq<byte>>, gaps: Gaps)
    requires HalfOk(h) && Truthful(h, enq, gaps) && i < |h.s.fifo|
    requires c.Small? && h.s.fifo[i].id == c.id && ChunkTrue(c, enq)
    ensures Truthful(StoreSmall(h, i, c.id, c.data, timeout), enq, GapsAt(gaps, h.s.fifo[i], h.s.front, c))
  {
    var gaps' := GapsAt(gaps, h.s.fifo[i], h.s.front, c);
    var p := h.s.fifo[i].(timeout := timeout);
    if p.isReceived {
      PacketTrueStamp(h.s.fifo[i], timeout, enq[c.id], gaps);
      SetPacketTrue(h, i, p, enq, gaps, gaps');
    } else if h.s.fifo[0].id == c.id {
      assert i == 0;
      LeaveTrue(h, Delivered(c.id, |c.data|, Some(c.data)), enq, gaps, gaps');
    } else {
      SetPacketTrue(h, i, p.(isReceived := true, size := |c.data|, copy := c.data), enq, gaps, gaps');
    }
  }

  lemma PacketTrueStamp(p: RxPacket, timeout: int, payload: seq<byte>, gaps: Gaps)
    requires PacketTrue(p, payload, gaps)
    ensures PacketTrue(p.(timeout := timeout), payload, gaps)
  {
  }

  lemma BeginPacketTrue(p: RxPacket, c: Chunk, env: RxEnv, enq: seq<seq<byte>>, gaps: Gaps)
    requires c.Begin? && ChunkTrue(c, enq) && p.id == c.id && PacketTrue(p, enq[c.id], gaps)
    ensures PacketTrue(BeginPacket(p, c, env), enq[c.id], gaps)
  {
  }

  lemma OverwrittenTrue(p: RxPacket, c: Chunk, payload: seq<byte>, gaps: Gaps)
    requires c.Piece? && p.copy != [] && p.offset == c.offset && PacketTrue(p, payload, gaps)
    requires c.offset + |c.data| <= |payload| && c.data == payload[c.offset..c.offset + |c.data|]
    ensures var end := c.offset + |c.data|;
      var q := p.(copy := Overwritten(p.copy, c.offset, c.data), offset := end,
                  isReceived := p.isReceived || end >= p.size);
      BufferTrue(q, payload, gaps)
  {
  }

  lemma PiecePacketTrue(p: RxPacket, front: nat, c: Chunk, enq: seq<seq<byte>>, gaps: Gaps)
    requires c.Piece? && ChunkTrue(c, enq) && p.id == c.id && PacketTrue(p, enq[c.id], gaps)
    ensures PacketTrue(PiecePacket(p, front, c), enq[c.id], GapsAt(gaps, p, front, c))
    ensures AgreeOff(gaps, GapsAt(gaps, p, front, c), c.id)
  {
    var payload := enq[c.id];
    var q := PiecePacket(p, front, c);
    var gaps' := GapsAt(gaps, p, front, c);
    match Verdict(p, front, c)
    case NoSize =>
    case Misfit =>
    case Old =>
    case Gap =>
      if p.copy != [] {
        forall k | 0 <= k < |payload|
          ensures q.copy[k] == ByteAt(q, payload, gaps', k)
        {
          assert p.copy[k] == ByteAt(p, payload, gaps, k);
        }
      }
    case OutOfOrder =>
    case Buffer => OverwrittenTrue(p, c, payload, gaps);
    case Pass =>
  }

  lemma StorePieceTrue(h: RxHalf, i: nat, c: Chunk, env: RxEnv, enq: seq<seq<byte>>, gaps: Gaps)
    requires HalfOk(h) && Truthful(h, enq, gaps) && i < |h.s.fifo|
    requires c.Piece? && h.s.fifo[i].id == c.id && ChunkTrue(c, enq)
    ensures Truthful(StorePiece(h, i, c, env), enq, GapsAt(gaps, h.s.fifo[i], h.s.front, c))
  {
    var p := Stamped(h.s.fifo[i], env);
    PacketTrueStamp(h.s.fifo[i], env.now + env.grace, enq[c.id], gaps);
    PiecePacketTrue(p, h.s.front, c, enq, gaps);
    var gaps' := GapsAt(gaps, p, h.s.front, c);
    assert gaps' == GapsAt(gaps, h.s.fifo[i], h.s.front, c);
    PiecePacketId(p, h.s.front, c);
    hide PacketTrue, PiecePacket, GapsAt, EventTrue, HalfOk;
    var t := SetPacket(h, i, PiecePacket(p, h.s.front, c));
    SetPacketTrue(h, i, PiecePacket(p, h.s.front, c), enq, gaps, gaps');
    hide SetPacket, Truthful;
    TellPieceTrue(t, c, enq, gaps');
  }

  lemma PiecePacketId(p: RxPacket, front: nat, c: Chunk)
    requires c.Piece?
    ensures PiecePacket(p, front, c).id == p.id
  {
  }

  // A piece passed on is a slice of its payload.
  lemma TellPieceTrue(h: RxHalf, c: Chunk, enq: seq<seq<byte>>, gaps: Gaps)
    requires Truthful(h, enq, gaps) && c.Piece? && ChunkTrue(c, enq)
    ensures Truthful(h.(log := h.log + [PieceOf(c.id, c.offset, c.data)]), enq, gaps)
  {
    hide PacketTrue;
  }

  lemma PlaceSmallTrue(h: RxHalf, i: nat, c: Chunk, env: RxEnv, enq: seq<seq<byte>>, gaps: Gaps)
    requires HalfOk(h) && !h.s.isNew && Truthful(h, enq, gaps) && i < |h.s.fifo|
    requires h.s.fifo[i].id == c.id && ChunkTrue(c, enq) && c.Small?
    ensures Truthful(PlaceAt(h, i, c, env), enq, GapsAt(gaps, h.s.fifo[i], h.s.front, c))
  {
    hide StoreSmall, Process, Truthful, HalfOk;
    var gaps' := GapsAt(gaps, h.s.fifo[i], h.s.front, c);
    var r := StoreSmall(h, i, c.id, c.data, env.now + env.grace);
    StoreSmallOk(h, i, c.id, c.data, env.now + env.grace);
    StoreSmallTrue(h, i, c, env.now + env.grace, enq, gaps);
    assert PlaceAt(h, i, c, env) == Finish(r, c, c.reliable, true, env.now);
    FinishTrue(r, c, c.reliable, true, env.now, enq, gaps');
  }

  lemma PlaceBeginTrue(h: RxHalf, i: nat, c: Chunk, env: RxEnv, enq: seq<seq<byte>>, gaps: Gaps)
    requires HalfOk(h) && !h.s.isNew && Truthful(h, enq, gaps) && i < |h.s.fifo|
    requires h.s.fifo[i].id == c.id && ChunkTrue(c, enq) && c.Begin?
    ensures Truthful(PlaceAt(h, i, c, env), enq, GapsAt(gaps, h.s.fifo[i], h.s.front, c))
  {
    var p := BeginPacket(h.s.fifo[i], c, env);
    SetPacketOk(h, i, p);
    BeginPacketTrue(h.s.fifo[i], c, env, enq, gaps);
    SetPacketTrue(h, i, p, enq, gaps, gaps);
    FinishTrue(SetPacket(h, i, p), c, false, true, env.now, enq, gaps);
  }

  lemma PlacePieceTrue(h: RxHalf, i: nat, c: Chunk, env: RxEnv, enq: seq<seq<byte>>, gaps: Gaps)
    requires HalfOk(h) && !h.s.isNew && Truthful(h, enq, gaps) && i < |h.s.fifo|
    requires h.s.fifo[i].id == c.id && ChunkTrue(c, enq) && c.Piece?
    ensures Truthful(PlaceAt(h, i, c, env), enq, GapsAt(gaps, h.s.fifo[i], h.s.front, c))
  {
    var gaps' := GapsAt(gaps, h.s.fifo[i], h.s.front, c);
    StorePieceOk(h, i, c, env);
    StorePieceTrue(h, i, c, env, enq, gaps);
    var done := PieceCompletes(h.s.fifo[i], h.s.front, c);
    FinishTrue(StorePiece(h, i, c, env), c, done && h.s.fifo[i].isReliable, done, env.now, enq, gaps');
  }

  lemma PlaceAtTrue(h: RxHalf, i: nat, c: Chunk, env: RxEnv, enq: seq<seq<byte>>, gaps: Gaps)
    requires HalfOk(h) && !h.s.isNew && Truthful(h, enq, gaps) && i < |h.s.fifo|
    requires h.s.fifo[i].id == c.id && ChunkTrue(c, enq)
    ensures Truthful(PlaceAt(h, i, c, env), enq, GapsAt(gaps, h.s.fifo[i], h.s.front, c))
  {
    if c.Small? {
      PlaceSmallTrue(h, i, c, env, enq, gaps);
    } else if c.Begin? {
      PlaceBeginTrue(h, i, c, env, enq, gaps);
    } else {
      PlacePieceTrue(h, i, c, env, enq, gaps);
    }
  }

  lemma AcceptTrue(h: RxHalf, c: Chunk, env: RxEnv, enq: seq<seq<byte>>, gaps: Gaps)
    requires HalfOk(h) && !h.s.isNew && Truthful(h, enq, gaps) && ChunkTrue(c, enq) && c.id < QUARTER
    ensures Truthful(Accept(h, c, env), enq, GapsAccept(gaps, h, c, env))
  {
    ReceivedBeforeOk(h.s, c.id);
    if !IsFull(h.s) && !IsReceivedBefore(h.s, c.id) {
      LookupOk(h, env.now, c.id);
      LookupTrue(h, env.now, c.id, enq, gaps);
      var g := Lookup(h, env.now, c.id);
      PlaceAtTrue(g, IndexOf(g.s.fifo, c.id), c, env, enq, gaps);
    } else if !IsFull(h.s) {
      FinishTrue(h, c, c.reliable && c.CarriesPayload(), false, env.now, enq, gaps);
    }
  }

  lemma ReadDataTrue(h: RxHalf, c: Chunk, env: RxEnv, enq: seq<seq<byte>>, gaps: Gaps)
    requires HalfOk(h) && Truthful(h, enq, gaps) && ChunkTrue(c, enq) && c.id < QUARTER
    ensures Truthful(ReadData(h, c, env), enq, GapsAfter(gaps, h, c, env))
  {
    OpenOk(h, env.now);
    OpenTrue(h, env.now, enq, gaps);
    var o := Open(h, env.now);
    AdvanceOk(o, c.front, c.id);
    AdvanceTrue(o, c.front, c.id, enq, gaps);
    AcceptTrue(Advance(o, c.front, c.id), c, env, enq, gaps);
  }
}
