/**
 A packet that arrives as a begin chunk and its pieces in order reaches the application: from
 every state of the receiver in which the packet is still a placeholder.
 */
module Assembly {
  import opened Common
  import opened Chunks
  import opened RxModel
  import opened RxOrder
  import opened Soundness
  import opened ReceiverLaws

  // There is a buffer, or the packet is next in order.
  predicate HasPlace(p: RxPacket, front: nat) {
    p.copy != [] || front == p.id
  }

  /** The first k bytes of the packet are there: in its buffer, or passed on from the front. */
  ghost predicate Assembling(h: RxHalf, id: nat, payload: seq<byte>, k: nat, reliable: bool) {
    && HalfOk(h) && !h.s.isNew && |h.s.fifo| < 32767 && h.s.front <= id
    && h.s.fifo != [] && h.s.fifo[0].id <= id < h.s.fifo[0].id + |h.s.fifo|
    && InProgress(h.s.fifo[id - h.s.fifo[0].id], h.s.front, id, payload, k, reliable)
  }

  ghost predicate InProgress(p: RxPacket, front: nat, id: nat, payload: seq<byte>, k: nat, reliable: bool) {
    && p.id == id && !p.isReceived && p.isReliable == reliable && HasPlace(p, front)
    && p.offset == k < p.size == |payload| && (p.copy == [] || p.copy == payload[..k] + Zeros(|payload| - k))
  }

  // A begin chunk finds the placeholder of its packet.
  ghost predicate Fresh(h: RxHalf, c: Chunk, env: RxEnv)
    requires c.IsData()
  {
    && HalfOk(h) && c.id < QUARTER && Reaches(h, c, env.now) && FirstId(h, c, env.now) <= c.id
    && c.id - FirstId(h, c, env.now) < 32766 && env.grace > 0
    && var p := PacketFor(h, c, env.now, c.id);
      p.size == 0 && p.offset == 0 && p.copy == [] && !p.isReceived
  }

  lemma BeginBuffer(p: RxPacket, c: Chunk, env: RxEnv, front: nat, payload: seq<byte>)
    requires c.Begin? && p.size == 0 && p.offset == 0 && p.copy == [] && !p.isReceived && p.id == c.id
    requires 0 < c.size == |payload| && (c.size <= env.threshold || front == c.id)
    ensures InProgress(BeginPacket(p, c, env), front, c.id, payload, 0, c.reliable)
    ensures BeginPacket(p, c, env).timeout == env.now + env.grace
    ensures BeginPacket(p, c, env).copy != [] <==> c.size <= env.threshold
  {
  }

  /** A begin chunk gives its packet a size once: to a packet that has one it brings nothing but time. */
  lemma BeginIsOnce(h: RxHalf, c: Chunk, env: RxEnv, p: RxPacket)
    requires HalfOk(h) && c.Begin? && c.id < QUARTER && Reaches(h, c, env.now) && FirstId(h, c, env.now) <= c.id
    requires PacketFor(h, c, env.now, c.id).size > 0 && p in ReadData(h, c, env).s.fifo && p.id == c.id
    ensures p == PacketFor(h, c, env.now, c.id).(timeout := env.now + env.grace)
  {
    var g, i := Meets(h, c, env);
    assert g.s.fifo[i] == PacketFor(h, c, env.now, FirstId(h, c, env.now) + i);
    var q := BeginPacket(g.s.fifo[i], c, env);
    SetPacketOk(g, i, q);
    var m := SetPacket(g, i, q);
    assert ReadData(h, c, env) == Process(m, env.now) && m.s.fifo[i] == q;
    hide ReadData, Process, Met, HalfOk;
    LeftByPass(m, i, env.now, p);
  }

  // A packet left by a pass is the one that was there.
  lemma LeftByPass(m: RxHalf, i: nat, now: int, p: RxPacket)
    requires HalfOk(m) && !m.s.isNew && i < |m.s.fifo| && p in Process(m, now).s.fifo && p.id == m.s.fifo[i].id
    ensures p == m.s.fifo[i]
  {
    hide Process, HalfOk, Leaves;
    var n := PassRemoves(m, now);
    var r := Process(m, now);
    var j :| 0 <= j < |r.s.fifo| && r.s.fifo[j] == p;
    assert p == m.s.fifo[n + j];
    QueueRises(m, n + j);
    QueueRises(m, i);
  }

  // A pass removes the first n packets, and none from one on that stays.
  lemma PassRemoves(m: RxHalf, now: int) returns (n: nat)
    requires HalfOk(m) && !m.s.isNew
    ensures n <= |m.s.fifo| && Process(m, now).s.fifo == m.s.fifo[n..]
    ensures forall i :: 0 <= i < |m.s.fifo| && !Leaves(m.s.fifo[i], m.s.front, now) ==> n <= i
    ensures Process(m, now).s.front == if n == 0 then m.s.front else Max(m.s.front, m.s.fifo[0].id + n)
  {
    n := ProcessPops(m, now);
    hide Process, HalfOk;
    if n > 0 {
      QueueRises(m, n - 1);
    }
  }

  // A pass stops at the packet, which waits.
  lemma PassStopsAt(m: RxHalf, now: int, i: nat, payload: seq<byte>, reliable: bool)
    requires HalfOk(m) && !m.s.isNew && i < |m.s.fifo| < 32767 && m.s.front <= m.s.fifo[i].id
    requires InProgress(m.s.fifo[i], m.s.front, m.s.fifo[i].id, payload, 0, reliable) && now < m.s.fifo[i].timeout
    ensures Assembling(Process(m, now), m.s.fifo[i].id, payload, 0, reliable)
  {
    hide Process, HalfOk, InProgress, Assembling;
    var p := m.s.fifo[i];
    StillWaits(p, m.s.front, now, payload, reliable);
    var n := PassRemoves(m, now);
    hide Leaves;
    ProcessOk(m, now);
    QueueRises(m, i);
    QueueRises(m, n);
    Moved(m, Process(m, now), n, i, payload, reliable);
  }

  lemma StillWaits(p: RxPacket, front: nat, now: int, payload: seq<byte>, reliable: bool)
    requires InProgress(p, front, p.id, payload, 0, reliable) && front <= p.id && now < p.timeout
    ensures !Leaves(p, front, now)
  {
  }

  // The queue without its first n packets.
  lemma Moved(m: RxHalf, r: RxHalf, n: nat, i: nat, payload: seq<byte>, reliable: bool)
    requires n <= i < |m.s.fifo| < 32767 && r.s.fifo == m.s.fifo[n..] && HalfOk(r) && !r.s.isNew
    requires m.s.fifo[i].id == m.s.fifo[0].id + i && m.s.fifo[n].id == m.s.fifo[0].id + n
    requires m.s.front <= m.s.fifo[i].id && InProgress(m.s.fifo[i], m.s.front, m.s.fifo[i].id, payload, 0, reliable)
    requires r.s.front == if n == 0 then m.s.front else Max(m.s.front, m.s.fifo[0].id + n)
    ensures Assembling(r, m.s.fifo[i].id, payload, 0, reliable)
  {
    hide HalfOk, InProgress;
    assert r.s.fifo[i - n] == m.s.fifo[i] && r.s.fifo[0] == m.s.fifo[n];
    RaisedInProgress(m.s.fifo[i], m.s.front, r.s.front, m.s.fifo[i].id, payload, 0, reliable);
  }

  lemma BeginStarts(h: RxHalf, c: Chunk, env: RxEnv, payload: seq<byte>)
    requires c.Begin? && Fresh(h, c, env) && 0 < c.size == |payload|
    requires c.size <= env.threshold || FrontAt(h, c) == c.id
    ensures Assembling(ReadData(h, c, env), c.id, payload, 0, c.reliable)
  {
    var g, i := Meets(h, c, env);
    assert g.s.fifo[i] == PacketFor(h, c, env.now, FirstId(h, c, env.now) + i);
    var p := BeginPacket(g.s.fifo[i], c, env);
    BeginBuffer(g.s.fifo[i], c, env, g.s.front, payload);
    SetPacketOk(g, i, p);
    var m := SetPacket(g, i, p);
    assert ReadData(h, c, env) == Process(m, env.now) && |m.s.fifo| < 32767 && m.s.fifo[i] == p;
    hide ReadData, Process, HalfOk, BeginPacket, InProgress, Met;
    PassStopsAt(m, env.now, i, payload, c.reliable);
  }

  // The next bytes of the payload.
  predicate NextPiece(c: Chunk, id: nat, payload: seq<byte>, k: nat) {
    && c.Piece? && c.id == id && c.offset == k && 0 < |c.data| <= |payload| - k
    && c.data == payload[k..k + |c.data|]
  }

  // What the packet is after them.
  lemma PieceContinues(p: RxPacket, front: nat, c: Chunk, payload: seq<byte>, k: nat, reliable: bool)
    requires InProgress(p, front, c.id, payload, k, reliable) && NextPiece(c, c.id, payload, k)
    ensures var q := PiecePacket(p, front, c);
      var n := k + |c.data|;
      && (n < |payload| ==> InProgress(q, front, c.id, payload, n, reliable))
      && (n == |payload| ==> q.isReceived && q.size == n && (q.copy == [] || q.copy == payload))
      && q.id == p.id && (Completes(p, front, c) <==> n == |payload|)
  {
    if p.copy != [] {
      var n := k + |c.data|;
      assert Overwritten(p.copy, k, c.data) == payload[..n] + Zeros(|payload| - n);
    }
  }

  // A piece meets the packet where it is; the front may only rise to it.
  lemma MeetsInProgress(h: RxHalf, c: Chunk, env: RxEnv, payload: seq<byte>, k: nat, reliable: bool)
    returns (g: RxHalf, i: nat)
    requires Assembling(h, c.id, payload, k, reliable) && c.Piece? && c.id < QUARTER
    ensures HalfOk(g) && !g.s.isNew && g.acks == h.acks && g.s.front <= c.id
    ensures i < |g.s.fifo| < 32767 && g.s.fifo[i].id == c.id
    ensures g.s.fifo == h.s.fifo && InProgress(g.s.fifo[i], g.s.front, c.id, payload, k, reliable)
    ensures ReadData(h, c, env) == PlaceAt(g, i, c, env) && Reaches(h, c, env.now)
  {
    hide PlaceAt, ReadData, InProgress, HalfOk, Met;
    assert Reaches(h, c, env.now);
    g, i := Meets(h, c, env);
    MetNothingNew(h, c, env.now, g, i);
    RaisedInProgress(h.s.fifo[i], h.s.front, g.s.front, c.id, payload, k, reliable);
  }

  // A chunk for a queued packet adds no placeholder.
  lemma MetNothingNew(h: RxHalf, c: Chunk, now: int, g: RxHalf, i: nat)
    requires HalfOk(h) && !h.s.isNew && c.IsData() && Met(h, c, now, g, i)
    requires h.s.fifo != [] && h.s.fifo[0].id <= c.id < h.s.fifo[0].id + |h.s.fifo|
    ensures HalfOk(g) && !g.s.isNew && g.acks == h.acks && g.s.front == FrontAt(h, c)
    ensures g.s.fifo == h.s.fifo && i == c.id - h.s.fifo[0].id
  {
    hide HalfOk;
    forall j | 0 <= j < |g.s.fifo|
      ensures j < |h.s.fifo| && g.s.fifo[j] == h.s.fifo[j]
    {
      MetSame(h, c, now, g, i, j);
    }
  }

  lemma RaisedInProgress(p: RxPacket, front: nat, later: nat, id: nat, payload: seq<byte>, k: nat, reliable: bool)
    requires InProgress(p, front, id, payload, k, reliable) && front <= later <= id
    ensures InProgress(p, later, id, payload, k, reliable) && p.id == id
  {
  }

  lemma PieceGoesOn(h: RxHalf, c: Chunk, env: RxEnv, payload: seq<byte>, k: nat, reliable: bool)
    requires Assembling(h, c.id, payload, k, reliable) && c.id < QUARTER && NextPiece(c, c.id, payload, k)
    requires k + |c.data| < |payload|
    ensures Assembling(ReadData(h, c, env), c.id, payload, k + |c.data|, reliable)
    ensures ReadData(h, c, env).acks == h.acks
  {
    hide ReadData, PlaceAt, PiecePacket, HalfOk, Completes, StorePiece, InProgress;
    var g, i := MeetsInProgress(h, c, env, payload, k, reliable);
    var p := Stamped(g.s.fifo[i], env);
    StampedGoesOn(g.s.fifo[i], env, g.s.front, c, payload, k, reliable);
    PieceContinues(p, g.s.front, c, payload, k, reliable);
    PieceStays(g, i, c, env);
    StorePieceOk(g, i, c, env);
    QueueRises(g, i);
    StoredPiece(g, i, c, env);
  }

  lemma StampedGoesOn(p: RxPacket, env: RxEnv, front: nat, c: Chunk, payload: seq<byte>, k: nat, reliable: bool)
    requires InProgress(p, front, c.id, payload, k, reliable) && c.Piece?
    ensures InProgress(Stamped(p, env), front, c.id, payload, k, reliable)
    ensures Completes(Stamped(p, env), front, c) <==> Completes(p, front, c)
    ensures p.isReliable == reliable
  {
  }

  // The packet is with the application, or complete in the queue, with these bytes where they are kept.
  ghost predicate Arrived(h: RxHalf, id: nat, payload: seq<byte>) {
    || (exists j :: 0 <= j < |h.log| && Whole(h.log[j], id, payload))
    || (exists j :: 0 <= j < |h.s.fifo| && Complete(h.s.fifo[j], id, payload))
  }

  predicate Whole(e: RxEvent, id: nat, payload: seq<byte>) {
    e.Delivered? && e.id == id && e.size == |payload| && (e.data.Some? ==> e.data.value == payload)
  }

  predicate Complete(p: RxPacket, id: nat, payload: seq<byte>) {
    p.isReceived && p.id == id && p.size == |payload| && (p.copy == [] || p.copy == payload)
  }

  lemma PassArrives(m: RxHalf, i: nat, payload: seq<byte>, now: int)
    requires HalfOk(m) && !m.s.isNew && i < |m.s.fifo| && Complete(m.s.fifo[i], m.s.fifo[i].id, payload)
    ensures Arrived(Process(m, now), m.s.fifo[i].id, payload) && Process(m, now).acks == m.acks
  {
    var n := ProcessPops(m, now);
    var r := Process(m, now);
    hide Process, HalfOk;
    if i < n {
      assert r.log[|m.log| + i] == EventFor(m.s.fifo[i], m.s.front);
      assert Whole(r.log[|m.log| + i], m.s.fifo[i].id, payload);
    } else {
      assert r.s.fifo[i - n] == m.s.fifo[i];
    }
  }

  lemma PieceFinishes(g: RxHalf, i: nat, c: Chunk, env: RxEnv)
    requires c.Piece? && i < |g.s.fifo| && Completes(g.s.fifo[i], g.s.front, c)
    ensures var t := StorePiece(g, i, c, env);
      PlaceAt(g, i, c, env) ==
        Process(if g.s.fifo[i].isReliable then PushAck(t, c.stream, c.id) else t, env.now)
  {
    PieceDone(g.s.fifo[i], g.s.front, c);
    hide StorePiece, PieceCompletes, Process;
  }

  lemma PieceEnds(h: RxHalf, c: Chunk, env: RxEnv, payload: seq<byte>, k: nat, reliable: bool)
    requires Assembling(h, c.id, payload, k, reliable) && c.id < QUARTER && NextPiece(c, c.id, payload, k)
    requires k + |c.data| == |payload|
    ensures Arrived(ReadData(h, c, env), c.id, payload)
    ensures ReadData(h, c, env).acks == if reliable then Pushed(h.acks, c) else h.acks
  {
    hide ReadData, PlaceAt, PiecePacket, StorePiece, HalfOk, Process, Completes, Arrived, InProgress;
    var g, i := MeetsInProgress(h, c, env, payload, k, reliable);
    var p := Stamped(g.s.fifo[i], env);
    StampedGoesOn(g.s.fifo[i], env, g.s.front, c, payload, k, reliable);
    PieceContinues(p, g.s.front, c, payload, k, reliable);
    StorePieceOk(g, i, c, env);
    var t := StorePiece(g, i, c, env);
    StoredPiece(g, i, c, env);
    var m := if reliable then PushAck(t, c.stream, c.id) else t;
    PieceFinishes(g, i, c, env);
    AcksOnly(t, m, c.id);
    PassArrives(m, i, payload, env.now);
  }

  // ---------------------------------------------------------------- the whole packet

  // The number of bytes in the pieces.
  function Total(pieces: seq<RxInput>): nat {
    if pieces == [] then 0
    else
      var last := pieces[|pieces| - 1];
      Total(pieces[..|pieces| - 1]) + if last.Data? && last.chunk.Piece? then |last.chunk.data| else 0
  }

  // Each piece starts where the ones before it end.
  ghost predicate InSequence(pieces: seq<RxInput>, id: nat, payload: seq<byte>) {
    forall j :: 0 <= j < |pieces| ==>
      pieces[j].Data? && NextPiece(pieces[j].chunk, id, payload, Total(pieces[..j]))
  }

  lemma InSequenceStep(pieces: seq<RxInput>, id: nat, payload: seq<byte>)
    requires InSequence(pieces, id, payload) && pieces != []
    ensures var before, last := pieces[..|pieces| - 1], pieces[|pieces| - 1];
      && InSequence(before, id, payload) && last.Data? && NextPiece(last.chunk, id, payload, Total(before))
      && Total(pieces) == Total(before) + |last.chunk.data|
      && forall i :: 0 <= i < |before| && before[i].Data? ==> before[i].chunk.IsData()
  {
    var n := |pieces| - 1;
    var before := pieces[..n];
    forall j | 0 <= j < n
      ensures before[j].Data? && NextPiece(before[j].chunk, id, payload, Total(before[..j]))
    {
      assert before[..j] == pieces[..j];
    }
  }

  lemma FeedStep(h: RxHalf, pieces: seq<RxInput>, id: nat, payload: seq<byte>)
    requires InSequence(pieces, id, payload) && pieces != []
    ensures var before, last := pieces[..|pieces| - 1], pieces[|pieces| - 1];
      && last.Data? && NextPiece(last.chunk, id, payload, Total(before)) && InSequence(before, id, payload)
      && Feed(h, pieces) == ReadData(Feed(h, before), last.chunk, last.env)
  {
    InSequenceStep(pieces, id, payload);
    hide ReadData;
  }

  lemma {:induction false} PiecesGoOn(h: RxHalf, pieces: seq<RxInput>, id: nat, payload: seq<byte>, reliable: bool)
    requires Assembling(h, id, payload, 0, reliable) && id < QUARTER
    requires InSequence(pieces, id, payload) && Total(pieces) < |payload|
    ensures Assembling(Feed(h, pieces), id, payload, Total(pieces), reliable)
    ensures Feed(h, pieces).acks == h.acks
    decreases |pieces|
  {
    hide Assembling, ReadData, NextPiece;
    if pieces == [] {
      assert Feed(h, pieces) == h && Total(pieces) == 0;
    } else {
      var n := |pieces| - 1;
      var before := pieces[..n];
      InSequenceStep(pieces, id, payload);
      FeedStep(h, pieces, id, payload);
      PiecesGoOn(h, before, id, payload, reliable);
      SamePacket(pieces[n].chunk, id, payload, Total(before));
      hide Feed, Total, InSequence;
      PieceGoesOn(Feed(h, before), pieces[n].chunk, pieces[n].env, payload, Total(before), reliable);
    }
  }

  lemma SamePacket(c: Chunk, id: nat, payload: seq<byte>, k: nat)
    requires NextPiece(c, id, payload, k)
    ensures c.Piece? && c.id == id && NextPiece(c, c.id, payload, k)
  {
  }

  lemma PieceIsSome(c: Chunk, id: nat, payload: seq<byte>, k: nat)
    requires NextPiece(c, id, payload, k)
    ensures |c.data| > 0
  {
  }

  lemma FreshId(h: RxHalf, c: Chunk, env: RxEnv)
    requires c.IsData() && Fresh(h, c, env)
    ensures c.id < QUARTER
  {
  }

  lemma NoPieces(payload: seq<byte>, pieces: seq<RxInput>)
    requires Total(pieces) == |payload| > 0
    ensures pieces != []
  {
  }

  /**
   A begin chunk and all pieces of a packet, in order: from every state of the receiver that has
   only a placeholder for it, the packet arrives with its bytes and, if reliable, its
   acknowledgement is the last in the queue.
   */
  lemma InOrderArrives(h: RxHalf, c: Chunk, env: RxEnv, pieces: seq<RxInput>, payload: seq<byte>)
    requires c.Begin? && Fresh(h, c, env) && 0 < c.size == |payload|
    requires c.size <= env.threshold || FrontAt(h, c) == c.id
    requires InSequence(pieces, c.id, payload) && Total(pieces) == |payload|
    ensures var r := Feed(ReadData(h, c, env), pieces);
      && Arrived(r, c.id, payload)
      && (c.reliable ==> r.acks != [] && r.acks[|r.acks| - 1] == (pieces[|pieces| - 1].chunk.stream, c.id))
  {
    hide ReadData, Assembling, Arrived, Feed, Total, InSequence, NextPiece, Fresh;
    NoPieces(payload, pieces);
    BeginStarts(h, c, env, payload);
    var n := |pieces| - 1;
    var before := pieces[..n];
    var s := ReadData(h, c, env);
    InSequenceStep(pieces, c.id, payload);
    FeedStep(s, pieces, c.id, payload);
    SamePacket(pieces[n].chunk, c.id, payload, Total(before));
    PieceIsSome(pieces[n].chunk, c.id, payload, Total(before));
    FreshId(h, c, env);
    PiecesGoOn(s, before, c.id, payload, c.reliable);
    PieceEnds(Feed(s, before), pieces[n].chunk, pieces[n].env, payload, Total(before), c.reliable);
  }
}
