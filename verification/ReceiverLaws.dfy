/**
 What each data chunk must do at the receiver, in the fields of the queue it meets: which
 packets it completes, when it is acknowledged, what it asks for, and what a pass reports.
 */
module ReceiverLaws {
  import opened Common
  import opened Chunks
  import opened RxModel
  import opened RxOrder
  import opened Soundness

  // --------------------------------------------------------- a pass over the queue

  // What the callback is told about a packet that leaves the queue.
  function EventFor(p: RxPacket, front: nat): RxEvent {
    if p.isReceived then Delivered(p.id, p.size, if p.copy == [] then None else Some(p.copy))
    else if p.id < front then Dropped(p.id)
    else TimedOut(p.id)
  }

  // A packet leaves when it is complete, below the front, or past its time.
  predicate Leaves(p: RxPacket, front: nat, now: int) {
    p.isReceived || p.id < front || p.timeout <= now
  }

  // The first n packets leave, and the next one, if there is one, stays.
  ghost predicate Popped(h: RxHalf, r: RxHalf, n: nat, now: int) {
    && n <= |h.s.fifo| && r.s.fifo == h.s.fifo[n..]
    && |r.log| == |h.log| + n && h.log <= r.log && r.acks == h.acks
    && (forall i :: 0 <= i < n ==> Leaves(h.s.fifo[i], h.s.front, now))
    && (forall i :: 0 <= i < n ==> r.log[|h.log| + i] == EventFor(h.s.fifo[i], h.s.front))
    && (n < |h.s.fifo| ==> !Leaves(h.s.fifo[n], h.s.front, now))
    && r.s.front == (if n == 0 then h.s.front else Max(h.s.front, h.s.fifo[n - 1].id + 1))
    && r.s.packetIdx == (if h.s.packetIdx > n then h.s.packetIdx - n else if n == 0 then h.s.packetIdx else 0)
    && !r.s.isNew && r.s.isReliable == h.s.isReliable
  }

  // Below the first quarter only: the front follows the packets that leave.
  lemma PopsFirst(h: RxHalf, now: int)
    requires HalfOk(h) && !h.s.isNew
    ensures PopReady(h.s, now) <==> h.s.fifo != [] && Leaves(h.s.fifo[0], h.s.front, now)
    ensures h.s.fifo != [] ==> PopEvent(h.s) == EventFor(h.s.fifo[0], h.s.front)
  {
  }

  // The packets behind one that leaves are judged by the old front as well.
  lemma SameJudgement(h: RxHalf, i: nat, now: int)
    requires HalfOk(h) && 1 <= i < |h.s.fifo|
    ensures var f := Max(h.s.front, h.s.fifo[0].id + 1);
      && (Leaves(h.s.fifo[i], f, now) <==> Leaves(h.s.fifo[i], h.s.front, now))
      && EventFor(h.s.fifo[i], f) == EventFor(h.s.fifo[i], h.s.front)
  {
    assert h.s.fifo[i].id == h.s.fifo[0].id + i;
  }

  /**
   A pass reports and removes the longest run of packets from the front that are complete, below
   the front, or past their time; each event says which of these held.
   */
  lemma {:induction false} ProcessPops(h: RxHalf, now: int) returns (n: nat)
    requires HalfOk(h) && !h.s.isNew
    ensures Popped(h, Process(h, now), n, now)
    decreases |h.s.fifo|
  {
    n := 0;
    PopsFirst(h, now);
    if PopReady(h.s, now) {
      var p, r := PopOnce(h), Process(h, now);
      PopOnceOk(h);
      PopFrontOk(h.s);
      var m := ProcessPops(p, now);
      n := m + 1;
      PoppedMore(h, p, r, m, now);
    }
  }

  lemma PoppedMore(h: RxHalf, p: RxHalf, r: RxHalf, m: nat, now: int)
    requires HalfOk(h) && h.s.fifo != [] && Popped(p, r, m, now)
    requires p.s.fifo == h.s.fifo[1..] && p.s.front == Max(h.s.front, h.s.fifo[0].id + 1)
    requires p.log == h.log + [EventFor(h.s.fifo[0], h.s.front)] && p.acks == h.acks
    requires Leaves(h.s.fifo[0], h.s.front, now) && p.s.isReliable == h.s.isReliable
    requires p.s.packetIdx == if h.s.packetIdx > 0 then h.s.packetIdx - 1 else 0
    ensures Popped(h, r, m + 1, now)
  {
    hide Leaves, EventFor, HalfOk;
    forall i | 1 <= i < |h.s.fifo|
      ensures p.s.fifo[i - 1] == h.s.fifo[i]
      ensures Leaves(h.s.fifo[i], p.s.front, now) <==> Leaves(h.s.fifo[i], h.s.front, now)
      ensures EventFor(h.s.fifo[i], p.s.front) == EventFor(h.s.fifo[i], h.s.front)
    {
      SameJudgement(h, i, now);
    }
    forall i | 0 <= i < m + 1
      ensures Leaves(h.s.fifo[i], h.s.front, now) && r.log[|h.log| + i] == EventFor(h.s.fifo[i], h.s.front)
    {
      if i > 0 {
        assert Leaves(p.s.fifo[i - 1], p.s.front, now);
        assert r.log[|p.log| + (i - 1)] == EventFor(p.s.fifo[i - 1], p.s.front);
      } else {
        assert r.log[|h.log|] == p.log[|h.log|];
      }
    }
    assert r.s.front == Max(h.s.front, h.s.fifo[m].id + 1) by {
      assert m > 0 ==> p.s.fifo[m - 1] == h.s.fifo[m];
      assert h.s.fifo[m].id >= h.s.fifo[0].id by {
        QueueRises(h, m);
      }
    }
    assert m < |p.s.fifo| ==> p.s.fifo[m] == h.s.fifo[m + 1];
  }

  lemma QueueRises(h: RxHalf, m: nat)
    requires HalfOk(h) && m < |h.s.fifo|
    ensures h.s.fifo[m].id == h.s.fifo[0].id + m
  {
  }

  // ------------------------------------------------------- the packet a chunk meets

  // The front with the mark of the chunk.
  function FrontAt(h: RxHalf, c: Chunk): nat
    requires c.IsData()
  {
    if c.front then Max(h.s.front, c.id) else h.s.front
  }

  // A placeholder: it waits 50 ms and asks for nothing.
  function Placeholder(id: nat, now: int, isReliable: bool): RxPacket {
    RxPacket(id, [], 0, 0, 0, UINT64_MAX, now + 50000, UINT64_MAX, isReliable, false)
  }

  // The queue; the first chunk of a stream puts a placeholder for id 0 into it.
  function Queue(h: RxHalf, now: int): seq<RxPacket> {
    if h.s.isNew then [Placeholder(0, now, h.s.isReliable)] else h.s.fifo
  }

  /** The chunk reaches its packet: the queue has room and the id is not below the front. */
  predicate Reaches(h: RxHalf, c: Chunk, now: int)
    requires c.IsData()
  {
    |Queue(h, now)| < 32767 && FrontAt(h, c) <= c.id
  }

  // The id the queue starts at.
  function FirstId(h: RxHalf, c: Chunk, now: int): nat
    requires c.IsData()
  {
    if Queue(h, now) == [] then FrontAt(h, c) else Queue(h, now)[0].id
  }

  // The packet with the id, a placeholder if it is not queued yet.
  function PacketFor(h: RxHalf, c: Chunk, now: int, id: nat): RxPacket
    requires c.IsData() && FirstId(h, c, now) <= id
  {
    var i := id - FirstId(h, c, now);
    if i < |Queue(h, now)| then Queue(h, now)[i] else Placeholder(id, now, h.s.isReliable)
  }

  // The half when the chunk reaches its packet, at position i.
  ghost predicate Met(h: RxHalf, c: Chunk, now: int, g: RxHalf, i: nat)
    requires c.IsData()
  {
    && HalfOk(g) && !g.s.isNew && g.acks == h.acks && g.log == h.log
    && g.s.front == FrontAt(h, c) && g.s.isReliable == h.s.isReliable
    && i == c.id - FirstId(h, c, now) && |g.s.fifo| == Max(|Queue(h, now)|, i + 1)
    && forall j :: 0 <= j < |g.s.fifo| ==> g.s.fifo[j] == PacketFor(h, c, now, FirstId(h, c, now) + j)
  }

  // The half after the frame the data branches share.
  lemma Arrives(h: RxHalf, c: Chunk, now: int) returns (a: RxHalf)
    requires HalfOk(h) && c.IsData() && c.id < QUARTER
    ensures a == Advance(Open(h, now), c.front, c.id) && HalfOk(a)
    ensures a == RxHalf(RxState(Queue(h, now), FrontAt(h, c), a.s.packetIdx, h.s.isReliable, false), h.acks, h.log)
    ensures IsReceivedBefore(a.s, c.id) <==> c.id < FrontAt(h, c)
  {
    OpenOk(h, now);
    var o := Open(h, now);
    assert o.s.fifo == Queue(h, now) && o.s.front == h.s.front && !o.s.isNew;
    hide Open, Queue;
    AdvanceOk(o, c.front, c.id);
    RaiseFrontOk(o.s, c.front, c.id);
    a := Advance(o, c.front, c.id);
    ReceivedBeforeOk(a.s, c.id);
  }

  lemma Meets(h: RxHalf, c: Chunk, env: RxEnv) returns (g: RxHalf, i: nat)
    requires HalfOk(h) && c.IsData() && c.id < QUARTER && Reaches(h, c, env.now)
    ensures Met(h, c, env.now, g, i) && i < |g.s.fifo| && g.s.fifo[i].id == c.id
    ensures ReadData(h, c, env) == PlaceAt(g, i, c, env)
  {
    hide PlaceAt, GetState, HalfOk, IsReceivedBefore, RaiseFront, Open, Queue, Advance;
    var a := Arrives(h, c, env.now);
    LookupMeets(h, c, env.now, a);
    g := Lookup(a, env.now, c.id);
    i := IndexOf(g.s.fifo, c.id);
  }

  lemma LookupMeets(h: RxHalf, c: Chunk, now: int, a: RxHalf)
    requires HalfOk(a) && !a.s.isNew && c.IsData() && FrontAt(h, c) <= c.id < QUARTER
    requires a.s.fifo == Queue(h, now) && a.s.front == FrontAt(h, c) && a.s.isReliable == h.s.isReliable
    requires a.acks == h.acks && a.log == h.log
    ensures var g := Lookup(a, now, c.id);
      var i := IndexOf(g.s.fifo, c.id);
      Met(h, c, now, g, i) && g.s.fifo[i].id == c.id
  {
    hide Queue, GetState;
    GetFinds(a.s, now, c.id);
    LookupOk(a, now, c.id);
    hide StreamOk, LogOk;
    assert Base(a.s) == FirstId(h, c, now);
  }

  /** A chunk that does not reach its packet leaves the queue and the application alone. */
  lemma Misses(h: RxHalf, c: Chunk, env: RxEnv)
    requires HalfOk(h) && c.IsData() && c.id < QUARTER && !Reaches(h, c, env.now)
    ensures var r := ReadData(h, c, env);
      r.s.fifo == Queue(h, env.now) && r.log == h.log && r.s.front == FrontAt(h, c)
    ensures ReadData(h, c, env).acks ==
      if |Queue(h, env.now)| < 32767 && c.reliable && c.CarriesPayload() then Pushed(h.acks, c) else h.acks
  {
    hide Open, Advance, Queue, HalfOk, IsReceivedBefore;
    var a := Arrives(h, c, env.now);
  }

  // The queue of acknowledgements with that of the chunk at its end, which is not put there twice in a row.
  function Pushed(acks: seq<(byte, nat)>, c: Chunk): (r: seq<(byte, nat)>)
    ensures r != [] && r[|r| - 1] == (c.stream, c.id)
  {
    if acks != [] && acks[|acks| - 1] == (c.stream, c.id) then acks else acks + [(c.stream, c.id)]
  }

  // --------------------------------------------- what a chunk completes and answers

  /** The application has the packet, or gets it when its turn comes. */
  ghost predicate Has(h: RxHalf, id: nat) {
    WasDelivered(h, id) || Held(h.s.fifo, id)
  }

  // Of the packet with the id, if gained, r has one more than h.
  ghost predicate Gains(h: RxHalf, r: RxHalf, id: nat, gained: bool) {
    forall k :: Has(r, k) <==> Has(h, k) || (k == id && gained)
  }

  lemma GainsThen(h: RxHalf, m: RxHalf, r: RxHalf, id: nat, gained: bool, more: bool)
    requires Gains(h, m, id, gained) && Gains(m, r, id, more)
    ensures Gains(h, r, id, gained || more)
  {
    hide Has;
  }

  // The piece continues where the packet stopped, and ends it; without a buffer only at the front.
  predicate Completes(p: RxPacket, front: nat, c: Chunk)
    requires c.Piece?
  {
    && p.size > 0 && c.offset == p.offset && c.offset + |c.data| == p.size
    && (p.copy != [] || front == c.id)
  }

  // The chunk brings its packet home.
  predicate Takes(p: RxPacket, front: nat, c: Chunk) {
    c.Small? || (c.Piece? && Completes(p, front, c))
  }

  // What a chunk leaves at its packet before the pass: m is the half with the packet stored.
  ghost predicate Stored(g: RxHalf, i: nat, c: Chunk, m: RxHalf)
    requires i < |g.s.fifo|
  {
    && HalfOk(m) && !m.s.isNew
    && m.acks == (if Answered(g.s.fifo[i], g.s.front, c) then Pushed(g.acks, c) else g.acks)
    && Gains(g, m, c.id, Takes(g.s.fifo[i], g.s.front, c))
  }

  // An acknowledgement is due for a packet that is brought home.
  predicate Answered(p: RxPacket, front: nat, c: Chunk) {
    (c.Small? && c.reliable) || (c.Piece? && Completes(p, front, c) && p.isReliable)
  }

  lemma SetHas(h: RxHalf, i: nat, p: RxPacket)
    requires i < |h.s.fifo| && p.id == h.s.fifo[i].id && (h.s.fifo[i].isReceived ==> p.isReceived)
    ensures Gains(h, SetPacket(h, i, p), p.id, p.isReceived)
  {
    var r := SetPacket(h, i, p);
    assert r.s.fifo[i] == p;
    forall id | Held(h.s.fifo, id)
      ensures Held(r.s.fifo, id)
    {
      var j :| 0 <= j < |h.s.fifo| && h.s.fifo[j].id == id && h.s.fifo[j].isReceived;
      assert r.s.fifo[j].id == id && r.s.fifo[j].isReceived;
    }
    forall id | Held(r.s.fifo, id)
      ensures Held(h.s.fifo, id) || (id == p.id && p.isReceived)
    {
      var j :| 0 <= j < |r.s.fifo| && r.s.fifo[j].id == id && r.s.fifo[j].isReceived;
      assert j != i ==> h.s.fifo[j] == r.s.fifo[j];
    }
  }

  lemma TellHas(h: RxHalf, e: RxEvent)
    ensures Gains(h, h.(log := h.log + [e]), e.id, e.Delivered?)
  {
    var r := h.(log := h.log + [e]);
    assert r.log[|h.log|] == e;
    forall id | WasDelivered(h, id)
      ensures WasDelivered(r, id)
    {
      var i :| 0 <= i < |h.log| && h.log[i].Delivered? && h.log[i].id == id;
      assert r.log[i] == h.log[i];
    }
  }

  // The oldest packet, not complete, leaves the queue as delivered.
  lemma DeliverHas(h: RxHalf, e: RxEvent)
    requires h.s.fifo != [] && !h.s.fifo[0].isReceived && e.Delivered?
    ensures Gains(h, h.(s := PopFront(h.s), log := h.log + [e]), e.id, true)
  {
    TellHas(h, e);
    var r := h.(s := PopFront(h.s), log := h.log + [e]);
    forall id
      ensures Held(r.s.fifo, id) <==> Held(h.s.fifo, id)
    {
      if Held(h.s.fifo, id) {
        var j :| 0 <= j < |h.s.fifo| && h.s.fifo[j].id == id && h.s.fifo[j].isReceived;
        assert r.s.fifo[j - 1] == h.s.fifo[j];
      }
      if Held(r.s.fifo, id) {
        var j :| 0 <= j < |r.s.fifo| && r.s.fifo[j].id == id && r.s.fifo[j].isReceived;
        assert h.s.fifo[j + 1] == r.s.fifo[j];
      }
    }
  }

  lemma SmallGains(g: RxHalf, i: nat, c: Chunk, timeout: int)
    requires HalfOk(g) && i < |g.s.fifo| && g.s.fifo[i].id == c.id && c.Small?
    ensures Gains(g, StoreSmall(g, i, c.id, c.data, timeout), c.id, true)
  {
    hide PopFront, HalfOk, Has;
    var p := g.s.fifo[i].(timeout := timeout);
    if p.isReceived {
      SetHas(g, i, p);
    } else if g.s.fifo[0].id == c.id {
      assert i == 0 by {
        QueueRises(g, i);
      }
      DeliverHas(g, Delivered(c.id, |c.data|, Some(c.data)));
    } else {
      SetHas(g, i, p.(isReceived := true, size := |c.data|, copy := c.data));
    }
  }

  lemma StoreKeepsAcks(g: RxHalf, i: nat, c: Chunk, timeout: int)
    requires i < |g.s.fifo| && c.Small?
    ensures StoreSmall(g, i, c.id, c.data, timeout).acks == g.acks
  {
  }

  lemma SmallStored(g: RxHalf, i: nat, c: Chunk, env: RxEnv) returns (m: RxHalf)
    requires HalfOk(g) && !g.s.isNew && i < |g.s.fifo| && g.s.fifo[i].id == c.id && c.Small?
    ensures Stored(g, i, c, m) && PlaceAt(g, i, c, env) == Process(m, env.now)
  {
    hide Process, StoreSmall, HalfOk, Gains;
    var t := StoreSmall(g, i, c.id, c.data, env.now + env.grace);
    StoreSmallOk(g, i, c.id, c.data, env.now + env.grace);
    SmallGains(g, i, c, env.now + env.grace);
    StoreKeepsAcks(g, i, c, env.now + env.grace);
    m := if c.reliable then PushAck(t, c.stream, c.id) else t;
    AcksOnly(t, m, c.id);
    GainsThen(g, t, m, c.id, true, false);
  }

  lemma AcksOnly(t: RxHalf, m: RxHalf, id: nat)
    requires HalfOk(t) && m == t.(acks := m.acks)
    ensures HalfOk(m) && Gains(t, m, id, false)
  {
  }

  lemma BeginStored(g: RxHalf, i: nat, c: Chunk, env: RxEnv) returns (m: RxHalf)
    requires HalfOk(g) && !g.s.isNew && i < |g.s.fifo| && g.s.fifo[i].id == c.id && c.Begin?
    ensures Stored(g, i, c, m) && PlaceAt(g, i, c, env) == Process(m, env.now)
  {
    var p := BeginPacket(g.s.fifo[i], c, env);
    SetPacketOk(g, i, p);
    SetHas(g, i, p);
    m := SetPacket(g, i, p);
    hide Process;
  }

  lemma PieceDone(p: RxPacket, front: nat, c: Chunk)
    requires c.Piece?
    ensures PieceCompletes(p, front, c) <==> Completes(p, front, c)
    ensures PiecePacket(p, front, c).isReceived <==> p.isReceived || Completes(p, front, c)
    ensures PiecePacket(p, front, c).id == p.id
  {
  }

  lemma PieceGains(g: RxHalf, i: nat, c: Chunk, env: RxEnv, t: RxHalf)
    requires i < |g.s.fifo| && g.s.fifo[i].id == c.id && c.Piece? && t == StorePiece(g, i, c, env)
    ensures Gains(g, t, c.id, Completes(g.s.fifo[i], g.s.front, c))
  {
    var p := Stamped(g.s.fifo[i], env);
    var q := PiecePacket(p, g.s.front, c);
    PieceDone(p, g.s.front, c);
    SetHas(g, i, q);
    TellHas(SetPacket(g, i, q), PieceOf(c.id, c.offset, c.data));
    hide Has, PiecePacket, SetPacket;
    if p.isReceived && !Completes(p, g.s.front, c) {
      HeldAlready(g, i);
    }
  }

  lemma HeldAlready(g: RxHalf, i: nat)
    requires i < |g.s.fifo| && g.s.fifo[i].isReceived
    ensures Has(g, g.s.fifo[i].id)
  {
  }

  lemma PieceStored(g: RxHalf, i: nat, c: Chunk, env: RxEnv) returns (m: RxHalf)
    requires HalfOk(g) && !g.s.isNew && i < |g.s.fifo| && g.s.fifo[i].id == c.id && c.Piece?
    ensures Stored(g, i, c, m)
    ensures PlaceAt(g, i, c, env) == if Completes(g.s.fifo[i], g.s.front, c) then Process(m, env.now) else m
  {
    StorePieceOk(g, i, c, env);
    var p := Stamped(g.s.fifo[i], env);
    PieceDone(p, g.s.front, c);
    PieceDone(g.s.fifo[i], g.s.front, c);
    var t := StorePiece(g, i, c, env);
    PieceGains(g, i, c, env, t);
    m := if Answered(g.s.fifo[i], g.s.front, c) then PushAck(t, c.stream, c.id) else t;
    hide StorePiece, PieceCompletes, Process, HalfOk, Gains;
    AcksOnly(t, m, c.id);
    GainsThen(g, t, m, c.id, Completes(g.s.fifo[i], g.s.front, c), false);
  }

  lemma PopsKeepHas(h: RxHalf, r: RxHalf, n: nat, now: int)
    requires Popped(h, r, n, now)
    ensures forall id :: Gains(h, r, id, false)
  {
    forall id
      ensures Has(r, id) <==> Has(h, id)
    {
      if WasDelivered(h, id) {
        var i :| 0 <= i < |h.log| && h.log[i].Delivered? && h.log[i].id == id;
        assert r.log[i] == h.log[i];
      } else if Held(h.s.fifo, id) {
        var j :| 0 <= j < |h.s.fifo| && h.s.fifo[j].id == id && h.s.fifo[j].isReceived;
        if j < n {
          assert r.log[|h.log| + j] == EventFor(h.s.fifo[j], h.s.front);
        } else {
          assert r.s.fifo[j - n] == h.s.fifo[j];
        }
      }
      if Held(r.s.fifo, id) {
        var j :| 0 <= j < |r.s.fifo| && r.s.fifo[j].id == id && r.s.fifo[j].isReceived;
        assert h.s.fifo[n + j] == r.s.fifo[j];
      } else if WasDelivered(r, id) {
        var i :| 0 <= i < |r.log| && r.log[i].Delivered? && r.log[i].id == id;
        if i < |h.log| {
          assert r.log[i] == h.log[i];
        } else {
          assert r.log[|h.log| + (i - |h.log|)] == EventFor(h.s.fifo[i - |h.log|], h.s.front);
        }
      }
    }
  }

  lemma PassStored(g: RxHalf, i: nat, c: Chunk, m: RxHalf, now: int)
    requires i < |g.s.fifo| && Stored(g, i, c, m)
    ensures Stored(g, i, c, Process(m, now))
  {
    hide HalfOk, Process, Gains, Takes, Answered;
    var n := ProcessPops(m, now);
    var r := Process(m, now);
    ProcessOk(m, now);
    PopsKeepHas(m, r, n, now);
    GainsThen(g, m, r, c.id, Takes(g.s.fifo[i], g.s.front, c), false);
  }

  // Any chunk, placed at its packet.
  lemma Places(g: RxHalf, i: nat, c: Chunk, env: RxEnv)
    requires HalfOk(g) && !g.s.isNew && i < |g.s.fifo| && g.s.fifo[i].id == c.id && c.IsData()
    ensures Stored(g, i, c, PlaceAt(g, i, c, env))
  {
    hide PlaceAt, HalfOk, Process, Stored;
    match c
    case Small(_, _, _, _, _) =>
      var m := SmallStored(g, i, c, env);
      PassStored(g, i, c, m, env.now);
    case Begin(_, _, _, _, _) =>
      var m := BeginStored(g, i, c, env);
      PassStored(g, i, c, m, env.now);
    case Piece(_, _, _, _, _, _) =>
      var m := PieceStored(g, i, c, env);
      PassStored(g, i, c, m, env.now);
  }

  lemma MetSame(h: RxHalf, c: Chunk, now: int, g: RxHalf, i: nat, j: nat)
    requires HalfOk(h) && c.IsData() && Met(h, c, now, g, i) && j < |g.s.fifo|
    ensures j < |h.s.fifo| ==> g.s.fifo[j] == h.s.fifo[j]
    ensures j >= |h.s.fifo| ==> !g.s.fifo[j].isReceived
  {
    assert g.s.fifo[j] == PacketFor(h, c, now, FirstId(h, c, now) + j);
  }

  lemma MetHas(h: RxHalf, c: Chunk, now: int, g: RxHalf, i: nat)
    requires HalfOk(h) && c.IsData() && Met(h, c, now, g, i)
    ensures Gains(h, g, c.id, false)
  {
    forall j | 0 <= j < |g.s.fifo|
      ensures j < |h.s.fifo| ==> g.s.fifo[j] == h.s.fifo[j]
      ensures j >= |h.s.fifo| ==> !g.s.fifo[j].isReceived
    {
      MetSame(h, c, now, g, i, j);
    }
    assert |h.s.fifo| <= |g.s.fifo| && g.log == h.log;
    hide Met, HalfOk;
    SameHas(h, g, c.id);
  }

  lemma SameHas(h: RxHalf, g: RxHalf, id: nat)
    requires g.log == h.log && |h.s.fifo| <= |g.s.fifo|
    requires forall j :: 0 <= j < |g.s.fifo| ==> j < |h.s.fifo| ==> g.s.fifo[j] == h.s.fifo[j]
    requires forall j :: 0 <= j < |g.s.fifo| ==> j >= |h.s.fifo| ==> !g.s.fifo[j].isReceived
    ensures Gains(h, g, id, false)
  {
    forall k
      ensures Held(g.s.fifo, k) <==> Held(h.s.fifo, k)
    {
      if Held(h.s.fifo, k) {
        var j :| 0 <= j < |h.s.fifo| && h.s.fifo[j].id == k && h.s.fifo[j].isReceived;
        assert g.s.fifo[j] == h.s.fifo[j];
      }
    }
  }

  lemma FirstIdBelow(h: RxHalf, c: Chunk, now: int)
    requires HalfOk(h) && c.IsData() && Reaches(h, c, now)
    ensures FirstId(h, c, now) <= c.id
  {
  }

  /** The chunk brings its packet home: a small packet, or the piece that completes it. */
  predicate Brings(h: RxHalf, c: Chunk, now: int)
    requires c.IsData() && HalfOk(h)
  {
    Reaches(h, c, now) && (FirstIdBelow(h, c, now); Takes(PacketFor(h, c, now, c.id), FrontAt(h, c), c))
  }

  // The chunk is answered: for the packet it brings home, and again for one below the front.
  predicate Answers(h: RxHalf, c: Chunk, now: int)
    requires c.IsData() && HalfOk(h)
  {
    if Reaches(h, c, now) then (FirstIdBelow(h, c, now); Answered(PacketFor(h, c, now, c.id), FrontAt(h, c), c))
    else |Queue(h, now)| < 32767 && c.reliable && c.CarriesPayload()
  }

  /** A chunk brings home exactly its own packet, and exactly when it completes it. */
  lemma ReadDataHasIff(h: RxHalf, c: Chunk, env: RxEnv)
    requires HalfOk(h) && c.IsData() && c.id < QUARTER
    ensures Gains(h, ReadData(h, c, env), c.id, Brings(h, c, env.now))
  {
    hide PlaceAt, HalfOk, ReadData;
    if Reaches(h, c, env.now) {
      FirstIdBelow(h, c, env.now);
      var g, i := Meets(h, c, env);
      MetHas(h, c, env.now, g, i);
      Places(g, i, c, env);
      assert g.s.fifo[i] == PacketFor(h, c, env.now, FirstId(h, c, env.now) + i);
      hide Gains;
      GainsThen(h, g, PlaceAt(g, i, c, env), c.id, false, Takes(g.s.fifo[i], g.s.front, c));
    } else {
      MissesHas(h, c, env);
    }
  }

  lemma MissesHas(h: RxHalf, c: Chunk, env: RxEnv)
    requires HalfOk(h) && c.IsData() && c.id < QUARTER && !Reaches(h, c, env.now)
    ensures Gains(h, ReadData(h, c, env), c.id, false)
  {
    Misses(h, c, env);
    hide ReadData;
  }

  /** Exactly the acknowledgement that is due joins the queue, at its end. */
  lemma ReadDataAnswersIff(h: RxHalf, c: Chunk, env: RxEnv)
    requires HalfOk(h) && c.IsData() && c.id < QUARTER
    ensures ReadData(h, c, env).acks == if Answers(h, c, env.now) then Pushed(h.acks, c) else h.acks
  {
    hide PlaceAt, HalfOk, ReadData;
    if Reaches(h, c, env.now) {
      FirstIdBelow(h, c, env.now);
      var g, i := Meets(h, c, env);
      Places(g, i, c, env);
      assert g.s.fifo[i] == PacketFor(h, c, env.now, FirstId(h, c, env.now) + i);
    } else {
      Misses(h, c, env);
    }
  }

  /**
   A small packet, a begin chunk and a piece that completes its packet are followed by a pass: the
   oldest packet left is neither complete nor below the front nor past its time.
   */
  lemma OldestWaits(h: RxHalf, c: Chunk, env: RxEnv)
    requires HalfOk(h) && c.IsData() && c.id < QUARTER && Reaches(h, c, env.now)
    requires c.Piece? ==> Brings(h, c, env.now)
    ensures var r := ReadData(h, c, env); r.s.fifo != [] ==> !Leaves(r.s.fifo[0], r.s.front, env.now)
  {
    hide ReadData, PlaceAt, HalfOk, Process, Queue, PacketFor, FirstId, Met, FrontAt, Stored;
    FirstIdBelow(h, c, env.now);
    var g, i := Meets(h, c, env);
    MetPacket(h, c, env.now, g, i);
    var m;
    match c {
      case Small(_, _, _, _, _) => m := SmallStored(g, i, c, env);
      case Begin(_, _, _, _, _) => m := BeginStored(g, i, c, env);
      case Piece(_, _, _, _, _, _) => m := PieceStored(g, i, c, env);
    }
    assert HalfOk(m) && !m.s.isNew by {
      StoredOk(g, i, c, m);
    }
    PassSettles(m, env.now);
  }

  lemma StoredOk(g: RxHalf, i: nat, c: Chunk, m: RxHalf)
    requires i < |g.s.fifo| && Stored(g, i, c, m)
    ensures HalfOk(m) && !m.s.isNew
  {
    hide HalfOk;
  }

  lemma PassSettles(m: RxHalf, now: int)
    requires HalfOk(m) && !m.s.isNew
    ensures var r := Process(m, now); r.s.fifo != [] ==> !Leaves(r.s.fifo[0], r.s.front, now)
  {
    var n := ProcessPops(m, now);
    hide Process, HalfOk, EventFor;
    if 0 < n < |m.s.fifo| {
      QueueRises(m, n - 1);
      QueueRises(m, n);
    }
  }

  // ------------------------------------------------------------ what stays queued

  // The packet of the chunk waits from now on for its grace; the others are not touched.
  ghost predicate Touched(g: RxHalf, r: RxHalf, id: nat, timeout: int) {
    forall p :: p in r.s.fifo ==> if p.id == id then p.timeout == timeout else p in g.s.fifo
  }

  lemma SetTouches(g: RxHalf, i: nat, p: RxPacket, r: RxHalf)
    requires HalfOk(g) && i < |g.s.fifo| && p.id == g.s.fifo[i].id && r.s.fifo == g.s.fifo[i := p]
    ensures Touched(g, r, p.id, p.timeout)
  {
    forall q | q in r.s.fifo
      ensures if q.id == p.id then q.timeout == p.timeout else q in g.s.fifo
    {
      var j :| 0 <= j < |r.s.fifo| && r.s.fifo[j] == q;
      assert j != i ==> q == g.s.fifo[j];
      QueueRises(g, i);
      QueueRises(g, j);
    }
  }

  lemma SuffixTouches(g: RxHalf, m: RxHalf, r: RxHalf, n: nat, id: nat, timeout: int)
    requires Touched(g, m, id, timeout) && n <= |m.s.fifo| && r.s.fifo == m.s.fifo[n..]
    ensures Touched(g, r, id, timeout)
  {
    forall p | p in r.s.fifo
      ensures p in m.s.fifo
    {
      var j :| 0 <= j < |r.s.fifo| && r.s.fifo[j] == p;
      assert m.s.fifo[n + j] == p;
    }
  }

  lemma PassTouches(g: RxHalf, m: RxHalf, now: int, id: nat, timeout: int)
    requires HalfOk(m) && !m.s.isNew && Touched(g, m, id, timeout)
    ensures Touched(g, Process(m, now), id, timeout)
  {
    var n := ProcessPops(m, now);
    hide Process, HalfOk, Touched;
    SuffixTouches(g, m, Process(m, now), n, id, timeout);
  }

  lemma SmallTouches(g: RxHalf, i: nat, c: Chunk, env: RxEnv)
    requires HalfOk(g) && !g.s.isNew && i < |g.s.fifo| && g.s.fifo[i].id == c.id && c.Small?
    ensures Touched(g, PlaceAt(g, i, c, env), c.id, env.now + env.grace)
  {
    var timeout := env.now + env.grace;
    var t := StoreSmall(g, i, c.id, c.data, timeout);
    StoreSmallOk(g, i, c.id, c.data, timeout);
    var m := if c.reliable then PushAck(t, c.stream, c.id) else t;
    assert Touched(g, m, c.id, timeout) by {
      var p := g.s.fifo[i].(timeout := timeout);
      if p.isReceived {
        SetTouches(g, i, p, m);
      } else if g.s.fifo[0].id == c.id {
        LeaveTouches(g, m, timeout);
      } else {
        SetTouches(g, i, p.(isReceived := true, size := |c.data|, copy := c.data), m);
      }
    }
    hide Touched, Process, StoreSmall;
    PassTouches(g, m, env.now, c.id, timeout);
  }

  lemma LeaveTouches(g: RxHalf, m: RxHalf, timeout: int)
    requires HalfOk(g) && g.s.fifo != [] && m.s.fifo == g.s.fifo[1..]
    ensures Touched(g, m, g.s.fifo[0].id, timeout)
  {
    forall p | p in m.s.fifo
      ensures p.id != g.s.fifo[0].id && p in g.s.fifo
    {
      var j :| 0 <= j < |m.s.fifo| && m.s.fifo[j] == p;
      assert g.s.fifo[j + 1] == p;
      QueueRises(g, j + 1);
    }
  }

  lemma BeginTouches(g: RxHalf, i: nat, c: Chunk, env: RxEnv)
    requires HalfOk(g) && !g.s.isNew && i < |g.s.fifo| && g.s.fifo[i].id == c.id && c.Begin?
    ensures Touched(g, PlaceAt(g, i, c, env), c.id, env.now + env.grace)
  {
    var p := BeginPacket(g.s.fifo[i], c, env);
    SetPacketOk(g, i, p);
    var m := SetPacket(g, i, p);
    SetTouches(g, i, p, m);
    hide Touched, Process;
    PassTouches(g, m, env.now, c.id, env.now + env.grace);
  }

  lemma PieceTouches(g: RxHalf, i: nat, c: Chunk, env: RxEnv)
    requires HalfOk(g) && !g.s.isNew && i < |g.s.fifo| && g.s.fifo[i].id == c.id && c.Piece?
    ensures Touched(g, PlaceAt(g, i, c, env), c.id, env.now + env.grace)
  {
    var t := StorePiece(g, i, c, env);
    StorePieceOk(g, i, c, env);
    var done := PieceCompletes(g.s.fifo[i], g.s.front, c);
    var m := if done && g.s.fifo[i].isReliable then PushAck(t, c.stream, c.id) else t;
    assert Touched(g, m, c.id, env.now + env.grace) by {
      PieceStamp(Stamped(g.s.fifo[i], env), g.s.front, c);
      SetTouches(g, i, PiecePacket(Stamped(g.s.fifo[i], env), g.s.front, c), m);
    }
    hide Touched, Process, StorePiece;
    PassTouches(g, m, env.now, c.id, env.now + env.grace);
  }

  lemma PieceStamp(p: RxPacket, front: nat, c: Chunk)
    requires c.Piece?
    ensures PiecePacket(p, front, c).id == p.id && PiecePacket(p, front, c).timeout == p.timeout
  {
  }

  /**
   A chunk that reaches its packet renews its time to wait; every other packet stays as it was,
   or is a new placeholder that waits 50 ms. The queue of a chunk that does not reach its
   packet stays as it was.
   */
  lemma OthersStay(h: RxHalf, c: Chunk, env: RxEnv, p: RxPacket)
    requires HalfOk(h) && c.IsData() && c.id < QUARTER && p in ReadData(h, c, env).s.fifo
    ensures Reaches(h, c, env.now) && p.id == c.id ==> p.timeout == env.now + env.grace
    ensures !(Reaches(h, c, env.now) && p.id == c.id) ==>
      p in Queue(h, env.now) || p == Placeholder(p.id, env.now, h.s.isReliable)
  {
    if Reaches(h, c, env.now) {
      FirstIdBelow(h, c, env.now);
      var g, i := Meets(h, c, env);
      match c {
        case Small(_, _, _, _, _) => SmallTouches(g, i, c, env);
        case Begin(_, _, _, _, _) => BeginTouches(g, i, c, env);
        case Piece(_, _, _, _, _, _) => PieceTouches(g, i, c, env);
      }
      hide PlaceAt, ReadData, HalfOk;
      if p.id != c.id {
        MetQueue(h, c, env.now, g, i, p);
      }
    } else {
      Misses(h, c, env);
    }
  }

  lemma MetQueue(h: RxHalf, c: Chunk, now: int, g: RxHalf, i: nat, p: RxPacket)
    requires c.IsData() && Met(h, c, now, g, i) && p in g.s.fifo
    ensures p in Queue(h, now) || p == Placeholder(p.id, now, h.s.isReliable)
  {
    var j :| 0 <= j < |g.s.fifo| && g.s.fifo[j] == p;
    assert p == PacketFor(h, c, now, FirstId(h, c, now) + j);
  }

  // --------------------------------------------------------------- what a piece asks for

  // The packet before and after a piece that does not complete it.
  ghost predicate Moves(p: RxPacket, q: RxPacket, front: nat, c: Chunk)
    requires c.Piece?
  {
    // Without its begin chunk the packet is asked for from the start.
    && (p.size == 0 ==> q == p.(offsetRepeat := 0, isReliable := c.reliable))
    && (p.size > 0 && c.offset + |c.data| <= p.size ==>
      // Behind an offset already reached it changes nothing.
      && (c.offset < p.offset ==> q == p)
      // Ahead of it the packet jumps, and asks for what it has jumped to.
      && (c.offset > p.offset ==> q == p.(offset := c.offset, offsetRepeat := c.offset, sizeRepeat := 0))
      // With nowhere to put the bytes it starts again.
      && (c.offset == p.offset && p.copy == [] && front != c.id ==>
        q == p.(offset := 0, offsetRepeat := 0, sizeRepeat := p.size))
      // Otherwise it goes on behind the piece.
      && (c.offset == p.offset && (p.copy != [] || front == c.id) ==>
        q == p.(offset := c.offset + |c.data|, copy := q.copy) && |q.copy| == |p.copy|))
    // What does not fit changes nothing.
    && (p.size > 0 && c.offset + |c.data| > p.size ==> q == p)
  }

  /** A piece that does not complete its packet moves it, and asks for what is missing. */
  lemma PieceMoves(h: RxHalf, c: Chunk, env: RxEnv)
    requires HalfOk(h) && c.Piece? && c.id < QUARTER && Reaches(h, c, env.now) && !Brings(h, c, env.now)
    requires FirstId(h, c, env.now) <= c.id
    ensures var r := ReadData(h, c, env);
      var i := c.id - FirstId(h, c, env.now);
      var p := PacketFor(h, c, env.now, c.id);
      && i < |r.s.fifo| && r.s.front == FrontAt(h, c)
      && r.log == h.log + (if GoesThrough(p, FrontAt(h, c), c) then [PieceOf(c.id, c.offset, c.data)] else [])
      && Moves(p.(timeout := env.now + env.grace), r.s.fifo[i], FrontAt(h, c), c)
  {
    hide ReadData, HalfOk, PlaceAt, StorePiece, PiecePacket, Queue, Moves, PacketFor, FirstId, Met, FrontAt;
    var g, i := Meets(h, c, env);
    MetPacket(h, c, env.now, g, i);
    PieceStays(g, i, c, env);
    StoredPiece(g, i, c, env);
    PieceFitsBuffer(g, i);
    PieceMovesPacket(Stamped(g.s.fifo[i], env), g.s.front, c);
  }

  lemma MetPacket(h: RxHalf, c: Chunk, now: int, g: RxHalf, i: nat)
    requires c.IsData() && Met(h, c, now, g, i) && FirstId(h, c, now) <= c.id
    ensures i == c.id - FirstId(h, c, now) < |g.s.fifo| && g.s.fifo[i] == PacketFor(h, c, now, c.id)
    ensures HalfOk(g) && !g.s.isNew && g.s.front == FrontAt(h, c) && g.acks == h.acks && g.log == h.log
  {
    assert g.s.fifo[i] == PacketFor(h, c, now, FirstId(h, c, now) + i);
  }

  // Without completing its packet a piece is stored, and nothing else happens.
  lemma PieceStays(g: RxHalf, i: nat, c: Chunk, env: RxEnv)
    requires c.Piece? && i < |g.s.fifo| && !Completes(g.s.fifo[i], g.s.front, c)
    ensures PlaceAt(g, i, c, env) == StorePiece(g, i, c, env)
  {
    PieceDone(g.s.fifo[i], g.s.front, c);
    hide StorePiece, PieceCompletes;
  }

  lemma StoredPiece(g: RxHalf, i: nat, c: Chunk, env: RxEnv)
    requires c.Piece? && i < |g.s.fifo|
    ensures var r := StorePiece(g, i, c, env);
      var p := g.s.fifo[i];
      && r.s == g.s.(fifo := g.s.fifo[i := PiecePacket(Stamped(p, env), g.s.front, c)]) && r.acks == g.acks
      && r.log == g.log + if GoesThrough(p, g.s.front, c) then [PieceOf(c.id, c.offset, c.data)] else []
  {
    hide PiecePacket;
  }

  // The bytes of a packet at the front without a buffer go through to the application.
  predicate GoesThrough(p: RxPacket, front: nat, c: Chunk)
    requires c.Piece?
  {
    p.size > 0 && c.offset + |c.data| <= p.size && c.offset == p.offset && p.copy == [] && front == c.id
  }

  lemma PieceMovesPacket(p: RxPacket, front: nat, c: Chunk)
    requires c.Piece? && !Completes(p, front, c) && (p.copy == [] || |p.copy| == p.size)
    ensures Moves(p, PiecePacket(p, front, c), front, c)
  {
  }

  lemma PieceFitsBuffer(g: RxHalf, i: nat)
    requires HalfOk(g) && i < |g.s.fifo|
    ensures g.s.fifo[i].copy == [] || |g.s.fifo[i].copy| == g.s.fifo[i].size
  {
  }
}
