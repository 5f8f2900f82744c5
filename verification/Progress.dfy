/**
 What the two endpoints do, over every run: what is due is sent, what arrives is answered, and
 from every reachable state one round trip brings the oldest packet home.
 */
module Progress {
  import opened Common
  import opened Chunks
  import opened RxModel
  import opened RxOrder
  import opened Protocol
  import opened Soundness
  import opened ReceiverLaws
  import opened Runs
  import opened Guarantees
  import Tx = TxModel
  import TxOrder
  import SenderLaws
  import Requests

  // ------------------------------------------------------------- everything is answered

  // A packet that knows its size before it is complete got it from a begin chunk.
  ghost predicate Begun(h: RxHalf) {
    forall p :: p in h.s.fifo ==> BegunPacket(p)
  }

  predicate BegunPacket(p: RxPacket) {
    p.size > 0 && !p.isReceived ==> p.isReliable
  }

  lemma SetBegun(g: RxHalf, i: nat, p: RxPacket, r: RxHalf)
    requires Begun(g) && i < |g.s.fifo| && BegunPacket(p) && r.s.fifo == g.s.fifo[i := p]
    ensures Begun(r)
  {
  }

  lemma PassBegun(m: RxHalf, now: int)
    requires HalfOk(m) && !m.s.isNew && Begun(m)
    ensures Begun(Process(m, now))
  {
    var n := ProcessPops(m, now);
    var r := Process(m, now);
    hide Process, BegunPacket;
    forall p | p in r.s.fifo
      ensures p in m.s.fifo
    {
      var j :| 0 <= j < |r.s.fifo| && r.s.fifo[j] == p;
      assert m.s.fifo[n + j] == p;
    }
  }

  lemma StoreBegun(g: RxHalf, i: nat, c: Chunk, timeout: int)
    requires i < |g.s.fifo| && c.Small? && Begun(g)
    ensures Begun(StoreSmall(g, i, c.id, c.data, timeout))
  {
    var t := StoreSmall(g, i, c.id, c.data, timeout);
    var p := g.s.fifo[i].(timeout := timeout);
    assert BegunPacket(g.s.fifo[i]);
    if p.isReceived {
      SetBegun(g, i, p, t);
    } else if g.s.fifo[0].id == c.id {
      assert t.s.fifo == g.s.fifo[1..];
    } else {
      SetBegun(g, i, p.(isReceived := true, size := |c.data|, copy := c.data), t);
    }
  }

  lemma SmallBegun(g: RxHalf, i: nat, c: Chunk, env: RxEnv)
    requires HalfOk(g) && !g.s.isNew && i < |g.s.fifo| && g.s.fifo[i].id == c.id && c.Small? && Begun(g)
    ensures Begun(PlaceAt(g, i, c, env))
  {
    hide StoreSmall, Process, BegunPacket;
    var t := StoreSmall(g, i, c.id, c.data, env.now + env.grace);
    StoreSmallOk(g, i, c.id, c.data, env.now + env.grace);
    StoreBegun(g, i, c, env.now + env.grace);
    PassBegun(if c.reliable then PushAck(t, c.stream, c.id) else t, env.now);
  }

  lemma BeginBegun(g: RxHalf, i: nat, c: Chunk, env: RxEnv)
    requires HalfOk(g) && !g.s.isNew && i < |g.s.fifo| && g.s.fifo[i].id == c.id && c.Begin? && c.reliable && Begun(g)
    ensures Begun(PlaceAt(g, i, c, env))
  {
    var p := BeginPacket(g.s.fifo[i], c, env);
    assert BegunPacket(g.s.fifo[i]);
    SetPacketOk(g, i, p);
    SetBegun(g, i, p, SetPacket(g, i, p));
    hide Process, BeginPacket;
    PassBegun(SetPacket(g, i, p), env.now);
  }

  lemma PieceBegun(g: RxHalf, i: nat, c: Chunk, env: RxEnv)
    requires HalfOk(g) && !g.s.isNew && i < |g.s.fifo| && g.s.fifo[i].id == c.id && c.Piece? && c.reliable && Begun(g)
    ensures Begun(PlaceAt(g, i, c, env))
  {
    var t := StorePiece(g, i, c, env);
    StorePieceOk(g, i, c, env);
    var p := PiecePacket(Stamped(g.s.fifo[i], env), g.s.front, c);
    assert BegunPacket(g.s.fifo[i]);
    SetBegun(g, i, p, t);
    var done := PieceCompletes(g.s.fifo[i], g.s.front, c);
    var m := if done && g.s.fifo[i].isReliable then PushAck(t, c.stream, c.id) else t;
    hide Process, StorePiece, PiecePacket, PieceCompletes;
    PassBegun(m, env.now);
  }

  lemma ReadDataBegun(h: RxHalf, c: Chunk, env: RxEnv)
    requires HalfOk(h) && c.IsData() && c.id < QUARTER && c.reliable && Begun(h)
    ensures Begun(ReadData(h, c, env))
  {
    hide ReadData, PlaceAt, HalfOk;
    if Reaches(h, c, env.now) {
      var g, i := Meets(h, c, env);
      assert Begun(g) by {
        forall p | p in g.s.fifo
          ensures BegunPacket(p)
        {
          MetQueue(h, c, env.now, g, i, p);
        }
      }
      hide Begun, Met;
      match c {
        case Small(_, _, _, _, _) => SmallBegun(g, i, c, env);
        case Begin(_, _, _, _, _) => BeginBegun(g, i, c, env);
        case Piece(_, _, _, _, _, _) => PieceBegun(g, i, c, env);
      }
    } else {
      Misses(h, c, env);
    }
  }

  // The acknowledgement waits at the receiver, or was put on the wire.
  ghost predicate AckFor(acks: seq<(byte, nat)>, up: set<Chunk>, stream: byte, id: nat) {
    (stream, id) in acks || Ack(stream, id) in up
  }

  ghost predicate AllAnswered(rx: RxHalf, up: set<Chunk>, stream: byte) {
    forall id :: Has(rx, id) ==> AckFor(rx.acks, up, stream, id)
  }

  /** A reliable chunk that brings its packet home puts its acknowledgement at the end of the queue. */
  lemma BroughtIsAnswered(h: RxHalf, c: Chunk, env: RxEnv)
    requires HalfOk(h) && c.IsData() && c.id < QUARTER && c.reliable && Begun(h)
    requires !Has(h, c.id) && Has(ReadData(h, c, env), c.id)
    ensures var acks := ReadData(h, c, env).acks; acks != [] && acks[|acks| - 1] == (c.stream, c.id)
  {
    ReadDataHasIff(h, c, env);
    ReadDataAnswersIff(h, c, env);
    FirstIdBelow(h, c, env.now);
    var p := PacketFor(h, c, env.now, c.id);
    assert BegunPacket(p) && (p.isReceived ==> Has(h, c.id)) by {
      PacketForKnown(h, c, env.now);
    }
    hide ReadData, HalfOk, Has;
  }

  lemma PacketForKnown(h: RxHalf, c: Chunk, now: int)
    requires HalfOk(h) && c.IsData() && Begun(h) && FirstId(h, c, now) <= c.id
    ensures var p := PacketFor(h, c, now, c.id); BegunPacket(p) && (p.isReceived ==> Has(h, c.id))
  {
    var i := c.id - FirstId(h, c, now);
    if i < |Queue(h, now)| && !h.s.isNew {
      assert h.s.fifo[i] in h.s.fifo;
      QueueRises(h, i);
    }
  }

  lemma ReadDataAnswered(h: RxHalf, c: Chunk, env: RxEnv, up: set<Chunk>)
    requires HalfOk(h) && c.IsData() && c.id < QUARTER && c.reliable && Begun(h) && AllAnswered(h, up, c.stream)
    ensures AllAnswered(ReadData(h, c, env), up, c.stream)
  {
    ReadDataHasIff(h, c, env);
    ReadDataAnswersIff(h, c, env);
    var r := ReadData(h, c, env);
    if !Has(h, c.id) && Has(r, c.id) {
      BroughtIsAnswered(h, c, env);
    }
    hide ReadData, HalfOk, Has, Brings, Answers;
    forall id | Has(r, id)
      ensures AckFor(r.acks, up, c.stream, id)
    {
      if Has(h, id) {
        assert AckFor(h.acks, up, c.stream, id);
      }
    }
  }

  lemma PassAnswered(h: RxHalf, now: int, up: set<Chunk>, stream: byte)
    requires HalfOk(h) && !h.s.isNew && AllAnswered(h, up, stream)
    ensures AllAnswered(Process(h, now), up, stream)
  {
    var n := ProcessPops(h, now);
    PopsKeepHas(h, Process(h, now), n, now);
    hide Process, HalfOk, Has;
    assert Gains(h, Process(h, now), 0, false);
  }

  ghost predicate AnsweredSys(sys: System) {
    Begun(sys.rx) && AllAnswered(sys.rx, sys.up, sys.tx.t.stream)
  }

  // Same queue and log, and no acknowledgement lost.
  lemma AnsweredMoves(rx: RxHalf, rx': RxHalf, up: set<Chunk>, up': set<Chunk>, stream: byte)
    requires Begun(rx) && AllAnswered(rx, up, stream)
    requires forall p :: p in rx'.s.fifo ==> BegunPacket(p)
    requires forall id :: Has(rx', id) ==> Has(rx, id)
    requires forall id :: AckFor(rx.acks, up, stream, id) ==> AckFor(rx'.acks, up', stream, id)
    ensures Begun(rx') && AllAnswered(rx', up', stream)
  {
    hide Has, AckFor, BegunPacket;
  }

  lemma WriteAckAnswered(sys: System)
    requires AnsweredSys(sys) && sys.rx.acks != []
    ensures AnsweredSys(Apply(sys, WriteAck))
  {
    var next := Apply(sys, WriteAck);
    var stream := sys.tx.t.stream;
    forall id: nat | AckFor(sys.rx.acks, sys.up, stream, id)
      ensures AckFor(next.rx.acks, next.up, stream, id)
    {
      if (stream, id) in sys.rx.acks {
        var i :| 0 <= i < |sys.rx.acks| && sys.rx.acks[i] == (stream, id);
        if i > 0 {
          assert next.rx.acks[i - 1] == (stream, id);
        }
      }
    }
    hide Apply;
    AnsweredMoves(sys.rx, next.rx, sys.up, next.up, stream);
  }

  // What a request changes of the packets: only what they ask for, and the datagram that asked.
  ghost predicate SameState(h: RxHalf, r: RxHalf) {
    && r.log == h.log && r.acks == h.acks && |r.s.fifo| == |h.s.fifo|
    && forall j :: 0 <= j < |h.s.fifo| ==> SameFields(r.s.fifo[j], h.s.fifo[j])
  }

  predicate SameFields(p: RxPacket, q: RxPacket) {
    p.id == q.id && p.isReceived == q.isReceived && p.size == q.size && p.isReliable == q.isReliable
  }

  lemma RepeatSame(sys: System, now: int, datagram: nat, available: nat)
    ensures var next := RepeatStep(sys, now, datagram, available);
      SameState(Process(sys.rx, now), next.rx) && sys.up <= next.up && next.tx == sys.tx
  {
    hide Process;
  }

  lemma RepeatAnswered(sys: System, now: int, datagram: nat, available: nat)
    requires AnsweredSys(sys) && HalfOk(sys.rx) && sys.rx.acks == [] && !sys.rx.s.isNew
    ensures AnsweredSys(RepeatStep(sys, now, datagram, available))
  {
    hide RepeatStep, Process, HalfOk, Begun, AllAnswered;
    var next := RepeatStep(sys, now, datagram, available);
    var h := Process(sys.rx, now);
    PassBegun(sys.rx, now);
    PassAnswered(sys.rx, now, sys.up, sys.tx.t.stream);
    RepeatSame(sys, now, datagram, available);
    SamePackets(h, next.rx);
    AnsweredMoves(h, next.rx, sys.up, next.up, sys.tx.t.stream);
  }

  lemma SamePackets(h: RxHalf, r: RxHalf)
    requires Begun(h) && SameState(h, r)
    ensures (forall p :: p in r.s.fifo ==> BegunPacket(p)) && forall id :: Has(r, id) ==> Has(h, id)
  {
    forall p | p in r.s.fifo
      ensures BegunPacket(p)
    {
      var j :| 0 <= j < |r.s.fifo| && r.s.fifo[j] == p;
      assert BegunPacket(h.s.fifo[j]) && SameFields(r.s.fifo[j], h.s.fifo[j]);
    }
    forall id | Held(r.s.fifo, id)
      ensures Held(h.s.fifo, id)
    {
      var j :| 0 <= j < |r.s.fifo| && r.s.fifo[j].id == id && r.s.fifo[j].isReceived;
      assert SameFields(r.s.fifo[j], h.s.fifo[j]);
    }
  }

  lemma ApplyAnswered(sys: System, step: Step)
    requires Inv(sys) && AnsweredSys(sys) && sys.tx.t.isReliable
    ensures AnsweredSys(Apply(sys, step))
  {
    var stream := sys.tx.t.stream;
    ApplyKeepsStream(sys, step);
    match step
    case ReadDown(c, env) =>
      if c in sys.down && c.IsData() {
        assert DownOk(c, sys.tx, sys.enq);
        hide ReadData, Inv;
        ReadDataBegun(sys.rx, c, env);
        ReadDataAnswered(sys.rx, c, env, sys.up);
      }
    case WriteAck => if sys.rx.acks != [] { WriteAckAnswered(sys); }
    case WriteRepeat(now, datagram, available) =>
      if sys.rx.acks == [] && !sys.rx.s.isNew { RepeatAnswered(sys, now, datagram, available); }
    case OtherStreamAck(other, id) =>
      hide Inv;
      AnsweredMoves(sys.rx, Apply(sys, step).rx, sys.up, sys.up, stream);
    case _ => hide Inv;
  }

  lemma {:induction false} RunAnswered(stream: byte, steps: seq<Step>)
    requires |Run(Init(stream, true), steps).enq| <= QUARTER
    ensures AnsweredSys(Run(Init(stream, true), steps))
  {
    if steps != [] {
      var n := |steps| - 1;
      var before := Run(Init(stream, true), steps[..n]);
      ApplyGrows(before, steps[n]);
      RunAnswered(stream, steps[..n]);
      RunInv(stream, true, steps[..n]);
      StreamConstant(stream, true, steps[..n]);
      hide Apply, Inv, AnsweredSys;
      ApplyAnswered(before, steps[n]);
    }
  }

  /**
   Every packet of a reliable stream that was delivered, or is held complete, has its
   acknowledgement waiting or on the wire: the other half of acknowledgement soundness.
   */
  lemma ReceivedIsAnswered(sys: System, stream: byte, steps: seq<Step>, k: nat)
    requires Reachable(sys, stream, true, steps)
    requires WasDelivered(sys.rx, k) || Held(sys.rx.s.fifo, k)
    ensures (stream, k) in sys.rx.acks || Ack(stream, k) in sys.up
  {
    RunAnswered(stream, steps);
    StreamConstant(stream, true, steps);
    hide Run;
    assert Has(sys.rx, k);
    assert AckFor(sys.rx.acks, sys.up, stream, k);
  }

  // ------------------------------------------------------------------ what is due is sent

  // The chunk is cut from the packet, for the space there is.
  ghost predicate CutFrom(c: Chunk, t: Tx.TxState, j: nat, available: nat)
    requires j < |t.fifo|
  {
    && c.IsData() && c.stream == t.stream && c.id == t.fifo[j].id
    && c.reliable == t.fifo[j].isReliable && (c.front <==> j == 0)
    && EncodedSize(c) <= available && SenderLaws.CutOf(c, t.fifo[j], available)
  }

  /**
   At a time at which a packet is due, with room for a chunk, an offer puts a chunk of the first
   such packet on the wire.
   */
  lemma DueIsSent(sys: System, stream: byte, isReliable: bool, steps: seq<Step>, env: Tx.TxEnv, available: nat)
    returns (j: nat, c: Chunk)
    requires Reachable(sys, stream, isReliable, steps) && 18 <= available <= 0xFFFF
    requires TxOrder.HasWork(Tx.Process(sys.tx, env.now).t, env)
    ensures var t := Tx.Process(sys.tx, env.now).t;
      var next := Apply(sys, Offer(env, available));
      && TxOrder.FirstDue(t, env, j) && CutFrom(c, t, j, available)
      && next.down == sys.down + {c} && next.rx == sys.rx && next.up == sys.up
      && TxOrder.AfterScan(sys.tx, env).1
      && next.tx == Tx.WriteChunk(TxOrder.AfterScan(sys.tx, env).0, c, env)
  {
    RunInv(stream, isReliable, steps);
    hide Run;
    TxOrder.ScanFindsIff(sys.tx, env);
    var (h, found) := TxOrder.AfterScan(sys.tx, env);
    j := h.t.packetFifoIdx;
    SenderLaws.RoomIsEnough(h.t, available);
    c := Tx.NextChunk(h.t, available).value;
    DueInside(sys, env, j);
    hide Inv, TxOrder.HasWork, TxOrder.Due, Tx.NextChunk;
    SenderLaws.NextKind(h.t, available);
  }

  // A packet that is due has bytes to send, which fit the fields.
  lemma DueInside(sys: System, env: Tx.TxEnv, j: nat)
    requires Inv(sys) && j < |Tx.Process(sys.tx, env.now).t.fifo|
    requires !Tx.Process(sys.tx, env.now).t.fifo[j].isAcknowledged
    ensures var p := Tx.Process(sys.tx, env.now).t.fifo[j]; p.offset < |p.payload| <= UINT64_MAX
  {
    ProcessOffsets(sys.tx, env.now);
    TxOrder.ProcessConserved(sys.tx, sys.enq, env.now);
    var h := Tx.Process(sys.tx, env.now);
    assert OffsetInside(h.t.fifo[j]) && TxOrder.IsNth(h.t.fifo[j], |h.log| + j, sys.enq);
  }

  // ------------------------------------------------------------- what is missing is asked for

  // The request of the packet, and the packet after it.
  ghost predicate AsksFor(h: RxHalf, r: RxHalf, j: nat, c: Chunk, stream: byte, datagram: nat) {
    && j < |h.s.fifo| && h.s.fifo[j].isReliable && h.s.fifo[j].offsetRepeat != UINT64_MAX
    && c == Repeat(stream, h.s.fifo[j].id, h.s.fifo[j].offsetRepeat, h.s.fifo[j].sizeRepeat)
    && r.s.fifo == h.s.fifo[j := h.s.fifo[j].(offsetRepeat := UINT64_MAX, datagramId := datagram)]
    && r.acks == h.acks && r.log == h.log
  }

  /**
   With no acknowledgement waiting, room for a request and none in the datagram yet, a packet that
   lacks something is asked for, once.
   */
  lemma WantedIsAsked(sys: System, now: int, datagram: nat, available: nat) returns (j: nat, c: Chunk)
    requires HalfOk(sys.rx) && sys.rx.acks == [] && !sys.rx.s.isNew && available >= 22
    requires var fifo := Process(sys.rx, now).s.fifo;
      && (forall i :: 0 <= i < |fifo| ==> fifo[i].datagramId != datagram)
      && (exists i :: 0 <= i < |fifo| && fifo[i].isReliable && fifo[i].offsetRepeat != UINT64_MAX)
    ensures var next := Apply(sys, WriteRepeat(now, datagram, available));
      && AsksFor(Process(sys.rx, now), next.rx, j, c, sys.tx.t.stream, datagram)
      && next.up == sys.up + {c} && next.tx == sys.tx && next.down == sys.down
  {
    ProcessOk(sys.rx, now);
    var h := Process(sys.rx, now);
    assert exists i :: 0 <= i < |h.s.fifo| && h.s.fifo[i].NeedToSendRepeatInfo();
    hide Process;
    Requests.WantedIff(h.s, datagram);
    Requests.ScanRepeatIff(h.s, |h.s.fifo|, datagram);
    var (t, found) := ScanRepeat(h.s, |h.s.fifo|, datagram);
    j := t.packetIdx;
    c := RepeatOf(sys.tx.t.stream, t.fifo[t.packetIdx]);
    hide ScanRepeat, NumberOfBits, HalfOk;
  }

  /** A reliable piece whose begin chunk is missing leaves its packet asking for offset 0. */
  lemma MissingBeginIsWanted(sys: System, stream: byte, steps: seq<Step>, c: Chunk, env: RxEnv)
    requires Reachable(sys, stream, true, steps) && c in sys.down && c.Piece? && Reaches(sys.rx, c, env.now)
    requires FirstId(sys.rx, c, env.now) <= c.id && PacketFor(sys.rx, c, env.now, c.id).size == 0
    ensures var r := Apply(sys, ReadDown(c, env)).rx;
      var i := c.id - FirstId(sys.rx, c, env.now);
      && i < |r.s.fifo| && r.s.fifo[i].id == c.id && r.s.fifo[i].NeedToSendRepeatInfo()
      && r.s.fifo[i].offsetRepeat == 0
  {
    hide Run, Apply, ReadData, HalfOk;
    OnTheWay(sys, stream, steps, c);
    ReadIsStep(sys, c, env);
    PieceMoves(sys.rx, c, env);
    PacketForId(sys.rx, c, env.now);
  }

  lemma OnTheWay(sys: System, stream: byte, steps: seq<Step>, c: Chunk)
    requires Reachable(sys, stream, true, steps) && c in sys.down
    ensures c.IsData() && c.id < QUARTER && c.reliable && HalfOk(sys.rx)
  {
    RunInv(stream, true, steps);
    StreamConstant(stream, true, steps);
    hide Run;
    assert DownOk(c, sys.tx, sys.enq);
  }

  lemma PacketForId(h: RxHalf, c: Chunk, now: int)
    requires HalfOk(h) && c.IsData() && FirstId(h, c, now) <= c.id
    ensures PacketFor(h, c, now, c.id).id == c.id
  {
  }

  /** A request from offset 0 makes the sender start the packet again, whole or with a begin chunk. */
  lemma RequestRestarts(sys: System, stream: byte, steps: seq<Step>, i: nat, size: nat, now: int)
    requires Reachable(sys, stream, true, steps) && i < |sys.tx.t.fifo|
    requires Repeat(stream, sys.tx.t.fifo[i].id, 0, size) in sys.up
    ensures var next := Apply(sys, ReadUp(Repeat(stream, sys.tx.t.fifo[i].id, 0, size), now));
      && |next.tx.t.fifo| == |sys.tx.t.fifo| && next.tx.t.fifo[i].offset == 0 && !next.tx.t.fifo[i].isStarted
      && forall c, available :: SenderLaws.CutOf(c, next.tx.t.fifo[i], available) ==> c.Small? || c.Begin?
  {
    hide Run, Apply, TxOrder.Conserved, Tx.ReadRepeat;
    QueueKnown(sys, stream, steps, i);
    SenderLaws.RepeatMoves(sys.tx, sys.enq, i, 0);
    ReadUpIsStep(sys, Repeat(stream, sys.tx.t.fifo[i].id, 0, size), now);
  }

  lemma QueueKnown(sys: System, stream: byte, steps: seq<Step>, i: nat)
    requires Reachable(sys, stream, true, steps) && i < |sys.tx.t.fifo|
    ensures TxOrder.Conserved(sys.tx, sys.enq) && |sys.tx.t.fifo| <= QUARTER
    ensures sys.tx.t.stream == stream && sys.tx.t.fifo[i].isReliable
  {
    RunInv(stream, true, steps);
    StreamConstant(stream, true, steps);
    hide Run;
  }

  // ------------------------------------------------------------------ one round trip

  function Acks(n: nat): seq<Step> {
    if n == 0 then [] else Acks(n - 1) + [WriteAck]
  }

  lemma OneAck(sys: System)
    requires sys.rx.acks != []
    ensures Apply(sys, WriteAck) ==
      sys.(rx := sys.rx.(acks := sys.rx.acks[1..]), up := sys.up + {Ack(sys.rx.acks[0].0, sys.rx.acks[0].1)})
  {
  }

  lemma AcksStep(sys: System, n: nat)
    ensures Run(sys, Acks(n + 1)) == Apply(Run(sys, Acks(n)), WriteAck)
  {
    hide Apply;
    var all := Acks(n + 1);
    assert all[..|all| - 1] == Acks(n) && all[|all| - 1] == WriteAck;
  }

  // The first n acknowledgements are on the wire.
  ghost predicate Drained(sys: System, r: System, n: nat)
    requires n <= |sys.rx.acks|
  {
    && r == sys.(rx := sys.rx.(acks := sys.rx.acks[n..]), up := r.up)
    && forall i :: 0 <= i < n ==> Ack(sys.rx.acks[i].0, sys.rx.acks[i].1) in r.up
  }

  lemma DrainStep(sys: System, m: System, n: nat)
    requires n < |sys.rx.acks| && Drained(sys, m, n)
    ensures Drained(sys, Apply(m, WriteAck), n + 1)
  {
    OneAck(m);
    hide Apply;
    assert sys.rx.acks[n..][1..] == sys.rx.acks[n + 1..] && m.rx.acks[0] == sys.rx.acks[n];
  }

  lemma {:induction false} Drain(sys: System, n: nat)
    requires n <= |sys.rx.acks|
    ensures Drained(sys, Run(sys, Acks(n)), n)
  {
    hide Apply;
    if n == 0 {
      assert Acks(0) == [] && Run(sys, []) == sys && sys.rx.acks[0..] == sys.rx.acks;
    } else {
      Drain(sys, n - 1);
      AcksStep(sys, n - 1);
      hide Run, Acks;
      DrainStep(sys, Run(sys, Acks(n - 1)), n - 1);
    }
  }

  // The oldest packet is due, the scan starts at it, and it fits into one chunk.
  ghost predicate OldestDue(sys: System, env: Tx.TxEnv, available: nat) {
    var t := Tx.Process(sys.tx, env.now).t;
    && TxOrder.FirstDue(t, env, 0) && !t.fifo[0].isStarted
    && 18 <= available <= 0xFFFF && CHUNK_HEADER_B + Width(|t.fifo[0].payload|) + |t.fifo[0].payload| <= available
  }

  // A reliable small packet stays in the queue, marked, when it is written.
  lemma SmallStays(h: Tx.TxHalf, c: Chunk, env: Tx.TxEnv)
    requires h.t.packetFifoIdx == 0 < |h.t.fifo| && c.Small? && h.t.fifo[0].isReliable && !h.t.fifo[0].isAcknowledged
    ensures var r := Tx.WriteChunk(h, c, env);
      && r.log == h.log && r.t.stream == h.t.stream && r.t.fifo != []
      && r.t.fifo[0].id == h.t.fifo[0].id && r.t.fifo[0].payload == h.t.fifo[0].payload
  {
  }

  // The oldest packet is the one the log reports next.
  lemma OldestIsNext(sys: System, now: int)
    requires Inv(sys) && Tx.Process(sys.tx, now).t.fifo != []
    ensures var h := Tx.Process(sys.tx, now);
      && h.t.fifo[0].id == |h.log| < QUARTER && h.t.fifo[0].isReliable == sys.tx.t.isReliable
      && h.t.stream == sys.tx.t.stream
  {
    TxOrder.ProcessConserved(sys.tx, sys.enq, now);
    var h := Tx.Process(sys.tx, now);
    assert TxOrder.IsNth(h.t.fifo[0], |h.log| + 0, sys.enq);
  }

  lemma ScanKeepsQueue(h: Tx.TxHalf, env: Tx.TxEnv)
    ensures var p, r := Tx.Process(h, env.now), TxOrder.AfterScan(h, env).0;
      r.log == p.log && r.t.fifo == p.t.fifo && r.t.stream == p.t.stream
  {
    hide Tx.Process;
  }

  // What the first offer leaves: the chunk on the wire, and the packet still the oldest.
  ghost predicate FirstSent(sys: System, next: System, c: Chunk, stream: byte, k: nat, payload: seq<byte>) {
    && c == Small(stream, k, true, true, payload) && k < QUARTER
    && next.down == sys.down + {c} && next.rx == sys.rx && next.up == sys.up
    && |next.tx.log| == k && next.tx.t.fifo != [] && next.tx.t.stream == stream
    && next.tx.t.fifo[0].id == k && next.tx.t.fifo[0].payload == payload
  }

  lemma SmallIsSent(sys: System, stream: byte, steps: seq<Step>, env: Tx.TxEnv, available: nat) returns (c: Chunk)
    requires Reachable(sys, stream, true, steps) && OldestDue(sys, env, available)
    ensures var h := Tx.Process(sys.tx, env.now);
      FirstSent(sys, Apply(sys, Offer(env, available)), c, stream, |h.log|, h.t.fifo[0].payload)
  {
    var h := Tx.Process(sys.tx, env.now);
    hide Run, Tx.Process, Inv, Apply, TxOrder.AfterScan, Tx.WriteChunk;
    assert TxOrder.HasWork(h.t, env);
    var j;
    j, c := DueIsSent(sys, stream, true, steps, env, available);
    StreamConstant(stream, true, steps);
    RunInv(stream, true, steps);
    OldestIsNext(sys, env.now);
    ScanKeepsQueue(sys.tx, env);
    TxOrder.ScanFindsIff(sys.tx, env);
    assert j == 0;
    SmallStays(TxOrder.AfterScan(sys.tx, env).0, c, env);
  }

  // Any reliable small chunk is answered by a receiver with room in its queue.
  lemma SmallIsAnswered(h: RxHalf, c: Chunk, env: RxEnv)
    requires HalfOk(h) && c.Small? && c.reliable && c.id < QUARTER && |Queue(h, env.now)| < 32767
    ensures var acks := ReadData(h, c, env).acks; acks != [] && acks[|acks| - 1] == (c.stream, c.id)
  {
    ReadDataAnswersIff(h, c, env);
    hide ReadData;
  }

  // The steps of a round trip: the chunk, its acknowledgement behind those already waiting, and its report.
  function RoundTrip(env: Tx.TxEnv, available: nat, c: Chunk, rxEnv: RxEnv, acks: nat, now: int): seq<Step> {
    [Offer(env, available), ReadDown(c, rxEnv)] + (Acks(acks) + [ReadUp(Ack(c.stream, c.id), now)])
  }

  /**
   From every reachable state of a reliable stream in which the oldest packet is due and fits one
   chunk, and the receiver's queue has room, one round trip without loss reports it as 's'.
   */
  lemma OneRoundTrip(sys: System, stream: byte, steps: seq<Step>, env: Tx.TxEnv, available: nat, rxEnv: RxEnv, now: int)
    returns (c: Chunk, acks: nat)
    requires Reachable(sys, stream, true, steps) && OldestDue(sys, env, available)
    requires |Queue(sys.rx, rxEnv.now)| < 32767
    ensures var h := Tx.Process(sys.tx, env.now);
      var r := Run(sys, RoundTrip(env, available, c, rxEnv, acks, now));
      |r.tx.log| > |h.log| && r.tx.log[|h.log|] == Tx.TxEvent(|h.log|, h.t.fifo[0].payload, 's')
  {
    var h := Tx.Process(sys.tx, env.now);
    c := SmallIsSent(sys, stream, steps, env, available);
    var s1 := Apply(sys, Offer(env, available));
    var s2 := Apply(s1, ReadDown(c, rxEnv));
    acks := |s2.rx.acks|;
    var s3 := Run(s2, Acks(acks));
    var s4 := Apply(s3, ReadUp(Ack(c.stream, c.id), now));
    RunInv(stream, true, steps);
    TripIsRun(sys, env, available, c, rxEnv, acks, now);
    AnswerComes(sys, s1, c, rxEnv, stream, |h.log|, h.t.fifo[0].payload);
    OfferConserved(sys, env, available);
    hide Run, Apply, Tx.Process, Inv, TxOrder.Conserved;
    ReportComes(s3, sys.enq, c, now);
  }

  lemma TripIsRun(sys: System, env: Tx.TxEnv, available: nat, c: Chunk, rxEnv: RxEnv, acks: nat, now: int)
    ensures var s2 := Apply(Apply(sys, Offer(env, available)), ReadDown(c, rxEnv));
      Run(sys, RoundTrip(env, available, c, rxEnv, acks, now))
      == Apply(Run(s2, Acks(acks)), ReadUp(Ack(c.stream, c.id), now))
  {
    hide Apply;
    var first := [Offer(env, available), ReadDown(c, rxEnv)];
    var last := [ReadUp(Ack(c.stream, c.id), now)];
    RunJoin(sys, first, Acks(acks) + last);
    RunJoin(sys, first[..1], first[1..]);
    assert first[..1] + first[1..] == first;
    hide Run;
    RunOne(sys, Offer(env, available));
    RunOne(Apply(sys, Offer(env, available)), ReadDown(c, rxEnv));
    var s2 := Run(sys, first);
    RunJoin(s2, Acks(acks), last);
    RunOne(Run(s2, Acks(acks)), last[0]);
  }

  lemma AnswerComes(sys: System, s1: System, c: Chunk, rxEnv: RxEnv, stream: byte, k: nat, payload: seq<byte>)
    requires Inv(sys) && FirstSent(sys, s1, c, stream, k, payload) && |Queue(sys.rx, rxEnv.now)| < 32767
    ensures var s2 := Apply(s1, ReadDown(c, rxEnv));
      var s3 := Run(s2, Acks(|s2.rx.acks|));
      s3.tx == s1.tx && Ack(stream, k) in s3.up
  {
    var s2 := Apply(s1, ReadDown(c, rxEnv));
    assert s2.rx == ReadData(sys.rx, c, rxEnv) && s2.tx == s1.tx;
    SmallIsAnswered(sys.rx, c, rxEnv);
    var n := |s2.rx.acks|;
    hide Apply, Inv, ReadData, Run;
    Drain(s2, n);
    var s3 := Run(s2, Acks(n));
    assert s3.tx == s2.tx;
    assert s2.rx.acks[n - 1] == (stream, k);
    assert Ack(stream, k) in s3.up;
  }

  lemma OfferConserved(sys: System, env: Tx.TxEnv, available: nat)
    requires Inv(sys)
    ensures TxOrder.Conserved(Apply(sys, Offer(env, available)).tx, sys.enq)
  {
    TxOrder.AfterScanConserved(sys.tx, sys.enq, env);
    var (h, found) := TxOrder.AfterScan(sys.tx, env);
    if found && Tx.NextChunk(h.t, available).Some? {
      TxOrder.WriteChunkConserved(h, sys.enq, Tx.NextChunk(h.t, available).value, env);
    }
  }

  lemma ReportComes(sys: System, enq: seq<seq<byte>>, c: Chunk, now: int)
    requires TxOrder.Conserved(sys.tx, enq) && |enq| <= QUARTER && sys.tx.t.fifo != []
    requires c.stream == sys.tx.t.stream && c.id == sys.tx.t.fifo[0].id && Ack(c.stream, c.id) in sys.up
    ensures var r := Apply(sys, ReadUp(Ack(c.stream, c.id), now));
      && |r.tx.log| > |sys.tx.log|
      && r.tx.log[|sys.tx.log|] == Tx.TxEvent(c.id, sys.tx.t.fifo[0].payload, 's')
  {
    SenderLaws.AckReports(sys.tx, enq, now);
    hide Tx.ReadAck, TxOrder.Conserved;
  }
}
