/**
 The one way a reliable stream can deliver wrong bytes: a concrete run in which a piece is
 lost, its successor arrives twice, and the packet is reported 's' with zeros in the hole; and
 the same run on a receiver that does not buffer, where the hole is left out of the pieces.
 */
module GapExample {
  import opened Common
  import opened Chunks
  import opened RxModel
  import opened Protocol
  import Tx = TxModel

  const PAYLOAD: seq<byte> := [7, 7, 7, 7, 7]
  const BEGIN := Begin(3, 0, true, true, 5)
  const PIECE0 := Piece(3, 0, true, true, 0, [7, 7])
  const PIECE2 := Piece(3, 0, true, true, 2, [7, 7])
  const PIECE4 := Piece(3, 0, true, true, 4, [7])

  // RTT_us is 1000. Each datagram has 11 bytes left behind the chunks of other streams, which
  // splits the packet into a begin chunk and three pieces.
  const RTT2: nat := 2000
  const NOW: int := 10000
  const SENDING: seq<Step> := [
    Send(PAYLOAD, 1000000),
    Offer(Tx.TxEnv(NOW, RTT2, 1), 11), Offer(Tx.TxEnv(NOW, RTT2, 2), 11),
    Offer(Tx.TxEnv(NOW, RTT2, 3), 11), Offer(Tx.TxEnv(NOW, RTT2, 4), 11)]

  // A receiver that buffers up to 100 bytes, and one that buffers nothing.
  const BUFFERING := RxEnv(NOW, 100 * RTT2, 100)
  const PASSING := RxEnv(NOW, 100 * RTT2, 0)

  function Reading(env: RxEnv): seq<Step> {
    [ReadDown(BEGIN, env), ReadDown(PIECE2, env), ReadDown(PIECE2, env), ReadDown(PIECE4, env)]
  }

  function Queued(offset: nat, isStarted: bool, begin: int, datagram: nat): Tx.TxPacket {
    Tx.TxPacket(0, PAYLOAD, offset, 1000000, begin, datagram, true, false, isStarted)
  }

  function SenderWith(p: Tx.TxPacket, returnTime: int): Tx.TxHalf {
    Tx.TxHalf(Tx.TxState([p], 0, 1, returnTime, 3, true), [])
  }

  // One offer to a sender that holds just this packet.
  lemma OfferOne(sys: System, p: Tx.TxPacket, returnTime: int, datagram: nat, c: Chunk)
    requires sys.tx == SenderWith(p, returnTime) && returnTime in {0, NOW + RTT2}
    requires p.timeout == 1000000 && !p.isAcknowledged && !Tx.Skipped(p, Tx.TxEnv(NOW, RTT2, datagram))
    requires Tx.NextChunk(sys.tx.t.(fifoReturnTime := NOW + RTT2), 11) == Some(c)
    requires !Tx.Written(p, c, Tx.TxEnv(NOW, RTT2, datagram)).isAcknowledged
    ensures Apply(sys, Offer(Tx.TxEnv(NOW, RTT2, datagram), 11)) ==
      sys.(tx := SenderWith(Tx.Written(p, c, Tx.TxEnv(NOW, RTT2, datagram)), NOW + RTT2), down := sys.down + {c})
  {
    var env := Tx.TxEnv(NOW, RTT2, datagram);
    assert Tx.Process(sys.tx, NOW) == sys.tx;
    assert Tx.ScanFrom(sys.tx.t, 0, env) == (sys.tx.t.(fifoReturnTime := NOW + RTT2), true);
    assert [p][0 := Tx.Written(p, c, env)] == [Tx.Written(p, c, env)];
  }

  lemma OfferBegin(sys: System)
    requires sys.tx == SenderWith(Queued(0, false, 0, UINT64_MAX), 0)
    ensures Apply(sys, SENDING[1]) ==
      sys.(tx := SenderWith(Queued(0, true, NOW, UINT64_MAX), NOW + RTT2), down := sys.down + {BEGIN})
  {
    OfferOne(sys, Queued(0, false, 0, UINT64_MAX), 0, 1, BEGIN);
  }

  // The packet has been started; the next piece is cut at its offset.
  lemma OfferPiece(sys: System, offset: nat, last: nat, datagram: nat, c: Chunk)
    requires sys.tx == SenderWith(Queued(offset, true, NOW, last), NOW + RTT2)
    requires last != datagram && offset in {0, 2, 4}
    requires c == Piece(3, 0, true, true, offset, if offset == 4 then [7] else [7, 7])
    ensures var r := Apply(sys, Offer(Tx.TxEnv(NOW, RTT2, datagram), 11));
      && r.down == sys.down + {c} && r.enq == sys.enq && r.rx == sys.rx
      && (offset < 4 ==> r.tx == SenderWith(Queued(offset + 2, true, NOW, datagram), NOW + RTT2))
  {
    var p := Queued(offset, true, NOW, last);
    assert p.payload[offset..offset + |c.data|] == c.data;
    OfferOne(sys, p, NOW + RTT2, datagram, c);
  }

  lemma Sending()
    ensures var sys := Run(Init(3, true), SENDING);
      sys.down == {BEGIN, PIECE0, PIECE2, PIECE4} && sys.rx == RxHalf(NEW_STREAM, [], []) && sys.enq == [PAYLOAD]
  {
    hide OfferStep, Run;
    var s1 := Apply(Init(3, true), SENDING[0]);
    OfferBegin(s1);
    var s2 := Apply(s1, SENDING[1]);
    OfferPiece(s2, 0, UINT64_MAX, 2, PIECE0);
    var s3 := Apply(s2, SENDING[2]);
    OfferPiece(s3, 2, 2, 3, PIECE2);
    var s4 := Apply(s3, SENDING[3]);
    OfferPiece(s4, 4, 3, 4, PIECE4);
    RunFive(Init(3, true), SENDING);
  }

  lemma RunFive(sys: System, steps: seq<Step>)
    requires |steps| == 5
    ensures Run(sys, steps) ==
      Apply(Apply(Apply(Apply(Apply(sys, steps[0]), steps[1]), steps[2]), steps[3]), steps[4])
  {
    RunFour(sys, steps[..4]);
  }

  lemma RunFour(sys: System, steps: seq<Step>)
    requires |steps| == 4
    ensures Run(sys, steps) == Apply(Apply(Apply(Apply(sys, steps[0]), steps[1]), steps[2]), steps[3])
  {
    var three := steps[..3];
    var two := three[..2];
    var one := two[..1];
    assert one[..0] == [];
    assert Run(sys, one) == Apply(sys, steps[0]);
    assert Run(sys, two) == Apply(Run(sys, one), steps[1]);
    assert Run(sys, three) == Apply(Run(sys, two), steps[2]);
  }

  function Received(copy: seq<byte>, offset: nat, repeat: nat): RxPacket {
    RxPacket(0, copy, 5, offset, 0, repeat, NOW + 100 * RTT2, UINT64_MAX, true, false)
  }

  function HalfWith(p: RxPacket, log: seq<RxEvent>): RxHalf {
    RxHalf(RxState([p], 0, UINT64_MAX, false, false), [], log)
  }

  // The first chunk opens the stream and sizes the packet.
  lemma ReadFirst(env: RxEnv, copy: seq<byte>)
    requires env in {BUFFERING, PASSING} && copy == if env == BUFFERING then [0, 0, 0, 0, 0] else []
    ensures ReadData(RxHalf(NEW_STREAM, [], []), BEGIN, env) == HalfWith(Received(copy, 0, UINT64_MAX), [])
  {
    var o := Open(RxHalf(NEW_STREAM, [], []), NOW);
    assert o == HalfWith(Blank(0, NOW, false), []);
    assert Lookup(o, NOW, 0) == o;
    assert Resized([], 5) == [0, 0, 0, 0, 0];
    assert BeginPacket(o.s.fifo[0], BEGIN, env) == Received(copy, 0, UINT64_MAX);
  }

  // A piece for the only packet of a queue that is open.
  lemma ReadNext(p: RxPacket, log: seq<RxEvent>, c: Chunk, env: RxEnv)
    requires p.id == 0 && c.Piece? && c.id == 0 && env in {BUFFERING, PASSING}
    ensures ReadData(HalfWith(p, log), c, env) == PlaceAt(HalfWith(p, log), 0, c, env)
  {
    var h := HalfWith(p, log);
    assert Open(h, NOW) == h && Advance(h, c.front, 0) == h;
    assert Lookup(h, NOW, 0) == h;
  }

  lemma ReadSecond(env: RxEnv, copy: seq<byte>)
    requires env in {BUFFERING, PASSING}
    ensures ReadData(HalfWith(Received(copy, 0, UINT64_MAX), []), PIECE2, env) == HalfWith(Received(copy, 2, 2), [])
  {
    ReadNext(Received(copy, 0, UINT64_MAX), [], PIECE2, env);
  }

  lemma ReadThird()
    ensures ReadData(HalfWith(Received([0, 0, 0, 0, 0], 2, 2), []), PIECE2, BUFFERING)
      == HalfWith(Received([0, 0, 7, 7, 0], 4, 2), [])
  {
    ReadNext(Received([0, 0, 0, 0, 0], 2, 2), [], PIECE2, BUFFERING);
    assert Overwritten([0, 0, 0, 0, 0], 2, [7, 7]) == [0, 0, 7, 7, 0];
  }

  lemma ReadThirdPassing()
    ensures ReadData(HalfWith(Received([], 2, 2), []), PIECE2, PASSING)
      == HalfWith(Received([], 4, 2), [PieceOf(0, 2, [7, 7])])
  {
    ReadNext(Received([], 2, 2), [], PIECE2, PASSING);
  }

  // The last piece completes the packet, which is the front of the queue.
  lemma Complete(h: RxHalf, p: RxPacket, log: seq<RxEvent>)
    requires h == HalfWith(p, log).(acks := [(3, 0)]) && p.id == 0 && p.isReceived
    ensures Process(h, NOW).log == log + [PopEvent(h.s)]
  {
    assert PopOnce(h).s.fifo == [];
    assert Process(h, NOW) == PopOnce(h);
  }

  // It is stored, acknowledged, and followed by a pass.
  lemma ReadLast(p: RxPacket, q: RxPacket, log: seq<RxEvent>, log': seq<RxEvent>, env: RxEnv)
    requires p.id == 0 && p.isReliable && env in {BUFFERING, PASSING} && PieceCompletes(p, 0, PIECE4)
    requires q == PiecePacket(Stamped(p, env), 0, PIECE4) && q.id == 0 && q.isReceived
    requires log' == if Verdict(Stamped(p, env), 0, PIECE4).Pass? then log + [PieceOf(0, 4, [7])] else log
    ensures ReadData(HalfWith(p, log), PIECE4, env).log == log' + [PopEvent(HalfWith(q, log').s)]
  {
    ReadNext(p, log, PIECE4, env);
    hide Process, PiecePacket, PieceCompletes, ReadData;
    var h := HalfWith(q, log').(acks := [(3, 0)]);
    assert StorePiece(HalfWith(p, log), 0, PIECE4, env) == HalfWith(q, log');
    hide StorePiece;
    assert PushAck(HalfWith(q, log'), 3, 0) == h;
    assert PlaceAt(HalfWith(p, log), 0, PIECE4, env) == Process(h, NOW);
    Complete(h, q, log');
  }

  lemma ReadFourth()
    ensures ReadData(HalfWith(Received([0, 0, 7, 7, 0], 4, 2), []), PIECE4, BUFFERING).log
      == [Delivered(0, 5, Some([0, 0, 7, 7, 7]))]
  {
    var p := Received([0, 0, 7, 7, 0], 4, 2);
    assert Overwritten(p.copy, 4, [7]) == [0, 0, 7, 7, 7];
    hide ReadData;
    ReadLast(p, p.(copy := [0, 0, 7, 7, 7], offset := 5, isReceived := true), [], [], BUFFERING);
  }

  lemma ReadFourthPassing()
    ensures ReadData(HalfWith(Received([], 4, 2), [PieceOf(0, 2, [7, 7])]), PIECE4, PASSING).log
      == [PieceOf(0, 2, [7, 7]), PieceOf(0, 4, [7]), Delivered(0, 5, None)]
  {
    var p, log := Received([], 4, 2), [PieceOf(0, 2, [7, 7])];
    hide ReadData;
    ReadLast(p, p.(offset := 5, isReceived := true), log, log + [PieceOf(0, 4, [7])], PASSING);
  }

  /** Payload integrity is false without its hypothesis: five sevens are sent, zeros are delivered. */
  lemma GapDeliversZeros()
    ensures var sys := Run(Init(3, true), SENDING + Reading(BUFFERING));
      sys.enq == [PAYLOAD] && sys.rx.log == [Delivered(0, 5, Some([0, 0, 7, 7, 7]))]
  {
    hide ReadData, GapsAfter, Run;
    Sending();
    RunJoin(Init(3, true), SENDING, Reading(BUFFERING));
    RunFour(Run(Init(3, true), SENDING), Reading(BUFFERING));
    ReadFirst(BUFFERING, [0, 0, 0, 0, 0]);
    ReadSecond(BUFFERING, [0, 0, 0, 0, 0]);
    ReadThird();
    ReadFourth();
  }

  /** Without a buffer the same run reports 's' after pieces that leave out the first two bytes. */
  lemma GapLeavesAHole()
    ensures var sys := Run(Init(3, true), SENDING + Reading(PASSING));
      && sys.enq == [PAYLOAD]
      && sys.rx.log == [PieceOf(0, 2, [7, 7]), PieceOf(0, 4, [7]), Delivered(0, 5, None)]
  {
    hide ReadData, GapsAfter, Run;
    Sending();
    RunJoin(Init(3, true), SENDING, Reading(PASSING));
    RunFour(Run(Init(3, true), SENDING), Reading(PASSING));
    ReadFirst(PASSING, []);
    ReadSecond(PASSING, []);
    ReadThirdPassing();
    ReadFourthPassing();
  }
}
