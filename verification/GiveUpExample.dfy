/**
 The other exception of acknowledgement soundness is real too: a concrete run in which the
 receiver times a packet out, and a late copy of it is acknowledged all the same.
 */
module GiveUpExample {
  import opened Common
  import opened Chunks
  import opened RxModel
  import opened Protocol
  import GapExample
  import Tx = TxModel
  import TxOrder

  const FIRST := Small(3, 0, true, true, [7])
  const SECOND := Small(3, 1, true, false, [8])
  // RTT_us is 1000. A placeholder waits 50000, a packet 200 round trips.
  const TX_ENV := Tx.TxEnv(10000, 2000, 1)
  const EARLY := RxEnv(20000, 200000, 100)
  const LATE := RxEnv(80000, 200000, 100)

  // The second packet overtakes the first, which comes after the receiver stopped waiting.
  const SENDING: seq<Step> := [
    Send([7], 1000000), Send([8], 1000000), Offer(TX_ENV, 20), Offer(TX_ENV, 12), ReadDown(SECOND, EARLY)]
  const READING: seq<Step> := [
    ReadDown(SECOND, LATE), ReadDown(FIRST, LATE), WriteAck, WriteAck, ReadUp(Ack(3, 0), 90000)]

  // A queued packet, before and after it was written.
  function Queued(id: nat, payload: seq<byte>, written: bool): Tx.TxPacket {
    Tx.TxPacket(id, payload, 0, 1000000, if written then 10000 else 0, if written then 1 else UINT64_MAX, true, false, false)
  }

  function Sender(first: bool, second: bool, idx: nat, returnTime: int): Tx.TxHalf {
    Tx.TxHalf(Tx.TxState([Queued(0, [7], first), Queued(1, [8], second)], idx, 2, returnTime, 3, true), [])
  }

  lemma OfferFirst()
    ensures TxOrder.AfterScan(Sender(false, false, 0, 0), TX_ENV) == (Sender(false, false, 0, 12000), true)
    ensures Tx.NextChunk(Sender(false, false, 0, 12000).t, 20) == Some(FIRST)
    ensures Tx.WriteChunk(Sender(false, false, 0, 12000), FIRST, TX_ENV) == Sender(true, false, 0, 12000)
  {
  }

  lemma OfferSecond()
    ensures TxOrder.AfterScan(Sender(true, false, 0, 12000), TX_ENV) == (Sender(true, false, 1, 12000), true)
    ensures Tx.NextChunk(Sender(true, false, 1, 12000).t, 12) == Some(SECOND)
    ensures Tx.WriteChunk(Sender(true, false, 1, 12000), SECOND, TX_ENV) == Sender(true, true, 1, 12000)
  {
    var h := Sender(true, false, 0, 12000);
    assert Tx.Process(h, 10000) == h;
    assert Tx.Skipped(h.t.fifo[0], TX_ENV);
    assert Tx.ScanFrom(h.t, 0, TX_ENV) == Tx.ScanFrom(h.t.(packetFifoIdx := 1), 1, TX_ENV);
  }

  function Waiting(): RxPacket {
    Blank(0, 20000, false)
  }

  function Ready(timeout: int): RxPacket {
    Blank(1, 20000, false).(timeout := timeout, isReceived := true, size := 1, copy := [8])
  }

  function Holding(timeout: int): RxHalf {
    RxHalf(RxState([Waiting(), Ready(timeout)], 0, UINT64_MAX, false, false), [(3, 1)], [])
  }

  lemma ReadSecond()
    ensures ReadData(RxHalf(NEW_STREAM, [], []), SECOND, EARLY) == Holding(220000)
  {
  }

  // Both packets have left the queue, the first one undelivered.
  function GaveUp(acks: seq<(byte, nat)>): RxHalf {
    RxHalf(RxState([], 2, UINT64_MAX - 2, false, false), acks, [TimedOut(0), Delivered(1, 1, Some([8]))])
  }

  lemma TimeOut()
    ensures Process(Holding(280000), 80000) == GaveUp([(3, 1)])
  {
  }

  lemma ReadSecondAgain()
    ensures ReadData(Holding(220000), SECOND, LATE) == GaveUp([(3, 1)])
  {
    var h := Holding(220000);
    assert Open(h, 80000) == h && Advance(h, false, 1) == h;
    assert Lookup(h, 80000, 1) == h;
    assert IndexOf(h.s.fifo, 1) == 1;
    assert StoreSmall(h, 1, 1, [8], 280000) == Holding(280000);
    TimeOut();
  }

  lemma ReadFirst()
    ensures ReadData(GaveUp([(3, 1)]), FIRST, LATE) == GaveUp([(3, 1), (3, 0)])
  {
  }

  lemma Acknowledged(tx: Tx.TxHalf)
    requires tx == Sender(true, true, 1, 12000)
    ensures Tx.ReadAck(tx, 0, 90000).log == [Tx.TxEvent(0, [7], 's')]
  {
    var w := Tx.SetPacket(tx, 0, tx.t.fifo[0].(isAcknowledged := true));
    var one := Tx.PopOnce(w);
    assert one.t.fifo == [Queued(1, [8], true)];
    assert Tx.Process(one, 90000) == one;
    assert Tx.Process(w, 90000) == one;
  }

  lemma Sending()
    ensures Run(Init(3, true), SENDING) ==
      System(Sender(true, true, 1, 12000), Holding(220000), {FIRST, SECOND}, {}, [[7], [8]],
             Run(Init(3, true), SENDING).gaps)
  {
    hide ReadData, GapsAfter, TxOrder.AfterScan, Tx.NextChunk, Tx.WriteChunk, Run;
    OfferFirst();
    OfferSecond();
    ReadSecond();
    GapExample.RunFive(Init(3, true), SENDING);
    var s2 := Apply(Apply(Init(3, true), SENDING[0]), SENDING[1]);
    assert s2.tx == Sender(false, false, 0, 0) && s2.enq == [[7], [8]];
  }

  /** 's' at the sender does not mean delivered: the packet is acknowledged after the receiver gave it up. */
  lemma AcknowledgedNotDelivered()
    ensures var sys := Run(Init(3, true), SENDING + READING);
      && sys.tx.log == [Tx.TxEvent(0, [7], 's')]
      && sys.rx.log == [TimedOut(0), Delivered(1, 1, Some([8]))]
  {
    hide ReadData, GapsAfter, Tx.ReadAck, Run;
    Sending();
    ReadSecondAgain();
    ReadFirst();
    Acknowledged(Sender(true, true, 1, 12000));
    RunJoin(Init(3, true), SENDING, READING);
    GapExample.RunFive(Run(Init(3, true), SENDING), READING);
  }
}
