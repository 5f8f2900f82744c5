/**
 What a connection does to one of its streams is a step, or a list of steps, of the
 two-endpoint model: it sends one end of the stream and leaves the other end alone.
 */
module Refinement {
  import opened Common
  import opened Chunks
  import opened Filling
  import opened Selection
  import opened Requests
  import opened Protocol
  import Incoming
  import Outgoing
  import Rx = RxModel
  import Tx = TxModel
  import TxOrder

  // ------------------------------------------------------------------ sending

  // The steps take the sender from a to b and put exactly the chunks on the wire.
  ghost predicate Sends(a: Tx.TxHalf, b: Tx.TxHalf, steps: seq<Step>, out: set<Chunk>) {
    forall sys: System :: sys.tx == a ==> Run(sys, steps) == sys.(tx := b, down := sys.down + out)
  }

  ghost predicate SendRun(a: Tx.TxHalf, b: Tx.TxHalf, out: set<Chunk>) {
    exists steps :: Sends(a, b, steps, out)
  }

  lemma SendNothing(a: Tx.TxHalf)
    ensures SendRun(a, a, {})
  {
    assert Sends(a, a, [], {});
  }

  lemma SendThen(a: Tx.TxHalf, b: Tx.TxHalf, c: Tx.TxHalf, out: set<Chunk>, more: set<Chunk>)
    requires SendRun(a, b, out) && SendRun(b, c, more)
    ensures SendRun(a, c, out + more)
  {
    var s :| Sends(a, b, s, out);
    var t :| Sends(b, c, t, more);
    assert Sends(a, c, s + t, out + more) by {
      hide Run;
      forall sys: System | sys.tx == a
        ensures Run(sys, s + t) == sys.(tx := c, down := sys.down + (out + more))
      {
        RunJoin(sys, s, t);
        assert sys.down + out + more == sys.down + (out + more);
      }
    }
  }

  lemma ScanIsStep(a: Tx.TxHalf, env: Tx.TxEnv)
    ensures SendRun(a, TxOrder.AfterScan(a, env).0, {})
  {
    var b := TxOrder.AfterScan(a, env).0;
    hide TxOrder.AfterScan;
    forall sys: System | sys.tx == a
      ensures Run(sys, [Scan(env)]) == sys.(tx := b, down := sys.down + {})
    {
      RunOne(sys, Scan(env));
    }
    assert Sends(a, b, [Scan(env)], {});
  }

  lemma OfferIsStep(a: Tx.TxHalf, c: Option<Chunk>, available: nat, env: Tx.TxEnv)
    requires TxOrder.AfterScan(a, env).1 && c == Tx.NextChunk(TxOrder.AfterScan(a, env).0.t, available)
    ensures SendRun(a, AfterCut(TxOrder.AfterScan(a, env).0, available, env), set d | d in ListOf(c))
  {
    var b := AfterCut(TxOrder.AfterScan(a, env).0, available, env);
    hide TxOrder.AfterScan, Tx.NextChunk, Tx.WriteChunk;
    var out := set d | d in ListOf(c);
    forall sys: System | sys.tx == a
      ensures Run(sys, [Offer(env, available)]) == sys.(tx := b, down := sys.down + out)
    {
      RunOne(sys, Offer(env, available));
    }
    assert Sends(a, b, [Offer(env, available)], out);
  }

  // The chunks of one stream among those written.
  function DataOf(cs: seq<Chunk>, id: byte): set<Chunk> {
    set c | c in cs && c.IsData() && c.stream == id
  }

  /**
   writeDataChunk is an offer to the stream it chose, which puts the chunk on the wire, and a
   scan or nothing to every other stream.
   */
  lemma DataChunkIsStep(was: TxMap, tx: TxMap, choice: Option<(nat, byte)>, c: Option<Chunk>,
                        available: nat, env: Tx.TxEnv, id: byte)
    requires Outcome(was, tx, choice, c, available, env) && id in was
    requires c.Some? ==> c.value.IsData() && choice.Some? && c.value.stream == choice.value.1
    ensures id in tx && SendRun(was[id], tx[id], DataOf(ListOf(c), id))
  {
    hide TxOrder.AfterScan, Tx.NextChunk, AfterCut, SendRun;
    SendNothing(was[id]);
    ScanIsStep(was[id], env);
    if choice.Some? && choice.value.1 == id {
      OfferIsStep(was[id], c, available, env);
      assert DataOf(ListOf(c), id) == set d | d in ListOf(c);
    } else {
      assert DataOf(ListOf(c), id) == {};
    }
  }

  /** Every sending stream has taken steps that put exactly its chunks on the wire. */
  ghost predicate SendRuns(was: TxMap, tx: TxMap, cs: seq<Chunk>) {
    tx.Keys == was.Keys && forall id :: id in was ==> SendRun(was[id], tx[id], DataOf(cs, id))
  }

  lemma SendRunsBegin(tx: TxMap, cs: seq<Chunk>)
    requires forall c :: c in cs ==> !c.IsData()
    ensures SendRuns(tx, tx, cs)
  {
    forall id | id in tx
      ensures SendRun(tx[id], tx[id], DataOf(cs, id))
    {
      SendNothing(tx[id]);
      assert DataOf(cs, id) == {};
    }
  }

  lemma SendRunsStep(was: TxMap, tx: TxMap, tx': TxMap, choice: Option<(nat, byte)>, cs: seq<Chunk>,
                     c: Option<Chunk>, available: nat, env: Tx.TxEnv)
    requires SendRuns(was, tx, cs) && Outcome(tx, tx', choice, c, available, env) && tx'.Keys == tx.Keys
    requires c.Some? ==> c.value.IsData() && choice.Some? && c.value.stream == choice.value.1
    ensures SendRuns(was, tx', cs + ListOf(c))
  {
    hide Outcome, SendRun;
    forall id | id in was
      ensures SendRun(was[id], tx'[id], DataOf(cs + ListOf(c), id))
    {
      DataChunkIsStep(tx, tx', choice, c, available, env, id);
      SendThen(was[id], tx[id], tx'[id], DataOf(cs, id), DataOf(ListOf(c), id));
      assert DataOf(cs + ListOf(c), id) == DataOf(cs, id) + DataOf(ListOf(c), id);
    }
  }

  // ---------------------------------------------------------------- receiving

  // The steps take the receiver of the stream from a to b and send back exactly the chunks.
  ghost predicate Answers(a: Rx.RxHalf, b: Rx.RxHalf, id: byte, steps: seq<Step>, out: set<Chunk>) {
    forall sys: System :: sys.rx == a && sys.tx.t.stream == id ==>
      Run(sys, steps) == sys.(rx := b, up := sys.up + out)
  }

  ghost predicate AnswerRun(a: Rx.RxHalf, b: Rx.RxHalf, id: byte, out: set<Chunk>) {
    exists steps :: Answers(a, b, id, steps, out)
  }

  lemma AnswerNothing(a: Rx.RxHalf, id: byte)
    ensures AnswerRun(a, a, id, {})
  {
    assert Answers(a, a, id, [], {});
  }

  lemma AnswerThen(a: Rx.RxHalf, b: Rx.RxHalf, c: Rx.RxHalf, id: byte, out: set<Chunk>, more: set<Chunk>)
    requires AnswerRun(a, b, id, out) && AnswerRun(b, c, id, more)
    ensures AnswerRun(a, c, id, out + more)
  {
    var s :| Answers(a, b, id, s, out);
    var t :| Answers(b, c, id, t, more);
    assert Answers(a, c, id, s + t, out + more) by {
      hide Run;
      forall sys: System | sys.rx == a && sys.tx.t.stream == id
        ensures Run(sys, s + t) == sys.(rx := c, up := sys.up + (out + more))
      {
        RunJoin(sys, s, t);
        assert sys.up + out + more == sys.up + (out + more);
      }
    }
  }

  lemma {:induction false} ProcessAcks(h: Rx.RxHalf, acks: seq<(byte, nat)>, now: int)
    ensures Rx.Process(h.(acks := acks), now) == Rx.Process(h, now).(acks := acks)
    decreases |h.s.fifo|
  {
    if Rx.PopReady(h.s, now) {
      ProcessAcks(Rx.PopOnce(h), acks, now);
    }
  }

  /** Writing an acknowledgement is a step of every receiving stream, whichever it is for. */
  lemma AckIsStep(h: Rx.RxHalf, acks: seq<(byte, nat)>, id: byte)
    requires acks != []
    ensures AnswerRun(h.(acks := acks), h.(acks := acks[1..]), id, {Ack(acks[0].0, acks[0].1)})
  {
    var a, b := h.(acks := acks), h.(acks := acks[1..]);
    var out := {Ack(acks[0].0, acks[0].1)};
    forall sys: System | sys.rx == a && sys.tx.t.stream == id
      ensures Run(sys, [WriteAck]) == sys.(rx := b, up := sys.up + out)
    {
      RunOne(sys, WriteAck);
    }
    assert Answers(a, b, id, [WriteAck], out);
  }

  lemma RepeatScanIsStep(h: Rx.RxHalf, id: byte, now: int, datagram: nat)
    requires !h.s.isNew
    ensures AnswerRun(h.(acks := []), Outgoing.AfterRepeatScan(h, now, datagram).0.(acks := []), id, {})
  {
    ProcessAcks(h, [], now);
    var a, b := h.(acks := []), Outgoing.AfterRepeatScan(h, now, datagram).0.(acks := []);
    hide Rx.Process, Rx.ScanRepeat;
    forall sys: System | sys.rx == a && sys.tx.t.stream == id
      ensures Run(sys, [WriteRepeat(now, datagram, 0)]) == sys.(rx := b, up := sys.up + {})
    {
      RunOne(sys, WriteRepeat(now, datagram, 0));
    }
    assert Answers(a, b, id, [WriteRepeat(now, datagram, 0)], {});
  }

  lemma RepeatIsStep(rx: RxMap, id: byte, now: int, datagram: nat, available: nat)
    requires Waits(rx, id, now, datagram) && !rx[id].s.isNew
    requires EncodedSize(RequestOf(rx, id, now, datagram)) <= available
    ensures AnswerRun(rx[id].(acks := []), AfterRequest(rx, id, now, datagram).(acks := []), id,
                      {RequestOf(rx, id, now, datagram)})
  {
    var c := RequestOf(rx, id, now, datagram);
    ProcessAcks(rx[id], [], now);
    var a, b := rx[id].(acks := []), AfterRequest(rx, id, now, datagram).(acks := []);
    hide Rx.Process, Rx.ScanRepeat, EncodedSize;
    forall sys: System | sys.rx == a && sys.tx.t.stream == id
      ensures Run(sys, [WriteRepeat(now, datagram, available)]) == sys.(rx := b, up := sys.up + {c})
    {
      RunOne(sys, WriteRepeat(now, datagram, available));
    }
    assert Answers(a, b, id, [WriteRepeat(now, datagram, available)], {c});
  }

  // What goes back for one stream: its requests, and all acknowledgements, which share a queue.
  function MetaOf(cs: seq<Chunk>, id: byte): set<Chunk> {
    set c | c in cs && (c.Ack? || (c.Repeat? && c.stream == id))
  }

  /** A search for repeat requests is a step of every stream it visits, with or without a request. */
  lemma RequestIsStep(was: RxMap, rx: RxMap, c: Option<Chunk>, now: int, datagram: nat, available: nat, id: byte)
    requires Requested(was, rx, c, now, datagram, available) && id in was && !was[id].s.isNew
    requires c.Some? ==> c.value.Repeat? && EncodedSize(c.value) <= available
    ensures id in rx && AnswerRun(was[id].(acks := []), rx[id].(acks := []), id, MetaOf(ListOf(c), id))
  {
    hide Outgoing.AfterRepeatScan, AnswerRun, Wants, EncodedSize;
    AnswerNothing(was[id].(acks := []), id);
    RepeatScanIsStep(was[id], id, now, datagram);
    if c.Some? && c.value.stream == id {
      RepeatIsStep(was, id, now, datagram, available);
      assert MetaOf(ListOf(c), id) == {c.value};
    } else {
      assert MetaOf(ListOf(c), id) == {};
    }
  }

  /** Every receiving stream has taken steps that send back exactly its part of the chunks. */
  ghost predicate AnswerRuns(was: RxMap, acks: seq<(byte, nat)>, rx: RxMap, acks': seq<(byte, nat)>, cs: seq<Chunk>) {
    && rx.Keys == was.Keys
    && forall id :: id in was ==> AnswerRun(was[id].(acks := acks), rx[id].(acks := acks'), id, MetaOf(cs, id))
  }

  lemma AnswerRunsBegin(rx: RxMap, acks: seq<(byte, nat)>)
    ensures AnswerRuns(rx, acks, rx, acks, [])
  {
    forall id | id in rx
      ensures AnswerRun(rx[id].(acks := acks), rx[id].(acks := acks), id, MetaOf([], id))
    {
      AnswerNothing(rx[id].(acks := acks), id);
      assert MetaOf([], id) == {};
    }
  }

  lemma AnswerRunsAck(was: RxMap, acks: seq<(byte, nat)>, rx: RxMap, acks': seq<(byte, nat)>, cs: seq<Chunk>)
    requires AnswerRuns(was, acks, rx, acks', cs) && acks' != []
    ensures AnswerRuns(was, acks, rx, acks'[1..], cs + [Ack(acks'[0].0, acks'[0].1)])
  {
    hide AnswerRun;
    var c := Ack(acks'[0].0, acks'[0].1);
    forall id | id in was
      ensures AnswerRun(was[id].(acks := acks), rx[id].(acks := acks'[1..]), id, MetaOf(cs + [c], id))
    {
      AckIsStep(rx[id], acks', id);
      AnswerThen(was[id].(acks := acks), rx[id].(acks := acks'), rx[id].(acks := acks'[1..]), id, MetaOf(cs, id), {c});
      assert MetaOf(cs + [c], id) == MetaOf(cs, id) + {c};
    }
  }

  lemma AnswerRunsRequest(was: RxMap, acks: seq<(byte, nat)>, rx: RxMap, rx': RxMap, cs: seq<Chunk>,
                          c: Option<Chunk>, now: int, datagram: nat, available: nat)
    requires AnswerRuns(was, acks, rx, [], cs) && Requested(rx, rx', c, now, datagram, available)
    requires c.Some? ==> c.value.Repeat? && EncodedSize(c.value) <= available
    requires Receivable(rx) && rx'.Keys == rx.Keys
    ensures AnswerRuns(was, acks, rx', [], cs + ListOf(c))
  {
    hide AnswerRun, Requested, EncodedSize;
    forall id | id in was
      ensures AnswerRun(was[id].(acks := acks), rx'[id].(acks := []), id, MetaOf(cs + ListOf(c), id))
    {
      RequestIsStep(rx, rx', c, now, datagram, available, id);
      AnswerThen(was[id].(acks := acks), rx[id].(acks := []), rx'[id].(acks := []), id,
                 MetaOf(cs, id), MetaOf(ListOf(c), id));
      assert MetaOf(cs + ListOf(c), id) == MetaOf(cs, id) + MetaOf(ListOf(c), id);
    }
  }

  // ------------------------------------------------- send() and readChunk

  lemma OtherAckIsStep(sys: System, c: Chunk, acks: seq<(byte, nat)>)
    requires Incoming.AcksAfter(sys.rx.acks, acks, c) && sys.tx.t.stream != c.stream
    ensures sys.(rx := sys.rx.(acks := acks)) in {sys, Apply(sys, OtherStreamAck(c.stream, c.id))}
  {
    hide OfferStep, Protocol.RepeatStep, ReadUpStep;
  }

  // ------------------------------------------------------ the acknowledgements

  // The acknowledgements among the chunks, in order.
  function AckList(cs: seq<Chunk>): seq<(byte, nat)> {
    if cs == [] then []
    else
      var c := cs[|cs| - 1];
      AckList(cs[..|cs| - 1]) + (if c.Ack? then [(c.stream, c.id)] else [])
  }

  lemma AckListAppend(cs: seq<Chunk>, c: Chunk)
    ensures AckList(cs + [c]) == AckList(cs) + (if c.Ack? then [(c.stream, c.id)] else [])
  {
    assert (cs + [c])[..|cs|] == cs;
  }

  function AcksOf(cs: seq<Chunk>): set<Chunk> {
    set c | c in cs && c.Ack?
  }

  // A stream that is not there yet sees only the shared queue of acknowledgements shrink.
  lemma {:induction false} AcksAreSteps(h: Rx.RxHalf, acks: seq<(byte, nat)>, left: seq<(byte, nat)>,
                                        cs: seq<Chunk>, id: byte)
    requires AckList(cs) + left == acks
    ensures AnswerRun(h.(acks := acks), h.(acks := left), id, AcksOf(cs))
    decreases |cs|
  {
    if cs == [] {
      AnswerNothing(h.(acks := acks), id);
      assert acks == left && AcksOf(cs) == {};
    } else {
      var n := |cs| - 1;
      var before, c := cs[..n], cs[n];
      assert cs == before + [c];
      if c.Ack? {
        var more := [(c.stream, c.id)] + left;
        assert AckList(before) + more == acks;
        AcksAreSteps(h, acks, more, before, id);
        AckIsStep(h, more, id);
        assert more[1..] == left;
        AnswerThen(h.(acks := acks), h.(acks := more), h.(acks := left), id, AcksOf(before), {c});
        assert AcksOf(cs) == AcksOf(before) + {c};
      } else {
        AcksAreSteps(h, acks, left, before, id);
        assert AcksOf(cs) == AcksOf(before);
      }
    }
  }
}
