/**
 One stream between two endpoints. The network is the set of chunks ever written in each
 direction: a step may read any of them, any number of times and in any order, or never, so
 every loss, duplication and reordering is a run. Clock readings are free.
 */
module Protocol {
  import opened Common
  import opened Chunks
  import opened RxModel
  import Tx = TxModel
  import TxOrder

  // Bytes (id, index) of payloads.
  type Gaps = set<(nat, nat)>

  /**
   enq holds the payloads handed to send(). gaps is a history variable that no step reads: the
   bytes a piece arriving ahead of the offset jumped over and nothing has repaired since.
   */
  datatype System = System(
    tx: Tx.TxHalf,
    rx: RxHalf,
    down: set<Chunk>,
    up: set<Chunk>,
    enq: seq<seq<byte>>,
    gaps: Gaps)

  datatype Step =
    | Send(payload: seq<byte>, deadline: int)
    | Offer(txEnv: Tx.TxEnv, available: nat)
    | Scan(txEnv: Tx.TxEnv)
    | ReadDown(chunk: Chunk, rxEnv: RxEnv)
    | WriteAck
    | WriteRepeat(now: int, datagram: nat, available: nat)
    | ReadUp(chunk: Chunk, now: int)
    | OtherStreamAck(stream: byte, id: nat)

  function Init(stream: byte, isReliable: bool): System {
    System(Tx.NewHalf(stream, isReliable), RxHalf(NEW_STREAM, [], []), {}, {}, [], {})
  }

  // ----------------------------------------------------------------- history

  function Without(gaps: Gaps, id: nat): Gaps {
    set g | g in gaps && g.0 != id
  }

  function Range(id: nat, from: nat, to: nat): Gaps {
    set k | from <= k < to :: (id, k)
  }

  // A small packet or a restart repairs what was skipped.
  function GapsAt(gaps: Gaps, p: RxPacket, front: nat, c: Chunk): Gaps
    requires c.IsData()
  {
    if p.isReceived then gaps
    else match c
      case Small(_, id, _, _, _) => Without(gaps, id)
      case Begin(_, _, _, _, _) => gaps
      case Piece(_, id, _, _, offset, _) =>
        match Verdict(p, front, c)
        case Gap => gaps + Range(id, p.offset, offset)
        case OutOfOrder => Without(gaps, id)
        case _ => gaps
  }

  function GapsAccept(gaps: Gaps, h: RxHalf, c: Chunk, env: RxEnv): Gaps
    requires c.IsData()
  {
    if IsFull(h.s) || IsReceivedBefore(h.s, c.id) then gaps
    else
      var g := Lookup(h, env.now, c.id);
      var i := IndexOf(g.s.fifo, c.id);
      if g.s.fifo[i].id != c.id then gaps else GapsAt(gaps, g.s.fifo[i], g.s.front, c)
  }

  function GapsAfter(gaps: Gaps, h: RxHalf, c: Chunk, env: RxEnv): Gaps
    requires c.IsData()
  {
    GapsAccept(gaps, Advance(Open(h, env.now), c.front, c.id), c, env)
  }

  // -------------------------------------------------------------------- steps

  // writeMetaChunk, when no acknowledgement is waiting: a pass over the queue, then the scan.
  function RepeatStep(sys: System, now: int, datagram: nat, available: nat): System {
    var h := Process(sys.rx, now);
    var (t, found) := ScanRepeat(h.s, |h.s.fifo|, datagram);
    var scanned := sys.(rx := h.(s := t));
    if !found then scanned
    else
      var c := RepeatOf(sys.tx.t.stream, t.fifo[t.packetIdx]);
      if EncodedSize(c) > available then scanned
      else sys.(rx := h.(s := MarkRepeated(t, datagram)), up := sys.up + {c})
  }

  function OfferStep(sys: System, env: Tx.TxEnv, available: nat): System {
    var (h, found) := TxOrder.AfterScan(sys.tx, env);
    if !found then sys.(tx := h)
    else match Tx.NextChunk(h.t, available)
      case None => sys.(tx := h)
      case Some(c) => sys.(tx := Tx.WriteChunk(h, c, env), down := sys.down + {c})
  }

  // Chunks of other streams are not for this queue.
  function ReadUpStep(tx: Tx.TxHalf, c: Chunk, now: int): Tx.TxHalf {
    match c
    case Ack(stream, id) => if stream == tx.t.stream then Tx.ReadAck(tx, id, now) else tx
    case Repeat(stream, id, offset, _) => if stream == tx.t.stream then Tx.ReadRepeat(tx, id, offset) else tx
    case _ => tx
  }

  // send_ts refuses an empty payload, and takes the size as a uint64.
  predicate IsPayload(payload: seq<byte>) {
    0 < |payload| <= UINT64_MAX
  }

  /** A step that is not possible in the state leaves it unchanged. */
  function Apply(sys: System, step: Step): System {
    match step
    case Send(payload, deadline) =>
      if !IsPayload(payload) then sys
      else sys.(tx := Tx.Enqueue(sys.tx, payload, deadline), enq := sys.enq + [payload])
    case Offer(env, available) => OfferStep(sys, env, available)
    case Scan(env) => sys.(tx := TxOrder.AfterScan(sys.tx, env).0)
    case ReadDown(c, env) =>
      if c in sys.down && c.IsData() then
        sys.(rx := ReadData(sys.rx, c, env), gaps := GapsAfter(sys.gaps, sys.rx, c, env))
      else sys
    case WriteAck =>
      if sys.rx.acks == [] then sys
      else
        sys.(rx := sys.rx.(acks := sys.rx.acks[1..]),
             up := sys.up + {Ack(sys.rx.acks[0].0, sys.rx.acks[0].1)})
    case WriteRepeat(now, datagram, available) =>
      if sys.rx.acks != [] || sys.rx.s.isNew then sys
      else RepeatStep(sys, now, datagram, available)
    case ReadUp(c, now) =>
      if c in sys.up then sys.(tx := ReadUpStep(sys.tx, c, now)) else sys
    case OtherStreamAck(stream, id) =>
      if stream == sys.tx.t.stream then sys
      else sys.(rx := sys.rx.(acks := sys.rx.acks + [(stream, id)]))
  }

  /** The state after a list of steps. */
  function Run(sys: System, steps: seq<Step>): System {
    if steps == [] then sys
    else Apply(Run(sys, steps[..|steps| - 1]), steps[|steps| - 1])
  }

  lemma SendIsStep(sys: System, payload: seq<byte>, deadline: int)
    requires IsPayload(payload)
    ensures Apply(sys, Send(payload, deadline)) ==
      sys.(tx := Tx.Enqueue(sys.tx, payload, deadline), enq := sys.enq + [payload])
  {
    hide Tx.Enqueue;
  }

  lemma ReadUpIsStep(sys: System, c: Chunk, now: int)
    requires c in sys.up && sys.tx.t.stream == c.stream && (c.Ack? || c.Repeat?)
    ensures Apply(sys, ReadUp(c, now)) ==
      sys.(tx := if c.Ack? then Tx.ReadAck(sys.tx, c.id, now) else Tx.ReadRepeat(sys.tx, c.id, c.repeatOffset))
  {
    hide Tx.ReadAck, Tx.ReadRepeat, OfferStep, RepeatStep;
  }

  lemma ReadIsStep(sys: System, c: Chunk, env: RxEnv)
    requires c.IsData() && c in sys.down
    ensures Apply(sys, ReadDown(c, env)) ==
      sys.(rx := ReadData(sys.rx, c, env), gaps := GapsAfter(sys.gaps, sys.rx, c, env))
  {
    hide ReadData, GapsAfter, OfferStep, RepeatStep, ReadUpStep;
  }

  lemma RunOne(sys: System, step: Step)
    ensures Run(sys, [step]) == Apply(sys, step)
  {
    hide Apply;
    assert [step][..0] == [];
  }

  lemma {:induction false} RunJoin(sys: System, a: seq<Step>, b: seq<Step>)
    ensures Run(sys, a + b) == Run(Run(sys, a), b)
  {
    hide Apply;
    if b == [] {
      assert a + b == a;
    } else {
      var n := |b| - 1;
      assert (a + b)[..|a| + n] == a + b[..n];
      RunJoin(sys, a, b[..n]);
    }
  }
}
