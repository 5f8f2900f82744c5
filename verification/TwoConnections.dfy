/**
 Two connections with any number of streams, and the chunks ever written in each direction.
 After every list of operations, each stream of either direction is a run of the two-endpoint
 model, so what holds of every run holds of the connections.
 */
module TwoConnections {
  import opened Common
  import opened Chunks
  import opened Ends
  import opened Filling
  import opened Refinement
  import opened Protocol
  import Codec
  import Guarantees
  import Incoming
  import Progress
  import Rx = RxModel
  import RxOrder
  import Runs
  import Soundness
  import Tx = TxModel

  datatype World = World(a: End, b: End, ab: set<Chunk>, ba: set<Chunk>)

  const NEW_WORLD := World(NEW_END, NEW_END, {}, {})

  datatype Op =
    | SendOp(id: byte, payload: seq<byte>, deadline: int)
    | WriteOp(chunks: seq<Chunk>)
    | ReadOp(chunk: Chunk, env: Rx.RxEnv)

  // One connection acts; it reads what was ever written to it and adds to what it wrote.
  ghost predicate Acts(e: End, e': End, read: set<Chunk>, written: set<Chunk>, written': set<Chunk>, op: Op) {
    match op
    case SendOp(id, payload, deadline) =>
      IsPayload(payload) && e' == SendBy(e, id, payload, deadline) && written' == written
    case WriteOp(cs) => Wrote(e, e', cs) && written' == written + (set c | c in cs)
    case ReadOp(c, env) => c in read && e' == ReadBy(e, c, env) && written' == written
  }

  datatype Move = Move(byA: bool, op: Op)

  ghost predicate Next(w: World, w': World, move: Move) {
    if move.byA then Acts(w.a, w'.a, w.ba, w.ab, w'.ab, move.op) && w'.b == w.b && w'.ba == w.ba
    else Acts(w.b, w'.b, w.ab, w.ba, w'.ba, move.op) && w'.a == w.a && w'.ab == w.ab
  }

  /** The worlds of a session, one after each move, with fewer ids per stream than a quarter of the circle. */
  ghost predicate Session(ws: seq<World>, moves: seq<Move>) {
    && |ws| == |moves| + 1 && ws[0] == NEW_WORLD
    && (forall i :: 0 <= i < |moves| ==> Next(ws[i], ws[i + 1], moves[i]))
    && (forall i :: 0 <= i < |ws| ==> Short(ws[i]))
  }

  ghost predicate Short(w: World) {
    && (forall id :: |EnqOf(w.a.enq, id)| <= QUARTER)
    && (forall id :: |EnqOf(w.b.enq, id)| <= QUARTER)
  }

  function Mirror(w: World): World {
    World(w.b, w.a, w.ba, w.ab)
  }

  // --------------------------------------------------------------- projection

  function DataIn(s: set<Chunk>, id: byte): set<Chunk> {
    set c | c in s && c.IsData() && c.stream == id
  }

  function MetaIn(s: set<Chunk>, id: byte): set<Chunk> {
    set c | c in s && (c.Ack? || (c.Repeat? && c.stream == id))
  }

  /** One stream from a to b, as the two-endpoint model sees it. */
  function Project(w: World, id: byte): System {
    System(StreamOf(w.a.tx, id), ReceivedOf(w.b.rx, w.b.acks, id), DataIn(w.ab, id), MetaIn(w.ba, id),
           EnqOf(w.a.enq, id), GapsOf(w.b.gaps, id))
  }

  ghost predicate IsRun(w: World, id: byte, steps: seq<Step>) {
    Run(Init(id, true), steps) == Project(w, id)
  }

  ghost predicate Simulated(w: World, id: byte) {
    exists steps :: IsRun(w, id, steps)
  }

  ghost predicate AllSimulated(w: World) {
    forall id :: Simulated(w, id)
  }

  // From the projection on, the steps lead to another.
  lemma Extend(w: World, w': World, id: byte, steps: seq<Step>, more: seq<Step>)
    requires IsRun(w, id, steps) && Run(Project(w, id), more) == Project(w', id)
    ensures Simulated(w', id)
  {
    RunJoin(Init(id, true), steps, more);
    assert IsRun(w', id, steps + more);
  }

  lemma Stays(w: World, w': World, id: byte)
    requires Simulated(w, id)
    requires StreamOf(w'.a.tx, id) == StreamOf(w.a.tx, id) && EnqOf(w'.a.enq, id) == EnqOf(w.a.enq, id)
    requires w'.b.acks == w.b.acks && ReceivedOf(w'.b.rx, w'.b.acks, id) == ReceivedOf(w.b.rx, w.b.acks, id)
    requires DataIn(w'.ab, id) == DataIn(w.ab, id) && MetaIn(w'.ba, id) == MetaIn(w.ba, id)
    requires GapsOf(w'.b.gaps, id) == GapsOf(w.b.gaps, id)
    ensures Simulated(w', id)
  {
    var steps :| IsRun(w, id, steps);
    assert Project(w', id) == Project(w, id);
    assert IsRun(w', id, steps);
  }

  // -------------------------------------------------------------- a acts

  lemma SendSimulated(w: World, w': World, id: byte, to: byte, payload: seq<byte>, deadline: int)
    requires Simulated(w, id) && IsPayload(payload)
    requires w' == w.(a := SendBy(w.a, to, payload, deadline))
    ensures Simulated(w', id)
  {
    hide Run, Tx.Enqueue;
    if id != to {
      Stays(w, w', id);
    } else {
      var steps :| IsRun(w, id, steps);
      SendIsStep(Project(w, id), payload, deadline);
      RunOne(Project(w, id), Send(payload, deadline));
      Extend(w, w', id, steps, [Send(payload, deadline)]);
    }
  }

  lemma DataInGrows(s: set<Chunk>, cs: seq<Chunk>, id: byte)
    ensures DataIn(s + (set c | c in cs), id) == DataIn(s, id) + DataOf(cs, id)
    ensures MetaIn(s + (set c | c in cs), id) == MetaIn(s, id) + MetaOf(cs, id)
  {
  }

  lemma WriteSimulated(w: World, w': World, id: byte, cs: seq<Chunk>)
    requires Simulated(w, id) && Wrote(w.a, w'.a, cs)
    requires w' == w.(a := w'.a, ab := w.ab + (set c | c in cs))
    ensures Simulated(w', id)
  {
    hide Run, SendRun, AnswerRuns, Receivable, AckList, Codec.Encodable;
    DataInGrows(w.ab, cs, id);
    if id in w.a.tx {
      SendRunExtends(w, w', id, DataOf(cs, id));
    } else {
      assert DataOf(cs, id) == {} by {
        assert forall c :: c in cs ==> Own(w.a, c);
      }
      Stays(w, w', id);
    }
  }

  lemma SendRunExtends(w: World, w': World, id: byte, out: set<Chunk>)
    requires Simulated(w, id) && SendRun(StreamOf(w.a.tx, id), StreamOf(w'.a.tx, id), out)
    requires EnqOf(w'.a.enq, id) == EnqOf(w.a.enq, id) && w'.b == w.b && w'.ba == w.ba
    requires DataIn(w'.ab, id) == DataIn(w.ab, id) + out
    ensures Simulated(w', id)
  {
    var steps :| IsRun(w, id, steps);
    var more :| Sends(StreamOf(w.a.tx, id), StreamOf(w'.a.tx, id), more, out);
    hide Run;
    var sys := Project(w, id);
    assert Run(sys, more) == sys.(tx := StreamOf(w'.a.tx, id), down := sys.down + out);
    Extend(w, w', id, steps, more);
  }

  // What arrives at a is for its own receiving streams, or a step of one sending stream.
  lemma ReadByASimulated(w: World, w': World, id: byte, c: Chunk, env: Rx.RxEnv)
    requires Simulated(w, id) && |EnqOf(w.a.enq, id)| <= QUARTER && c in w.ba && w' == w.(a := ReadBy(w.a, c, env))
    ensures Simulated(w', id)
  {
    hide Run, Rx.ReadData, Tx.ReadAck, Tx.ReadRepeat;
    if c.IsData() || c.stream != id || id !in w.a.tx {
      Stays(w, w', id);
    } else {
      var steps :| IsRun(w, id, steps);
      var sys := Project(w, id);
      StreamIs(w, id, steps);
      assert c in sys.up;
      ReadUpIsStep(sys, c, env.now);
      RunOne(sys, ReadUp(c, env.now));
      Extend(w, w', id, steps, [ReadUp(c, env.now)]);
    }
  }

  lemma StreamIs(w: World, id: byte, steps: seq<Step>)
    requires IsRun(w, id, steps) && |EnqOf(w.a.enq, id)| <= QUARTER
    ensures Project(w, id).tx.t.stream == id && Project(w, id).tx.t.isReliable
  {
    hide Run;
    Guarantees.StreamConstant(id, true, steps);
  }

  // -------------------------------------------------------------- b acts

  lemma AnswerSimulated(w: World, w': World, id: byte, cs: seq<Chunk>)
    requires Simulated(w, id) && |EnqOf(w.a.enq, id)| <= QUARTER && Wrote(w.b, w'.b, cs)
    requires w' == w.(b := w'.b, ba := w.ba + (set c | c in cs))
    ensures Simulated(w', id)
  {
    hide Run, AnswerRun, SendRuns, Receivable, Codec.Encodable;
    DataInGrows(w.ba, cs, id);
    var was, now := ReceivedOf(w.b.rx, w.b.acks, id), ReceivedOf(w'.b.rx, w'.b.acks, id);
    if id !in w.b.rx {
      AcksAreSteps(RxOrder.EMPTY_HALF, w.b.acks, w'.b.acks, cs, id);
      assert MetaOf(cs, id) == AcksOf(cs) by {
        assert forall c :: c in cs ==> Own(w.b, c);
      }
    }
    AnswerRunExtends(w, w', id, MetaOf(cs, id));
  }

  lemma AnswerRunExtends(w: World, w': World, id: byte, out: set<Chunk>)
    requires Simulated(w, id) && |EnqOf(w.a.enq, id)| <= QUARTER && w'.a == w.a && w'.ab == w.ab
    requires w'.b.gaps == w.b.gaps
    requires AnswerRun(ReceivedOf(w.b.rx, w.b.acks, id), ReceivedOf(w'.b.rx, w'.b.acks, id), id, out)
    requires MetaIn(w'.ba, id) == MetaIn(w.ba, id) + out
    ensures Simulated(w', id)
  {
    var steps :| IsRun(w, id, steps);
    var more :| Answers(ReceivedOf(w.b.rx, w.b.acks, id), ReceivedOf(w'.b.rx, w'.b.acks, id), id, more, out);
    hide Run;
    StreamIs(w, id, steps);
    var sys := Project(w, id);
    assert Run(sys, more) == sys.(rx := ReceivedOf(w'.b.rx, w'.b.acks, id), up := sys.up + out);
    Extend(w, w', id, steps, more);
  }

  // A data chunk that arrives at b is read by its stream, and acknowledged in the queue of all.
  lemma ReadByBSimulated(w: World, w': World, id: byte, c: Chunk, env: Rx.RxEnv)
    requires Simulated(w, id) && |EnqOf(w.a.enq, id)| <= QUARTER && c in w.ab && w' == w.(b := ReadBy(w.b, c, env))
    ensures Simulated(w', id)
  {
    hide Run, Rx.ReadData, Tx.ReadAck, Tx.ReadRepeat, GapsAfter, Apply;
    if !c.IsData() {
      Stays(w, w', id);
    } else {
      var steps :| IsRun(w, id, steps);
      var sys := Project(w, id);
      if c.stream == id {
        assert c in sys.down;
        ReadIsStep(sys, c, env);
        RunOne(sys, ReadDown(c, env));
        Extend(w, w', id, steps, [ReadDown(c, env)]);
      } else {
        StreamIs(w, id, steps);
        ReadForOther(w, w', id, steps, c, env);
      }
    }
  }

  lemma ReadForOther(w: World, w': World, id: byte, steps: seq<Step>, c: Chunk, env: Rx.RxEnv)
    requires IsRun(w, id, steps) && Project(w, id).tx.t.stream == id != c.stream
    requires c.IsData() && w' == w.(b := ReadBy(w.b, c, env))
    ensures Simulated(w', id)
  {
    hide Run, Rx.ReadData, Apply;
    var sys := Project(w, id);
    Incoming.ReadDataAcks(ReceivedOf(w.b.rx, w.b.acks, c.stream), c, env);
    OtherAckIsStep(sys, c, w'.b.acks);
    assert Project(w', id) == sys.(rx := sys.rx.(acks := w'.b.acks));
    if Project(w', id) == sys {
      assert IsRun(w', id, steps);
    } else {
      RunOne(sys, OtherStreamAck(c.stream, c.id));
      Extend(w, w', id, steps, [OtherStreamAck(c.stream, c.id)]);
    }
  }

  // --------------------------------------------------------------- sessions

  lemma MoveSimulated(w: World, w': World, move: Move, id: byte)
    requires Simulated(w, id) && Short(w) && Next(w, w', move)
    ensures Simulated(w', id)
  {
    hide Simulated, Wrote, ReadBy, SendBy;
    match move.op
    case SendOp(to, payload, deadline) =>
      if move.byA {
        SendSimulated(w, w', id, to, payload, deadline);
      } else {
        SendElsewhere(w, w', id, to, payload, deadline);
      }
    case WriteOp(cs) =>
      if move.byA {
        WriteSimulated(w, w', id, cs);
      } else {
        AnswerSimulated(w, w', id, cs);
      }
    case ReadOp(c, env) =>
      if move.byA {
        ReadByASimulated(w, w', id, c, env);
      } else {
        ReadByBSimulated(w, w', id, c, env);
      }
  }

  // What b sends is no part of the streams from a.
  lemma SendElsewhere(w: World, w': World, id: byte, to: byte, payload: seq<byte>, deadline: int)
    requires Simulated(w, id) && w' == w.(b := SendBy(w.b, to, payload, deadline))
    ensures Simulated(w', id)
  {
    Stays(w, w', id);
  }

  lemma NewSimulated(id: byte)
    ensures Simulated(NEW_WORLD, id)
  {
    assert Run(Init(id, true), []) == Project(NEW_WORLD, id);
    assert IsRun(NEW_WORLD, id, []);
  }

  /** After every session each stream from a to b is a run of the two-endpoint model. */
  lemma {:induction false} SessionsAreRuns(ws: seq<World>, moves: seq<Move>, id: byte)
    requires Session(ws, moves)
    ensures Simulated(ws[|moves|], id)
  {
    hide Simulated, Next, Short;
    if moves == [] {
      NewSimulated(id);
    } else {
      var n := |moves| - 1;
      SessionsAreRuns(ws[..n + 1], moves[..n], id);
      MoveSimulated(ws[n], ws[n + 1], moves[n], id);
    }
  }

  // The session seen from the other side.
  lemma MirrorSession(ws: seq<World>, moves: seq<Move>) returns (vs: seq<World>, turns: seq<Move>)
    requires Session(ws, moves)
    ensures Session(vs, turns) && |turns| == |moves| && vs[|moves|] == Mirror(ws[|moves|])
  {
    hide Acts;
    vs := seq(|ws|, i requires 0 <= i < |ws| => Mirror(ws[i]));
    turns := seq(|moves|, i requires 0 <= i < |moves| => Move(!moves[i].byA, moves[i].op));
    forall i | 0 <= i < |turns|
      ensures Next(vs[i], vs[i + 1], turns[i])
    {
      assert Next(ws[i], ws[i + 1], moves[i]);
    }
    forall i | 0 <= i < |vs|
      ensures Short(vs[i])
    {
      assert Short(ws[i]);
    }
  }

  /** And so is each stream from b to a. */
  lemma BothWaysAreRuns(ws: seq<World>, moves: seq<Move>, id: byte)
    requires Session(ws, moves)
    ensures Simulated(ws[|moves|], id) && Simulated(Mirror(ws[|moves|]), id)
  {
    hide Simulated, Session;
    SessionsAreRuns(ws, moves, id);
    var vs, turns := MirrorSession(ws, moves);
    SessionsAreRuns(vs, turns, id);
  }

  // ------------------------------------------------ what holds of connections

  // What is on the way to b can be read, and b can send.
  ghost predicate Sound(w: World) {
    Readable(w.ab) && Receivable(w.b.rx)
  }

  ghost predicate Readable(s: set<Chunk>) {
    forall c :: c in s ==> Incoming.Plain(c)
  }

  lemma EncodablePlain(c: Chunk)
    requires Codec.Encodable(c)
    ensures Incoming.Plain(c)
  {
  }

  lemma WroteReadable(e: End, e': End, cs: seq<Chunk>, s: set<Chunk>)
    requires Wrote(e, e', cs) && Readable(s)
    ensures Readable(s + set c | c in cs)
  {
    hide SendRuns, AnswerRuns, Receivable, AckList, Codec.Encodable, Incoming.Plain;
    forall c | c in cs
      ensures Incoming.Plain(c)
    {
      assert Own(e, c);
      EncodablePlain(c);
    }
  }

  lemma DataOnTheWay(w: World, c: Chunk)
    requires AllSimulated(w) && Short(w) && c in w.ab && c.IsData()
    ensures c.id < QUARTER
  {
    assert Simulated(w, c.stream);
    var steps :| IsRun(w, c.stream, steps);
    hide Run;
    Runs.RunInv(c.stream, true, steps);
    var sys := Project(w, c.stream);
    assert c in sys.down;
    assert Runs.DownOk(c, sys.tx, sys.enq);
  }

  lemma ReadSound(w: World, w': World, c: Chunk, env: Rx.RxEnv)
    requires AllSimulated(w) && Short(w) && Sound(w) && c in w.ab && w' == w.(b := ReadBy(w.b, c, env))
    ensures Sound(w')
  {
    hide AllSimulated, Receivable, Rx.ReadData, GapsAfter, Tx.ReadAck, Tx.ReadRepeat, Incoming.Plain;
    if c.IsData() {
      DataOnTheWay(w, c);
      ReceivableAfter(w.b.rx, w.b.acks, c, env);
    }
  }

  lemma MoveSound(w: World, w': World, move: Move)
    requires AllSimulated(w) && Short(w) && Sound(w) && Next(w, w', move)
    ensures Sound(w')
  {
    hide AllSimulated, Short, Readable, Receivable;
    match move.op
    case SendOp(_, _, _) =>
    case WriteOp(cs) =>
      if move.byA {
        WroteReadable(w.a, w'.a, cs, w.ab);
      }
    case ReadOp(c, env) =>
      if !move.byA {
        ReadSound(w, w', c, env);
      }
  }

  lemma {:induction false} SessionsAreSound(ws: seq<World>, moves: seq<Move>)
    requires Session(ws, moves)
    ensures Sound(ws[|moves|])
  {
    hide Next, Short, Simulated;
    if moves != [] {
      var n := |moves| - 1;
      SessionsAreSound(ws[..n + 1], moves[..n]);
      forall id
        ensures Simulated(ws[n], id)
      {
        SessionsAreRuns(ws[..n + 1], moves[..n], id);
      }
      hide Sound;
      MoveSound(ws[n], ws[n + 1], moves[n]);
    }
  }

  lemma OffsetsOf(w: World)
    requires AllSimulated(w) && Short(w)
    ensures AllInside(w.a.tx)
  {
    hide Runs.OffsetsInside;
    forall id | id in w.a.tx
      ensures Runs.OffsetsInside(w.a.tx[id])
    {
      assert Simulated(w, id);
      var steps :| IsRun(w, id, steps);
      hide Run;
      Runs.RunInv(id, true, steps);
    }
  }

  /**
   Both connections stay able to send: no request that arrives moves an offset out of its
   payload, and the receiving queues stay away from the wrap. What arrives can be read.
   */
  lemma ConnectionsStayValid(ws: seq<World>, moves: seq<Move>)
    requires Session(ws, moves)
    ensures var w := ws[|moves|];
      && AllInside(w.a.tx) && Receivable(w.a.rx) && Readable(w.ba)
      && AllInside(w.b.tx) && Receivable(w.b.rx) && Readable(w.ab)
  {
    var w := ws[|moves|];
    assert Short(w);
    hide Session, Simulated, Receivable, Readable, Runs.OffsetsInside;
    var vs, turns := MirrorSession(ws, moves);
    SessionsAreSound(ws, moves);
    SessionsAreSound(vs, turns);
    forall id
      ensures Simulated(w, id) && Simulated(Mirror(w), id)
    {
      BothWaysAreRuns(ws, moves, id);
    }
    OffsetsOf(w);
    OffsetsOf(Mirror(w));
  }

  /** Acknowledgement soundness between two connections, for each of their streams. */
  lemma ConnectionAckSoundness(ws: seq<World>, moves: seq<Move>, id: byte, k: nat)
    requires Session(ws, moves)
    requires var log := StreamOf(ws[|moves|].a.tx, id).log; k < |log| && log[k].status == 's'
    ensures var rx := Project(ws[|moves|], id).rx;
      Rx.TimedOut(k) !in rx.log <==> Soundness.WasDelivered(rx, k) || Soundness.Held(rx.s.fifo, k)
  {
    var w := ws[|moves|];
    assert Short(w);
    SessionsAreRuns(ws, moves, id);
    var steps :| IsRun(w, id, steps);
    hide Run;
    Guarantees.AckSoundness(Project(w, id), id, steps, k);
  }

  /** Each packet that arrived on a stream of two connections has its acknowledgement waiting or on the way back. */
  lemma ConnectionAnswered(ws: seq<World>, moves: seq<Move>, id: byte, k: nat)
    requires Session(ws, moves)
    requires var rx := Project(ws[|moves|], id).rx; Soundness.WasDelivered(rx, k) || Soundness.Held(rx.s.fifo, k)
    ensures (id, k) in ws[|moves|].b.acks || Ack(id, k) in ws[|moves|].ba
  {
    var w := ws[|moves|];
    assert Short(w);
    SessionsAreRuns(ws, moves, id);
    var steps :| IsRun(w, id, steps);
    hide Run;
    Progress.ReceivedIsAnswered(Project(w, id), id, steps, k);
  }

  /**
   End to end between two connections: a packet reported 's' is, byte for byte, with the other
   application or ready for it, if and only if the receiver did not give it up and what was
   jumped over is harmless.
   */
  lemma ConnectionEndToEnd(ws: seq<World>, moves: seq<Move>, id: byte, k: nat)
    requires Session(ws, moves)
    requires var log := StreamOf(ws[|moves|].a.tx, id).log; k < |log| && log[k].status == 's'
    ensures var sys := Project(ws[|moves|], id);
      && k < |sys.enq| && sys.tx.log[k].payload == sys.enq[k]
      && (Guarantees.HasPayload(sys.rx, k, sys.enq[k])
          <==> Rx.TimedOut(k) !in sys.rx.log && Guarantees.Harmless(sys, k))
  {
    var w := ws[|moves|];
    assert Short(w);
    SessionsAreRuns(ws, moves, id);
    var steps :| IsRun(w, id, steps);
    hide Run;
    Guarantees.EndToEnd(Project(w, id), id, steps, k);
  }

  /** Between two connections a stream reports each packet at most once, in order, and only packets that were sent. */
  lemma ConnectionInOrder(ws: seq<World>, moves: seq<Move>, id: byte, i: nat, j: nat)
    requires Session(ws, moves)
    requires var log := Project(ws[|moves|], id).rx.log; i < j < |log| && log[i].Terminal() && log[j].Terminal()
    ensures var sys := Project(ws[|moves|], id); sys.rx.log[i].id < sys.rx.log[j].id < |sys.enq|
  {
    var w := ws[|moves|];
    assert Short(w);
    SessionsAreRuns(ws, moves, id);
    var steps :| IsRun(w, id, steps);
    hide Run;
    Guarantees.InOrderAtMostOnce(Project(w, id), id, true, steps, i, j);
  }
}
