/** What a connection holds of its streams, as a value, and what its operations make of it. */
module Ends {
  import opened Common
  import opened Chunks
  import opened Filling
  import opened Refinement
  import Codec
  import Incoming
  import Outgoing
  import Protocol
  import Rx = RxModel
  import RxOrder
  import Tx = TxModel

  /** enq holds what was handed to send(), and gaps the bytes that arriving pieces jumped over. */
  datatype End = End(
    tx: TxMap,
    rx: RxMap,
    acks: seq<(byte, nat)>,
    enq: map<byte, seq<seq<byte>>>,
    gaps: map<byte, Protocol.Gaps>
  )

  const NEW_END := End(map[], map[], [], map[], map[])

  function GapsOf(gaps: map<byte, Protocol.Gaps>, id: byte): Protocol.Gaps {
    if id in gaps then gaps[id] else {}
  }

  function SendBy(e: End, id: byte, payload: seq<byte>, deadline: int): End {
    e.(tx := e.tx[id := Tx.Enqueue(StreamOf(e.tx, id), payload, deadline)],
       enq := e.enq[id := EnqOf(e.enq, id) + [payload]])
  }

  /** readChunk: data goes to a receiving stream, the other chunks to a sending one that is there. */
  function ReadBy(e: End, c: Chunk, env: Rx.RxEnv): End {
    if c.IsData() then
      var h := ReceivedOf(e.rx, e.acks, c.stream);
      var r := Rx.ReadData(h, c, env);
      e.(rx := e.rx[c.stream := r], acks := r.acks,
         gaps := e.gaps[c.stream := Protocol.GapsAfter(GapsOf(e.gaps, c.stream), h, c, env)])
    else if c.stream !in e.tx then e
    else if c.Ack? then e.(tx := e.tx[c.stream := Tx.ReadAck(e.tx[c.stream], c.id, env.now)])
    else e.(tx := e.tx[c.stream := Tx.ReadRepeat(e.tx[c.stream], c.id, c.repeatOffset)])
  }

  /** What writePacket may do to a connection while it writes the chunks of a datagram. */
  ghost predicate Wrote(e: End, e': End, cs: seq<Chunk>) {
    && e'.enq == e.enq && e'.gaps == e.gaps
    && SendRuns(e.tx, e'.tx, cs)
    && AnswerRuns(e.rx, e.acks, e'.rx, e'.acks, cs)
    && AckList(cs) + e'.acks == e.acks
    && (Receivable(e.rx) ==> Receivable(e'.rx))
    && forall c :: c in cs ==> Own(e, c)
  }

  // The chunk fits the format, and belongs to a stream of the connection.
  ghost predicate Own(e: End, c: Chunk) {
    && Codec.Encodable(c)
    && (c.IsData() ==> c.stream in e.tx)
    && (c.Repeat? ==> c.stream in e.rx)
  }

  lemma ReceivableAfter(rx: RxMap, acks: seq<(byte, nat)>, c: Chunk, env: Rx.RxEnv)
    requires c.IsData() && Incoming.Plain(c)
    ensures Receivable(rx) && c.id < QUARTER ==>
      Receivable(rx[c.stream := Rx.ReadData(ReceivedOf(rx, acks, c.stream), c, env)])
  {
    hide Rx.ReadData, Outgoing.ReceiveOk, RxOrder.HalfOk, Outgoing.FieldsFit;
    if Receivable(rx) && c.id < QUARTER {
      ReceivedOk(rx, acks, c.stream);
      Incoming.ReadDataKeeps(ReceivedOf(rx, acks, c.stream), c, env);
    }
  }
}
