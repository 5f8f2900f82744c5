/** What a data chunk keeps of a receiving stream that shares its acknowledgement queue. */
module Incoming {
  import opened Common
  import opened Chunks
  import opened RxModel
  import opened RxOrder
  import Outgoing
  import Codec
  import Datagrams

  // What the parser of chunks makes of any bytes: ids are uint32, sizes and offsets uint64.
  predicate Plain(c: Chunk) {
    && c.id <= UINT32_MAX
    && (c.Begin? ==> c.size <= UINT64_MAX)
    && (c.Piece? ==> c.offset <= UINT64_MAX)
    && (c.CarriesPayload() ==> |c.data| <= UINT64_MAX)
  }

  lemma ParsedPlain(s: seq<byte>)
    requires |s| <= Outgoing.MAX_DATAGRAM && Codec.Parse(s).Chunk?
    ensures Plain(Codec.Parse(s).chunk)
  {
    Codec.Powers();
    assert Codec.Pow256(1) == 256;
    hide Codec.FromLe, Codec.Pow256;
  }

  // The queue of acknowledgements is as it was, or has the chunk's at its end.
  ghost predicate AcksAfter(was: seq<(byte, nat)>, acks: seq<(byte, nat)>, c: Chunk) {
    acks == was || acks == was + [(c.stream, c.id)]
  }

  // The stream is receivable, and stays open once it is.
  ghost predicate Kept(h: RxHalf, r: RxHalf) {
    Outgoing.FieldsFit(r.s.fifo) && r.s.isNew == h.s.isNew
  }

  lemma {:induction false} ProcessKeeps(h: RxHalf, now: int)
    requires Outgoing.FieldsFit(h.s.fifo)
    ensures Kept(h, Process(h, now)) && Process(h, now).acks == h.acks
    decreases |h.s.fifo|
  {
    if PopReady(h.s, now) {
      ProcessKeeps(PopOnce(h), now);
    }
  }

  lemma FinishKeeps(h: RxHalf, c: Chunk, ack: bool, process: bool, now: int)
    requires Outgoing.FieldsFit(h.s.fifo)
    ensures Kept(h, Finish(h, c, ack, process, now))
    ensures AcksAfter(h.acks, Finish(h, c, ack, process, now).acks, c)
  {
    ProcessKeeps(if ack then PushAck(h, c.stream, c.id) else h, now);
  }

  lemma StoreSmallKeeps(h: RxHalf, i: nat, id: nat, data: seq<byte>, timeout: int)
    requires i < |h.s.fifo| && Outgoing.FieldsFit(h.s.fifo) && |data| <= UINT64_MAX
    ensures Kept(h, StoreSmall(h, i, id, data, timeout)) && StoreSmall(h, i, id, data, timeout).acks == h.acks
  {
  }

  lemma SetPacketKeeps(h: RxHalf, i: nat, p: RxPacket)
    requires i < |h.s.fifo| && Outgoing.FieldsFit(h.s.fifo) && Outgoing.FieldsFit([p])
    ensures Kept(h, SetPacket(h, i, p))
  {
    assert [p][0] == p;
  }

  lemma StorePieceKeeps(h: RxHalf, i: nat, c: Chunk, env: RxEnv)
    requires i < |h.s.fifo| && Outgoing.FieldsFit(h.s.fifo) && c.Piece? && Plain(c)
    ensures Kept(h, StorePiece(h, i, c, env)) && StorePiece(h, i, c, env).acks == h.acks
  {
    SetPacketKeeps(h, i, PiecePacket(Stamped(h.s.fifo[i], env), h.s.front, c));
  }

  lemma PlaceKeeps(h: RxHalf, i: nat, c: Chunk, env: RxEnv)
    requires c.IsData() && Plain(c) && i < |h.s.fifo| && Outgoing.FieldsFit(h.s.fifo)
    ensures Kept(h, PlaceAt(h, i, c, env))
    ensures AcksAfter(h.acks, PlaceAt(h, i, c, env).acks, c)
  {
    hide Process, Finish, StoreSmall, StorePiece;
    match c
    case Small(_, id, reliable, _, data) =>
      StoreSmallKeeps(h, i, id, data, env.now + env.grace);
      FinishKeeps(StoreSmall(h, i, id, data, env.now + env.grace), c, reliable, true, env.now);
    case Begin(_, _, _, _, _) =>
      SetPacketKeeps(h, i, BeginPacket(h.s.fifo[i], c, env));
      FinishKeeps(SetPacket(h, i, BeginPacket(h.s.fifo[i], c, env)), c, false, true, env.now);
    case Piece(_, _, _, _, _, _) =>
      StorePieceKeeps(h, i, c, env);
      var done := PieceCompletes(h.s.fifo[i], h.s.front, c);
      FinishKeeps(StorePiece(h, i, c, env), c, done && h.s.fifo[i].isReliable, done, env.now);
  }

  // The acknowledgements, for every id.
  lemma {:induction false} ProcessAcks(h: RxHalf, now: int)
    ensures Process(h, now).acks == h.acks
    decreases |h.s.fifo|
  {
    if PopReady(h.s, now) {
      ProcessAcks(PopOnce(h), now);
    }
  }

  lemma FinishAcks(h: RxHalf, c: Chunk, ack: bool, process: bool, now: int)
    ensures AcksAfter(h.acks, Finish(h, c, ack, process, now).acks, c)
  {
    ProcessAcks(if ack then PushAck(h, c.stream, c.id) else h, now);
  }

  /** Any data chunk adds at most its own acknowledgement. */
  lemma ReadDataAcks(h: RxHalf, c: Chunk, env: RxEnv)
    requires c.IsData()
    ensures AcksAfter(h.acks, ReadData(h, c, env).acks, c)
  {
    hide Process, Finish, StoreSmall, PiecePacket, BeginPacket;
    var a := Advance(Open(h, env.now), c.front, c.id);
    if !IsFull(a.s) && !IsReceivedBefore(a.s, c.id) {
      var g := Lookup(a, env.now, c.id);
      var i := IndexOf(g.s.fifo, c.id);
      if g.s.fifo[i].id == c.id {
        PlaceAcks(g, i, c, env);
      }
    } else {
      FinishAcks(a, c, c.reliable && c.CarriesPayload(), false, env.now);
    }
  }

  lemma PlaceAcks(h: RxHalf, i: nat, c: Chunk, env: RxEnv)
    requires c.IsData() && i < |h.s.fifo|
    ensures AcksAfter(h.acks, PlaceAt(h, i, c, env).acks, c)
  {
    hide Process, Finish, PiecePacket, BeginPacket;
    match c
    case Small(_, id, reliable, _, data) =>
      FinishAcks(StoreSmall(h, i, id, data, env.now + env.grace), c, reliable, true, env.now);
    case Begin(_, _, _, _, _) =>
      FinishAcks(SetPacket(h, i, BeginPacket(h.s.fifo[i], c, env)), c, false, true, env.now);
    case Piece(_, _, _, _, _, _) =>
      var done := PieceCompletes(h.s.fifo[i], h.s.front, c);
      FinishAcks(StorePiece(h, i, c, env), c, done && h.s.fifo[i].isReliable, done, env.now);
  }

  lemma LookupKeeps(h: RxHalf, now: int, id: nat)
    requires HalfOk(h) && !h.s.isNew && h.s.front <= id < QUARTER && Outgoing.FieldsFit(h.s.fifo)
    ensures Kept(h, Lookup(h, now, id)) && Lookup(h, now, id).acks == h.acks
  {
    GetFinds(h.s, now, id);
  }

  lemma AcceptKeeps(h: RxHalf, c: Chunk, env: RxEnv)
    requires HalfOk(h) && !h.s.isNew && c.IsData() && Plain(c) && c.id < QUARTER
    requires Outgoing.FieldsFit(h.s.fifo)
    ensures Kept(h, Accept(h, c, env)) && AcksAfter(h.acks, Accept(h, c, env).acks, c)
  {
    ReceivedBeforeOk(h.s, c.id);
    hide PlaceAt, Finish, HalfOk, Plain, Outgoing.FieldsFit;
    if !IsFull(h.s) && !IsReceivedBefore(h.s, c.id) {
      LookupKeeps(h, env.now, c.id);
      var g := Lookup(h, env.now, c.id);
      PlaceKeeps(g, IndexOf(g.s.fifo, c.id), c, env);
    } else {
      FinishKeeps(h, c, c.reliable && c.CarriesPayload(), false, env.now);
    }
  }

  lemma ArriveKeeps(h: RxHalf, c: Chunk, now: int)
    requires HalfOk(h) && Outgoing.FieldsFit(h.s.fifo) && c.IsData() && c.id < QUARTER
    ensures var a := Advance(Open(h, now), c.front, c.id);
      HalfOk(a) && !a.s.isNew && Outgoing.FieldsFit(a.s.fifo) && a.acks == h.acks
  {
    OpenOk(h, now);
    AdvanceOk(Open(h, now), c.front, c.id);
    hide HalfOk;
  }

  /** Every chunk that fits the format keeps the stream receivable and adds at most its own acknowledgement. */
  lemma ReadDataKeeps(h: RxHalf, c: Chunk, env: RxEnv)
    requires HalfOk(h) && Outgoing.FieldsFit(h.s.fifo)
    requires c.IsData() && Plain(c) && c.id < QUARTER
    ensures Outgoing.ReceiveOk(ReadData(h, c, env)) && AcksAfter(h.acks, ReadData(h, c, env).acks, c)
  {
    hide HalfOk, Open, Advance, Accept, Plain, Outgoing.FieldsFit;
    ReadDataOk(h, c, env);
    ArriveKeeps(h, c, env.now);
    AcceptKeeps(Advance(Open(h, env.now), c.front, c.id), c, env);
  }
}
