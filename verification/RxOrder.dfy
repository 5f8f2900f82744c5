/**
 What the receiving half keeps under every sequence of chunks whose ids stay below the
 first quarter of the id circle, honest or not: the queue is contiguous, a lookup finds the
 packet it asked for, and the terminal callbacks come in strictly increasing id order.
 */
module RxOrder {
  import opened Common
  import opened Chunks
  import opened RxModel

  ghost predicate Contiguous(fifo: seq<RxPacket>) {
    forall i :: 0 <= i < |fifo| ==> fifo[i].id == fifo[0].id + i
  }

  // The id of the oldest queued packet, or the id the queue will start at.
  function Base(s: RxState): nat {
    if s.fifo != [] then s.fifo[0].id else s.front
  }

  // One past the newest queued id.
  function End(s: RxState): nat {
    Base(s) + |s.fifo|
  }

  ghost predicate StreamOk(s: RxState) {
    && Contiguous(s.fifo)
    && Base(s) <= s.front <= QUARTER
    && End(s) <= QUARTER
    && BuffersFit(s)
    && (s.isNew ==> s.fifo == [] && s.front == 0)
  }

  ghost predicate LogOk(log: seq<RxEvent>, bound: nat) {
    && (forall i :: 0 <= i < |log| && log[i].Terminal() ==> log[i].id < bound)
    && (forall i, j :: 0 <= i < j < |log| && log[i].Terminal() && log[j].Terminal() ==> log[i].id < log[j].id)
  }

  ghost predicate HalfOk(h: RxHalf) {
    StreamOk(h.s) && LogOk(h.log, Base(h.s))
  }

  // -------------------------------------------------------------- RxStream

  lemma RaiseFrontOk(s: RxState, isFront: bool, id: nat)
    requires StreamOk(s) && !s.isNew && id <= QUARTER
    ensures RaiseFront(s, isFront, id) == s.(front := if isFront then Max(s.front, id) else s.front)
    ensures StreamOk(RaiseFront(s, isFront, id))
    ensures Base(s) <= Base(RaiseFront(s, isFront, id))
  {
  }

  lemma RaiseFrontIsMax(s: RxState, isFront: bool, id: nat)
    ensures StreamOk(s) && !s.isNew && id <= QUARTER ==>
      RaiseFront(s, isFront, id).front == if isFront then Max(s.front, id) else s.front
  {
  }

  // r is s with placeholders appended up to the given length.
  ghost predicate Extends(s: RxState, r: RxState, now: int, length: nat) {
    && r == s.(fifo := r.fifo)
    && |s.fifo| <= |r.fifo| == length
    && (forall i :: 0 <= i < |s.fifo| ==> r.fifo[i] == s.fifo[i])
    && (forall i :: |s.fifo| <= i < |r.fifo| ==> r.fifo[i] == Blank(Base(s) + i, now, s.isReliable))
  }

  lemma ExtendsOk(s: RxState, r: RxState, now: int, length: nat)
    requires StreamOk(s) && !s.isNew && Extends(s, r, now, length)
    requires length > 0 && Base(s) + length <= QUARTER
    ensures StreamOk(r) && Base(r) == Base(s)
  {
  }

  // emplace() on a contiguous queue, away from the wrap.
  lemma EmplaceExtends(s: RxState, now: int, id: nat)
    requires StreamOk(s) && !s.isNew && Base(s) <= id < QUARTER
    requires s.fifo == [] ==> id == s.front
    ensures Extends(s, Emplace(s, now, id), now, Max(|s.fifo|, id + 1 - Base(s)))
  {
  }

  lemma ExtendsTransitive(s: RxState, e: RxState, r: RxState, now: int, m: nat, n: nat)
    requires Extends(s, e, now, m) && Extends(e, r, now, n) && Base(e) == Base(s)
    ensures Extends(s, r, now, n)
  {
  }

  /** A lookup above the front extends the queue with placeholders only, and finds the packet. */
  lemma GetFinds(s: RxState, now: int, id: nat)
    requires StreamOk(s) && !s.isNew && s.front <= id < QUARTER
    ensures var r := GetState(s, now, id);
      && Extends(s, r, now, Max(|s.fifo|, id + 1 - Base(s)))
      && StreamOk(r)
      && Base(r) == Base(s)
      && IndexOf(r.fifo, id) == id - Base(s)
      && r.fifo[IndexOf(r.fifo, id)].id == id
  {
    var e := EmplaceFront(s, now, id);
    var m := if s.front < id then Max(|s.fifo|, s.front + 1 - Base(s)) else |s.fifo|;
    if s.front < id {
      EmplaceExtends(s, now, s.front);
      ExtendsOk(s, e, now, m);
    }
    EmplaceExtends(e, now, id);
    var r := GetState(s, now, id);
    var n := Max(|s.fifo|, id + 1 - Base(s));
    assert Extends(e, r, now, n);
    ExtendsTransitive(s, e, r, now, m, n);
    ExtendsOk(s, r, now, n);
    IndexOfContiguous(r.fifo, id);
  }

  lemma {:induction false} IndexOfContiguous(fifo: seq<RxPacket>, id: nat)
    requires fifo != [] && Contiguous(fifo)
    requires fifo[0].id <= id < fifo[0].id + |fifo|
    ensures IndexOf(fifo, id) == id - fifo[0].id
    ensures fifo[IndexOf(fifo, id)].id == id
  {
    var n := |fifo| - 1;
    assert fifo[n].id == fifo[0].id + n;
    if fifo[n].id != id {
      var init := fifo[..n];
      assert init[0] == fifo[0];
      IndexOfContiguous(init, id);
    }
  }

  // What a scan from the back finds.
  lemma {:induction false} IndexOfLast(fifo: seq<RxPacket>, id: nat, k: nat)
    requires k < |fifo| && forall j :: k < j < |fifo| ==> fifo[j].id != id
    requires k == 0 || fifo[k].id == id
    ensures IndexOf(fifo, id) == k
  {
    if k < |fifo| - 1 {
      IndexOfLast(fifo[..|fifo| - 1], id, k);
    }
  }

  lemma SetPacketOk(h: RxHalf, i: nat, p: RxPacket)
    requires HalfOk(h) && i < |h.s.fifo|
    requires p.id == h.s.fifo[i].id
    requires p.copy == [] || |p.copy| == p.size
    ensures HalfOk(SetPacket(h, i, p))
    ensures Base(SetPacket(h, i, p).s) == Base(h.s)
  {
  }

  // ---------------------------------------------------------- processRxFifo

  lemma PopFrontOk(s: RxState)
    requires StreamOk(s) && s.fifo != []
    ensures StreamOk(PopFront(s))
    ensures PopFront(s).front == Max(s.front, s.fifo[0].id + 1)
    ensures PopFront(s).fifo == s.fifo[1..]
    ensures Base(PopFront(s)) >= Base(s) + 1
    ensures !PopFront(s).isNew
    ensures s.fifo[0].id + 1 <= QUARTER
  {
  }

  lemma LogAppendOk(log: seq<RxEvent>, bound: nat, e: RxEvent, bound': nat)
    requires LogOk(log, bound) && bound <= bound'
    requires e.Terminal() ==> bound <= e.id < bound'
    ensures LogOk(log + [e], bound')
  {
  }

  lemma PopOnceOk(h: RxHalf)
    requires HalfOk(h) && h.s.fifo != []
    ensures HalfOk(PopOnce(h))
    ensures !PopOnce(h).s.isNew
  {
    PopFrontOk(h.s);
    LogAppendOk(h.log, Base(h.s), PopEvent(h.s), Base(PopFront(h.s)));
  }

  lemma {:induction false} ProcessOk(h: RxHalf, now: int)
    requires HalfOk(h) && !h.s.isNew
    ensures HalfOk(Process(h, now))
    ensures !Process(h, now).s.isNew
    decreases |h.s.fifo|
  {
    if PopReady(h.s, now) {
      PopOnceOk(h);
      ProcessOk(PopOnce(h), now);
    }
  }

  // -------------------------------------------------------------- readChunk

  lemma OpenOk(h: RxHalf, now: int)
    requires HalfOk(h)
    ensures HalfOk(Open(h, now))
    ensures !Open(h, now).s.isNew
    ensures h.s.isNew ==> Open(h, now) == h.(s := h.s.(isNew := false, fifo := [Blank(0, now, h.s.isReliable)]))
  {
  }

  lemma AdvanceOk(h: RxHalf, isFront: bool, id: nat)
    requires HalfOk(h) && !h.s.isNew && id < QUARTER
    ensures HalfOk(Advance(h, isFront, id))
    ensures !Advance(h, isFront, id).s.isNew
  {
  }

  // Below the first quarter, "received before" is exactly "below the front".
  lemma ReceivedBeforeOk(s: RxState, id: nat)
    requires StreamOk(s) && id < QUARTER
    ensures IsReceivedBefore(s, id) <==> id < s.front
  {
  }

  lemma LookupOk(h: RxHalf, now: int, id: nat)
    requires HalfOk(h) && !h.s.isNew && h.s.front <= id < QUARTER
    ensures var g := Lookup(h, now, id);
      && HalfOk(g) && !g.s.isNew
      && g.s.fifo[IndexOf(g.s.fifo, id)].id == id
  {
    GetFinds(h.s, now, id);
  }

  lemma FinishOk(h: RxHalf, c: Chunk, ack: bool, process: bool, now: int)
    requires HalfOk(h) && !h.s.isNew
    ensures HalfOk(Finish(h, c, ack, process, now))
  {
    ProcessOk(if ack then PushAck(h, c.stream, c.id) else h, now);
  }

  lemma StoreSmallOk(h: RxHalf, i: nat, id: nat, data: seq<byte>, timeout: int)
    requires HalfOk(h) && !h.s.isNew && i < |h.s.fifo| && h.s.fifo[i].id == id
    ensures HalfOk(StoreSmall(h, i, id, data, timeout))
    ensures !StoreSmall(h, i, id, data, timeout).s.isNew
  {
    var p := h.s.fifo[i].(timeout := timeout);
    if p.isReceived {
      SetPacketOk(h, i, p);
    } else if h.s.fifo[0].id == id {
      PopFrontOk(h.s);
      LogAppendOk(h.log, Base(h.s), Delivered(id, |data|, Some(data)), Base(PopFront(h.s)));
    } else {
      SetPacketOk(h, i, p.(isReceived := true, size := |data|, copy := data));
    }
  }

  lemma PiecePacketFits(p: RxPacket, front: nat, c: Chunk)
    requires c.Piece? && (p.copy == [] || |p.copy| == p.size)
    ensures var q := PiecePacket(p, front, c);
      q.id == p.id && (q.copy == [] || |q.copy| == q.size)
  {
  }

  lemma StorePieceOk(h: RxHalf, i: nat, c: Chunk, env: RxEnv)
    requires HalfOk(h) && !h.s.isNew && c.Piece? && i < |h.s.fifo|
    ensures HalfOk(StorePiece(h, i, c, env))
    ensures !StorePiece(h, i, c, env).s.isNew
  {
    var p := Stamped(h.s.fifo[i], env);
    var q := PiecePacket(p, h.s.front, c);
    PiecePacketFits(p, h.s.front, c);
    SetPacketOk(h, i, q);
    var t := SetPacket(h, i, q);
    LogAppendOk(t.log, Base(t.s), PieceOf(c.id, c.offset, c.data), Base(t.s));
  }

  lemma PlaceAtOk(h: RxHalf, i: nat, c: Chunk, env: RxEnv)
    requires HalfOk(h) && !h.s.isNew && c.IsData() && i < |h.s.fifo| && h.s.fifo[i].id == c.id
    ensures HalfOk(PlaceAt(h, i, c, env))
  {
    hide StoreSmall, StorePiece, Process;
    match c
    case Small(_, id, reliable, _, data) =>
      StoreSmallOk(h, i, id, data, env.now + env.grace);
      FinishOk(StoreSmall(h, i, id, data, env.now + env.grace), c, reliable, true, env.now);
    case Begin(_, _, _, _, _) =>
      var p := BeginPacket(h.s.fifo[i], c, env);
      SetPacketOk(h, i, p);
      FinishOk(SetPacket(h, i, p), c, false, true, env.now);
    case Piece(_, _, _, _, _, _) =>
      StorePieceOk(h, i, c, env);
      var done := PieceCompletes(h.s.fifo[i], h.s.front, c);
      FinishOk(StorePiece(h, i, c, env), c, done && h.s.fifo[i].isReliable, done, env.now);
  }

  lemma AcceptOk(h: RxHalf, c: Chunk, env: RxEnv)
    requires HalfOk(h) && !h.s.isNew && c.IsData() && c.id < QUARTER
    ensures HalfOk(Accept(h, c, env))
  {
    ReceivedBeforeOk(h.s, c.id);
    if !IsFull(h.s) && !IsReceivedBefore(h.s, c.id) {
      LookupOk(h, env.now, c.id);
      var g := Lookup(h, env.now, c.id);
      PlaceAtOk(g, IndexOf(g.s.fifo, c.id), c, env);
    } else {
      FinishOk(h, c, c.reliable && c.CarriesPayload(), false, env.now);
    }
  }

  lemma ReadDataOk(h: RxHalf, c: Chunk, env: RxEnv)
    requires HalfOk(h) && c.IsData() && c.id < QUARTER
    ensures HalfOk(ReadData(h, c, env))
  {
    OpenOk(h, env.now);
    AdvanceOk(Open(h, env.now), c.front, c.id);
    AcceptOk(Advance(Open(h, env.now), c.front, c.id), c, env);
  }

  // ------------------------------------------------------------ whole runs

  /** The inputs of a receiving half: a chunk from the network, or a pass over the queue. */
  datatype RxInput = Data(chunk: Chunk, env: RxEnv) | Tick(now: int)

  function Feed(h: RxHalf, inputs: seq<RxInput>): RxHalf
    requires forall i :: 0 <= i < |inputs| && inputs[i].Data? ==> inputs[i].chunk.IsData()
  {
    if inputs == [] then h
    else
      var before := Feed(h, inputs[..|inputs| - 1]);
      match inputs[|inputs| - 1]
      case Data(c, env) => ReadData(before, c, env)
      case Tick(now) => if before.s.isNew then before else Process(before, now)
  }

  const EMPTY_HALF := RxHalf(NEW_STREAM, [], [])

  /**
   Ordered, at most once: whatever chunks arrive, in whatever order and however often, two
   terminal callbacks of one stream never name the same id and never go backwards; and the
   queue stays contiguous with its front at most frontPacketId.
   */
  lemma {:induction false} OrderedAtMostOnce(inputs: seq<RxInput>)
    requires forall i :: 0 <= i < |inputs| && inputs[i].Data? ==>
      inputs[i].chunk.IsData() && inputs[i].chunk.id < QUARTER
    ensures HalfOk(Feed(EMPTY_HALF, inputs))
    ensures var log := Feed(EMPTY_HALF, inputs).log;
      forall i, j :: 0 <= i < j < |log| && log[i].Terminal() && log[j].Terminal() ==> log[i].id < log[j].id
  {
    if inputs != [] {
      var n := |inputs| - 1;
      var prefix := inputs[..n];
      assert forall i :: 0 <= i < n ==> prefix[i] == inputs[i];
      OrderedAtMostOnce(prefix);
      var before := Feed(EMPTY_HALF, prefix);
      match inputs[n]
      case Data(c, env) => ReadDataOk(before, c, env);
      case Tick(now) => if !before.s.isNew { ProcessOk(before, now); }
    }
  }

  // ------------------------------------------------------------ at the wrap

  ghost predicate CircularlyContiguous(fifo: seq<RxPacket>) {
    forall i :: 0 <= i < |fifo| ==> fifo[i].id == (fifo[0].id + i) % U32_MOD
  }

  lemma EmplaceBelowWrap(fifo: seq<RxPacket>, more: seq<RxPacket>)
    requires fifo != [] && CircularlyContiguous(fifo)
    requires forall i :: 0 <= i < |more| ==> more[i].id == fifo[|fifo| - 1].id + 1 + i < U32_MOD
    ensures CircularlyContiguous(fifo + more)
  {
    var n, first := |fifo|, fifo[0].id;
    var last := first + (n - 1);
    assert fifo[n - 1].id == last % U32_MOD;
    forall i | 0 <= i < |more|
      ensures more[i].id == (first + (n + i)) % U32_MOD
    {
      assert more[i].id == last % U32_MOD + (i + 1);
      OnTheCircle(last, i + 1);
    }
  }

  lemma OnTheCircle(x: nat, k: nat)
    requires x % U32_MOD + k < U32_MOD
    ensures (x + k) % U32_MOD == x % U32_MOD + k
  {
  }

  /**
   emplace() keeps the queue contiguous on the id circle exactly when it does not take its
   wrap branch: that branch starts at the id already at the back and appends it again.
   */
  lemma EmplaceContiguousIff(s: RxState, now: int, id: nat)
    requires s.fifo != [] && CircularlyContiguous(s.fifo) && id < U32_MOD
    ensures CircularlyContiguous(Emplace(s, now, id).fifo)
      <==> !EmplaceWraps(s.fifo[|s.fifo| - 1].id, id)
  {
    var n := |s.fifo|;
    var back := s.fifo[n - 1].id;
    var more := Appended(back, id, now, s.isReliable);
    if EmplaceWraps(back, id) {
      var r := s.fifo + more;
      assert back == (s.fifo[0].id + (n - 1)) % U32_MOD;
      assert r[n] == more[0] && more[0].id == back;
      assert (r[0].id + n) % U32_MOD != back;
    } else {
      EmplaceBelowWrap(s.fifo, more);
    }
  }

  /** The branch taken: a queue that ends one before the last id gets that id a second time. */
  lemma WrapRepeatsAnId()
    ensures var s := RxState([Blank(UINT32_MAX - 1, 0, true)], UINT32_MAX - 1, 0, true, false);
      && Ids(Emplace(s, 0, 0).fifo) == [UINT32_MAX - 1, UINT32_MAX - 1, UINT32_MAX, 0]
      && !CircularlyContiguous(Emplace(s, 0, 0).fifo)
  {
    var s := RxState([Blank(UINT32_MAX - 1, 0, true)], UINT32_MAX - 1, 0, true, false);
    EmplaceContiguousIff(s, 0, 0);
  }

  // Ids are uint32.
  ghost predicate IdsFit(s: RxState) {
    s.front <= UINT32_MAX && forall i :: 0 <= i < |s.fifo| ==> s.fifo[i].id <= UINT32_MAX
  }

  /** An id was received before when it lies at most a quarter of the circle behind the front. */
  lemma ReceivedBeforeIsBehind(s: RxState, id: nat)
    requires IdsFit(s) && id <= UINT32_MAX
    ensures IsReceivedBefore(s, id) <==>
      0 < (s.front - id) % U32_MOD <= (if id > s.front then QUARTER + 4 else QUARTER)
  {
  }

  // The step that the test of updateFrontPacketId takes for one forward, and is one back.
  predicate JumpsBack(front: nat, id: nat) {
    front < id && id - front >= QUARTER3
  }

  // The front as the queue's own oldest packet raises it.
  function HeadFront(s: RxState): nat {
    RaiseFront(s, false, 0).front
  }

  /**
   The front moves behind itself exactly when the queue's oldest id, or the id of a chunk
   marked front, is three quarters of the circle or more above it.
   */
  lemma FrontRewindsIff(s: RxState, isFront: bool, id: nat)
    requires IdsFit(s) && id <= UINT32_MAX
    ensures IsReceivedBefore(s, HeadFront(s)) <==> s.fifo != [] && JumpsBack(s.front, s.fifo[0].id)
    ensures IsReceivedBefore(s.(front := HeadFront(s)), RaiseFront(s, isFront, id).front)
      <==> isFront && JumpsBack(HeadFront(s), id)
  {
  }

  /** Such an id: one from before the wrap that comes late. */
  lemma LateIdRewindsFront()
    ensures var s := RxState([], 5, 0, false, false);
      JumpsBack(5, UINT32_MAX - 3) && RaiseFront(s, true, UINT32_MAX - 3).front == UINT32_MAX - 3
  {
  }
}
