/**
 When a packet is sent, sent again and let go, in the fields of the packet and the clock: what
 each operation of the sending half must do, and why each report was made in every run.
 */
module SenderLaws {
  import opened Common
  import opened Chunks
  import opened TxModel
  import opened TxOrder

  // ------------------------------------------------------------- one operation

  lemma {:induction false} FindFirst(fifo: seq<TxPacket>, i: nat)
    requires i < |fifo| && forall j :: 0 <= j < i ==> fifo[j].id != fifo[i].id
    ensures Find(fifo, fifo[i].id) == Some(i)
    decreases i
  {
    if i > 0 {
      FindFirst(fifo[1..], i - 1);
    }
  }

  // Ids in a queue of at most 2^32 consecutive packets are distinct.
  lemma OnlyOne(h: TxHalf, enq: seq<seq<byte>>, i: nat)
    requires Conserved(h, enq) && |h.t.fifo| <= U32_MOD && i < |h.t.fifo|
    ensures Find(h.t.fifo, h.t.fifo[i].id) == Some(i)
  {
    forall j | 0 <= j < i
      ensures h.t.fifo[j].id != h.t.fifo[i].id
    {
      assert IsNth(h.t.fifo[j], |h.log| + j, enq) && IsNth(h.t.fifo[i], |h.log| + i, enq);
    }
    FindFirst(h.t.fifo, i);
  }

  /** An acknowledgement marks the packet it names and nothing else, and is followed by a pass over the queue. */
  lemma AckMarks(h: TxHalf, enq: seq<seq<byte>>, i: nat, now: int) returns (n: nat)
    requires Conserved(h, enq) && |h.t.fifo| <= U32_MOD && i < |h.t.fifo|
    ensures var marked := h.(t := h.t.(fifo := h.t.fifo[i := h.t.fifo[i].(isAcknowledged := true)]));
      Passed(marked, ReadAck(h, h.t.fifo[i].id, now), n, now)
  {
    OnlyOne(h, enq, i);
    n := ProcessPasses(SetPacket(h, i, h.t.fifo[i].(isAcknowledged := true)), now);
  }

  /** An acknowledgement for no queued packet does nothing. */
  lemma AckForNone(h: TxHalf, id: nat, now: int)
    requires forall i :: 0 <= i < |h.t.fifo| ==> h.t.fifo[i].id != id
    ensures ReadAck(h, id, now) == h
  {
  }

  /** The packet at the front is reported 's' at once when its acknowledgement comes. */
  lemma AckReports(h: TxHalf, enq: seq<seq<byte>>, now: int)
    requires Conserved(h, enq) && 0 < |h.t.fifo| <= U32_MOD
    ensures var r := ReadAck(h, h.t.fifo[0].id, now);
      |r.log| > |h.log| && r.log[|h.log|] == TxEvent(h.t.fifo[0].id, h.t.fifo[0].payload, 's')
  {
    var n := AckMarks(h, enq, 0, now);
    var marked := h.t.fifo[0 := h.t.fifo[0].(isAcknowledged := true)];
    assert Fate(ReadAck(h, h.t.fifo[0].id, now).log[|h.log| + 0], marked[0], now);
  }

  /** A repeat request moves a reliable packet to the offset; at offset 0 it starts again from its begin chunk. */
  lemma RepeatMoves(h: TxHalf, enq: seq<seq<byte>>, i: nat, offset: nat)
    requires Conserved(h, enq) && |h.t.fifo| <= U32_MOD && i < |h.t.fifo|
    ensures var p := h.t.fifo[i];
      var r := ReadRepeat(h, p.id, offset);
      && r.log == h.log && r.t == h.t.(fifo := r.t.fifo) && |r.t.fifo| == |h.t.fifo|
      && (forall j :: 0 <= j < |h.t.fifo| && (j != i || !p.isReliable) ==> r.t.fifo[j] == h.t.fifo[j])
      && (p.isReliable ==>
        && r.t.fifo[i].offset == offset && (r.t.fifo[i].isStarted <==> p.isStarted && offset != 0)
        && r.t.fifo[i] == p.(offset := offset, isStarted := r.t.fifo[i].isStarted))
  {
    OnlyOne(h, enq, i);
  }

  // What a chunk says of the packet it is cut from, and why it is of its kind.
  predicate CutOf(c: Chunk, p: TxPacket, available: nat) {
    match c
    case Small(_, _, _, _, data) => !p.isStarted && data == p.payload
    case Begin(_, _, _, _, size) =>
      !p.isStarted && size == |p.payload| && CHUNK_HEADER_B + Width(|p.payload|) + |p.payload| > available
    case Piece(_, _, _, _, offset, data) =>
      && p.isStarted && offset == p.offset && 0 < |data| <= |p.payload| - offset
      && data == p.payload[offset..offset + |data|]
      && (offset + |data| < |p.payload| ==> EncodedSize(c) + 1 >= available)
    case _ => false
  }

  /**
   A packet that has not started, or starts again, is sent whole if it fits and announced by a
   begin chunk if not; one that has started gives its next bytes, as many as fit.
   */
  lemma NextKind(t: TxState, available: nat)
    requires t.packetFifoIdx < |t.fifo| && available <= 0xFFFF && NextChunk(t, available).Some?
    requires t.fifo[t.packetFifoIdx].offset < |t.fifo[t.packetFifoIdx].payload| <= UINT64_MAX
    ensures var p, c := t.fifo[t.packetFifoIdx], NextChunk(t, available).value;
      && c.IsData() && c.stream == t.stream && c.id == p.id && c.reliable == p.isReliable
      && (c.front <==> t.packetFifoIdx == 0) && EncodedSize(c) <= available && CutOf(c, p, available)
  {
    hide CutOf, EncodedSize, PieceOverhead, PieceLength;
    var p := t.fifo[t.packetFifoIdx];
    if p.isStarted {
      PieceKind(t, p, available);
    } else {
      FirstKind(t, p, available);
    }
  }

  lemma FirstKind(t: TxState, p: TxPacket, available: nat)
    requires !p.isStarted
    ensures CutOf(SmallChunk(t, p), p, available)
    ensures EncodedSize(SmallChunk(t, p)) > available ==> CutOf(BeginChunk(t, p), p, available)
  {
    hide NumberOfBits;
  }

  lemma PieceKind(t: TxState, p: TxPacket, available: nat)
    requires p.isStarted && p.offset < |p.payload| <= UINT64_MAX && PieceOverhead(p) <= available <= 0xFFFF
    ensures var c := PieceChunk(t, p, PieceLength(p, available));
      CutOf(c, p, available) && EncodedSize(c) <= available
  {
    LeftInside(p);
    hide Left, NumberOfBits;
  }

  /** A packet gives no chunk if and only if neither it nor its begin chunk fits, or no byte of its next piece. */
  lemma NoChunkIff(t: TxState, available: nat)
    requires t.packetFifoIdx < |t.fifo|
    ensures var p := t.fifo[t.packetFifoIdx];
      NextChunk(t, available).None? <==>
        if p.isStarted then available < 9 + Width(p.offset)
        else available < 10 + Width(|p.payload|) && available < 6 + Width(|p.payload|) + |p.payload|
  {
    hide NumberOfBits;
  }

  /** Eighteen bytes of room are enough for a chunk of any packet. */
  lemma RoomIsEnough(t: TxState, available: nat)
    requires t.packetFifoIdx < |t.fifo| && available >= 18
    ensures NextChunk(t, available).Some?
  {
    hide NumberOfBits;
  }

  /**
   When a packet is due again after it gave the chunk: a small packet, or one that gave its last
   piece, in a later datagram and two round trips after it began; one with more to give in a
   later datagram; one that began at once. An unreliable packet is not sent again.
   */
  lemma DueAgainIff(p: TxPacket, c: Chunk, env: TxEnv, later: TxEnv)
    requires Due(p, env) && c.IsData() && (c.Piece? <==> p.isStarted)
    ensures var q := Written(p, c, env);
      var last := c.Piece? && p.offset + |c.data| >= |p.payload|;
      && q.id == p.id && q.payload == p.payload && q.timeout == p.timeout && q.isReliable == p.isReliable
      && q.begin == (if c.Piece? then p.begin else env.now)
      && (!p.isReliable && (c.Small? || last) ==> q.isAcknowledged && !Due(q, later))
      && (p.isReliable && c.Small? ==>
        (Due(q, later) <==>
          later.now < p.timeout && later.datagram != env.datagram && env.now + later.rtt2 <= later.now))
      && (p.isReliable && last ==>
        && q.offset == 0
        && (Due(q, later) <==>
          later.now < p.timeout && later.datagram != env.datagram && p.begin + later.rtt2 <= later.now))
      && (c.Piece? && !last ==>
        && q.offset == p.offset + |c.data| && q.isStarted
        && (Due(q, later) <==> later.now < p.timeout && later.datagram != env.datagram))
      && (c.Begin? ==>
        && q.offset == p.offset && q.isStarted && q.begin == env.now
        && (Due(q, later) <==> later.now < p.timeout && later.datagram != p.datagramId))
  {
  }

  /** What send() appends starts at its first byte, and is due at once until its deadline. */
  lemma SentIsDue(h: TxHalf, payload: seq<byte>, deadline: int, env: TxEnv)
    ensures var r := Enqueue(h, payload, deadline);
      var p := r.t.fifo[|h.t.fifo|];
      && |r.t.fifo| == |h.t.fifo| + 1 && r.t.fifo[..|h.t.fifo|] == h.t.fifo && r.log == h.log
      && p.payload == payload && p.offset == 0 && !p.isStarted && p.isReliable == h.t.isReliable
      && (env.datagram != UINT64_MAX && env.rtt2 <= env.now ==> (Due(p, env) <==> env.now < deadline))
  {
  }

  // ------------------------------------------------------------- whole runs

  // The deadlines handed to send(), in order.
  function Deadlines(inputs: seq<TxInput>): seq<int> {
    if inputs == [] then []
    else
      Deadlines(inputs[..|inputs| - 1])
      + (if inputs[|inputs| - 1].Send? then [inputs[|inputs| - 1].deadline] else [])
  }

  // An input at which the sender looks at its clock.
  predicate LooksAt(input: TxInput, now: int) {
    (input.Offer? && input.env.now == now) || (input.AckIn? && input.now == now)
  }

  predicate LooksAfter(input: TxInput, deadline: int) {
    (input.Offer? && deadline < input.env.now) || (input.AckIn? && deadline < input.now)
  }

  ghost predicate Expired(inputs: seq<TxInput>, deadline: int) {
    exists i :: 0 <= i < |inputs| && LooksAfter(inputs[i], deadline)
  }

  // An acknowledgement of the k-th packet came after it was sent.
  ghost predicate Acked(inputs: seq<TxInput>, k: nat) {
    exists i :: 0 <= i < |inputs| && AcksNth(inputs, i, k)
  }

  predicate AcksNth(inputs: seq<TxInput>, i: nat, k: nat)
    requires i < |inputs|
  {
    inputs[i].AckIn? && inputs[i].id == k % U32_MOD && k < |Sent(inputs[..i])|
  }

  ghost predicate Explained(h: TxHalf, inputs: seq<TxInput>) {
    && |Deadlines(inputs)| == |h.log| + |h.t.fifo|
    && (forall j :: 0 <= j < |h.t.fifo| ==> QueuedWhy(h.t.fifo[j], |h.log| + j, inputs))
    && (forall k :: 0 <= k < |h.log| ==> LoggedWhy(h.log[k], k, h.t.isReliable, inputs))
  }

  // A queued packet keeps its deadline, and is marked only by its acknowledgement.
  ghost predicate QueuedWhy(p: TxPacket, k: nat, inputs: seq<TxInput>) {
    && k < |Deadlines(inputs)| && p.timeout == Deadlines(inputs)[k]
    && (p.isReliable && p.isAcknowledged ==> Acked(inputs, k))
  }

  // A packet is reported 't' only past its deadline, and 's' of a reliable stream only when acknowledged.
  ghost predicate LoggedWhy(e: TxEvent, k: nat, isReliable: bool, inputs: seq<TxInput>) {
    && k < |Deadlines(inputs)|
    && (e.status == 't' ==> Expired(inputs, Deadlines(inputs)[k]))
    && (e.status == 's' && isReliable ==> Acked(inputs, k))
  }

  lemma ExplainedGrows(h: TxHalf, inputs: seq<TxInput>, input: TxInput)
    requires Explained(h, inputs) && !input.Send?
    ensures Explained(h, inputs + [input])
  {
    var more := inputs + [input];
    assert more[..|inputs|] == inputs;
    assert Deadlines(more) == Deadlines(inputs);
    forall k | Acked(inputs, k)
      ensures Acked(more, k)
    {
      var i :| 0 <= i < |inputs| && AcksNth(inputs, i, k);
      assert more[..i] == inputs[..i];
      assert AcksNth(more, i, k);
    }
    forall d | Expired(inputs, d)
      ensures Expired(more, d)
    {
      var i :| 0 <= i < |inputs| && LooksAfter(inputs[i], d);
      assert LooksAfter(more[i], d);
    }
    hide Acked, Expired, Deadlines;
    forall j | 0 <= j < |h.t.fifo|
      ensures QueuedWhy(h.t.fifo[j], |h.log| + j, more)
    {
      assert QueuedWhy(h.t.fifo[j], |h.log| + j, inputs);
    }
    forall k | 0 <= k < |h.log|
      ensures LoggedWhy(h.log[k], k, h.t.isReliable, more)
    {
      assert LoggedWhy(h.log[k], k, h.t.isReliable, inputs);
    }
  }

  lemma SetExplained(h: TxHalf, i: nat, q: TxPacket, inputs: seq<TxInput>)
    requires Explained(h, inputs) && i < |h.t.fifo| && q.timeout == h.t.fifo[i].timeout
    requires q.isReliable == h.t.fifo[i].isReliable
    requires q.isReliable && q.isAcknowledged ==> h.t.fifo[i].isAcknowledged || Acked(inputs, |h.log| + i)
    ensures Explained(SetPacket(h, i, q), inputs)
  {
    hide Acked, Expired, Deadlines;
    assert QueuedWhy(h.t.fifo[i], |h.log| + i, inputs);
    var r := SetPacket(h, i, q);
    forall j | 0 <= j < |r.t.fifo|
      ensures QueuedWhy(r.t.fifo[j], |r.log| + j, inputs)
    {
      assert QueuedWhy(h.t.fifo[j], |h.log| + j, inputs);
    }
  }

  lemma ProcessExplained(h: TxHalf, enq: seq<seq<byte>>, now: int, inputs: seq<TxInput>)
    requires Conserved(h, enq) && Explained(h, inputs)
    requires inputs != [] && LooksAt(inputs[|inputs| - 1], now)
    ensures Explained(Process(h, now), inputs)
  {
    var n := ProcessPasses(h, now);
    var r := Process(h, now);
    hide Process, Acked, Deadlines;
    forall j | 0 <= j < |r.t.fifo|
      ensures QueuedWhy(r.t.fifo[j], |r.log| + j, inputs)
    {
      assert QueuedWhy(h.t.fifo[n + j], |h.log| + (n + j), inputs);
    }
    forall k | 0 <= k < |r.log|
      ensures LoggedWhy(r.log[k], k, r.t.isReliable, inputs)
    {
      if k < |h.log| {
        assert LoggedWhy(h.log[k], k, h.t.isReliable, inputs);
        assert r.log[k] == h.log[k];
      } else {
        var i := k - |h.log|;
        assert Fate(r.log[|h.log| + i], h.t.fifo[i], now) && QueuedWhy(h.t.fifo[i], |h.log| + i, inputs);
        if r.log[k].status == 't' {
          assert LooksAfter(inputs[|inputs| - 1], Deadlines(inputs)[k]);
        }
      }
    }
  }

  lemma SendExplained(h: TxHalf, inputs: seq<TxInput>, payload: seq<byte>, deadline: int)
    requires Explained(h, inputs)
    ensures Explained(Enqueue(h, payload, deadline), inputs + [Send(payload, deadline)])
  {
    var more := inputs + [Send(payload, deadline)];
    assert more[..|inputs|] == inputs;
    assert Deadlines(more) == Deadlines(inputs) + [deadline];
    forall k | Acked(inputs, k)
      ensures Acked(more, k)
    {
      var i :| 0 <= i < |inputs| && AcksNth(inputs, i, k);
      assert more[..i] == inputs[..i];
      assert AcksNth(more, i, k);
    }
    forall d | Expired(inputs, d)
      ensures Expired(more, d)
    {
      var i :| 0 <= i < |inputs| && LooksAfter(inputs[i], d);
      assert LooksAfter(more[i], d);
    }
    hide Acked, Expired, Deadlines;
    var r := Enqueue(h, payload, deadline);
    forall j | 0 <= j < |r.t.fifo|
      ensures QueuedWhy(r.t.fifo[j], |r.log| + j, more)
    {
      if j < |h.t.fifo| {
        assert QueuedWhy(h.t.fifo[j], |h.log| + j, inputs);
      }
    }
    forall k | 0 <= k < |r.log|
      ensures LoggedWhy(r.log[k], k, r.t.isReliable, more)
    {
      assert LoggedWhy(h.log[k], k, h.t.isReliable, inputs);
    }
  }

  lemma OfferExplained(h: TxHalf, enq: seq<seq<byte>>, inputs: seq<TxInput>, env: TxEnv, available: nat)
    requires Conserved(h, enq) && Explained(h, inputs)
    ensures Explained(React(h, Offer(env, available)), inputs + [Offer(env, available)])
  {
    var input := Offer(env, available);
    var more := inputs + [input];
    hide Explained;
    ExplainedGrows(h, inputs, input);
    ProcessExplained(h, enq, env.now, more);
    AfterScanConserved(h, enq, env);
    var (s, found) := AfterScan(h, env);
    assert Explained(s, more) by {
      ScanKeeps(Process(h, env.now), s.t, more);
    }
    if found && NextChunk(s.t, available).Some? {
      var i := s.t.packetFifoIdx;
      var q := Written(s.t.fifo[i], NextChunk(s.t, available).value, env);
      WriteMarks(s.t.fifo[i], NextChunk(s.t, available).value, env);
      SetExplained(s, i, q, more);
      SetPacketConserved(s, enq, i, q);
      ProcessExplained(SetPacket(s, i, q), enq, env.now, more);
    }
  }

  lemma ScanKeeps(h: TxHalf, t: TxState, inputs: seq<TxInput>)
    requires Explained(h, inputs) && t.fifo == h.t.fifo && t.isReliable == h.t.isReliable
    ensures Explained(h.(t := t), inputs)
  {
    hide QueuedWhy, LoggedWhy;
  }

  lemma WriteMarks(p: TxPacket, c: Chunk, env: TxEnv)
    ensures var q := Written(p, c, env);
      && q.id == p.id && q.payload == p.payload && q.timeout == p.timeout && q.isReliable == p.isReliable
      && (q.isReliable && q.isAcknowledged ==> p.isAcknowledged)
  {
  }

  lemma AckExplained(h: TxHalf, inputs: seq<TxInput>, id: nat, now: int)
    requires Conserved(h, Sent(inputs)) && Explained(h, inputs)
    ensures Explained(ReadAck(h, id, now), inputs + [AckIn(id, now)])
  {
    var input := AckIn(id, now);
    var more := inputs + [input];
    hide Explained;
    ExplainedGrows(h, inputs, input);
    var found := Find(h.t.fifo, id);
    if found.Some? {
      var i := found.value;
      var q := h.t.fifo[i].(isAcknowledged := true);
      assert IsNth(h.t.fifo[i], |h.log| + i, Sent(inputs));
      assert more[..|inputs|] == inputs;
      assert AcksNth(more, |inputs|, |h.log| + i);
      SetExplained(h, i, q, more);
      SetPacketConserved(h, Sent(inputs), i, q);
      ProcessExplained(SetPacket(h, i, q), Sent(inputs), now, more);
    }
  }

  lemma RepeatExplained(h: TxHalf, inputs: seq<TxInput>, id: nat, offset: nat)
    requires Explained(h, inputs)
    ensures Explained(ReadRepeat(h, id, offset), inputs + [RepeatIn(id, offset)])
  {
    hide Explained;
    ExplainedGrows(h, inputs, RepeatIn(id, offset));
    var found := Find(h.t.fifo, id);
    if found.Some? && h.t.fifo[found.value].isReliable {
      var p := h.t.fifo[found.value];
      var q := p.(offset := offset, isStarted := if offset == 0 then false else p.isStarted);
      SetExplained(h, found.value, q, inputs + [RepeatIn(id, offset)]);
    }
  }

  /**
   Why a packet was let go, after any inputs: it is reported 't' only if the sender looked at its
   clock past the deadline handed to send(), and on a reliable stream 's' only if an
   acknowledgement of it came after it was sent. The deadlines in the queue are those of send().
   */
  lemma {:induction false} ReportsExplained(stream: byte, isReliable: bool, inputs: seq<TxInput>)
    ensures Explained(Play(NewHalf(stream, isReliable), inputs), inputs)
  {
    if inputs != [] {
      var n := |inputs| - 1;
      var before, input := inputs[..n], inputs[n];
      assert inputs == before + [input];
      ReportsExplained(stream, isReliable, before);
      SenderConservation(stream, isReliable, before);
      var h := Play(NewHalf(stream, isReliable), before);
      hide Explained, Play, Conserved;
      assert Play(NewHalf(stream, isReliable), inputs) == React(h, input) by {
        PlayStep(NewHalf(stream, isReliable), inputs);
      }
      match input
      case Send(payload, deadline) => SendExplained(h, before, payload, deadline);
      case Offer(env, available) => OfferExplained(h, Sent(before), before, env, available);
      case AckIn(id, now) => AckExplained(h, before, id, now);
      case RepeatIn(id, offset) => RepeatExplained(h, before, id, offset);
    }
  }

  lemma PlayStep(h: TxHalf, inputs: seq<TxInput>)
    requires inputs != []
    ensures Play(h, inputs) == React(Play(h, inputs[..|inputs| - 1]), inputs[|inputs| - 1])
  {
  }

  /**
   No packet outstays its deadline at the front: after an offer the oldest packet, if there is
   one, is neither acknowledged nor past its deadline at that time.
   */
  lemma OldestIsAlive(stream: byte, isReliable: bool, inputs: seq<TxInput>, env: TxEnv, available: nat)
    ensures var h := Play(NewHalf(stream, isReliable), inputs + [Offer(env, available)]);
      h.t.fifo != [] ==> !h.t.fifo[0].isAcknowledged && env.now <= h.t.fifo[0].timeout
  {
    var all := inputs + [Offer(env, available)];
    assert all[..|inputs|] == inputs;
    var h := Play(NewHalf(stream, isReliable), inputs);
    PlayStep(NewHalf(stream, isReliable), all);
    var n := ProcessPasses(h, env.now);
    hide Play, Process;
    var (s, found) := AfterScan(h, env);
    if found && NextChunk(s.t, available).Some? {
      var i := s.t.packetFifoIdx;
      var c := NextChunk(s.t, available).value;
      var q := Written(s.t.fifo[i], c, env);
      WriteMarks(s.t.fifo[i], c, env);
      var m := ProcessPasses(SetPacket(s, i, q), env.now);
    }
  }
}
