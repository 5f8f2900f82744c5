/**
 What the sending half keeps under every sequence of inputs, honest or not: the packets
 ever enqueued are the reported ones, once each and in send order, followed by the queue.
 */
module TxOrder {
  import opened Common
  import opened Chunks
  import opened TxModel

  // The packet is the k-th one enqueued.
  ghost predicate IsNth(p: TxPacket, k: nat, enq: seq<seq<byte>>) {
    k < |enq| && p.id == k % U32_MOD && p.payload == enq[k]
  }

  ghost predicate EventIsNth(e: TxEvent, k: nat, enq: seq<seq<byte>>) {
    k < |enq| && e.id == k % U32_MOD && e.payload == enq[k] && (e.status == 's' || e.status == 't')
  }

  /** Conservation: enq, the payloads ever enqueued, is the log followed by the queue. */
  ghost predicate Conserved(h: TxHalf, enq: seq<seq<byte>>) {
    && |h.log| + |h.t.fifo| == |enq|
    && h.t.nextPacketId == |enq| % U32_MOD
    && h.t.packetFifoIdx <= |h.t.fifo|
    && (forall k :: 0 <= k < |h.log| ==> EventIsNth(h.log[k], k, enq))
    && (forall j :: 0 <= j < |h.t.fifo| ==> IsNth(h.t.fifo[j], |h.log| + j, enq))
    && (forall j :: 0 <= j < |h.t.fifo| ==> h.t.fifo[j].isReliable == h.t.isReliable)
  }

  lemma EnqueueConserved(h: TxHalf, enq: seq<seq<byte>>, payload: seq<byte>, deadline: int)
    requires Conserved(h, enq)
    ensures Conserved(Enqueue(h, payload, deadline), enq + [payload])
  {
  }

  lemma PopOnceConserved(h: TxHalf, enq: seq<seq<byte>>)
    requires Conserved(h, enq) && h.t.fifo != []
    ensures Conserved(PopOnce(h), enq)
  {
  }

  lemma {:induction false} ProcessConserved(h: TxHalf, enq: seq<seq<byte>>, now: int)
    requires Conserved(h, enq)
    ensures Conserved(Process(h, now), enq)
    ensures h.log <= Process(h, now).log
    ensures Process(h, now).t.stream == h.t.stream && Process(h, now).t.isReliable == h.t.isReliable
    decreases |h.t.fifo|
  {
    if PopReady(h.t, now) {
      PopOnceConserved(h, enq);
      ProcessConserved(PopOnce(h), enq, now);
    }
  }

  // What the callback is told about a packet that leaves the queue, and why it leaves.
  predicate Fate(e: TxEvent, p: TxPacket, now: int) {
    && e == TxEvent(p.id, p.payload, if p.isAcknowledged then 's' else 't')
    && (p.isAcknowledged || p.timeout < now)
  }

  // The first n packets leave; the next one, if there is one, waits for its acknowledgement before its deadline.
  ghost predicate Passed(h: TxHalf, r: TxHalf, n: nat, now: int) {
    && n <= |h.t.fifo| && r.t.fifo == h.t.fifo[n..]
    && |r.log| == |h.log| + n && h.log <= r.log
    && (forall i :: 0 <= i < n ==> Fate(r.log[|h.log| + i], h.t.fifo[i], now))
    && (n < |h.t.fifo| ==> !h.t.fifo[n].isAcknowledged && now <= h.t.fifo[n].timeout)
    && r.t.packetFifoIdx == (if h.t.packetFifoIdx > n then h.t.packetFifoIdx - n else 0)
    && r.t == h.t.(fifo := r.t.fifo, packetFifoIdx := r.t.packetFifoIdx)
  }

  /**
   A pass over the queue reports and removes the longest run of packets from the front that are
   acknowledged, as 's', or past their deadline, as 't'.
   */
  lemma {:induction false} ProcessPasses(h: TxHalf, now: int) returns (n: nat)
    ensures Passed(h, Process(h, now), n, now)
    decreases |h.t.fifo|
  {
    n := 0;
    if PopReady(h.t, now) {
      var p := PopOnce(h);
      n := ProcessPasses(p, now);
      var r := Process(h, now);
      forall i | 0 <= i < n + 1
        ensures Fate(r.log[|h.log| + i], h.t.fifo[i], now)
      {
        if i > 0 {
          assert Fate(r.log[|p.log| + (i - 1)], p.t.fifo[i - 1], now);
        } else {
          assert r.log[|h.log|] == p.log[|h.log|];
        }
      }
      n := n + 1;
    }
  }

  // Replacing a packet by one with the same identity.
  lemma SetPacketConserved(h: TxHalf, enq: seq<seq<byte>>, i: nat, p: TxPacket)
    requires Conserved(h, enq) && i < |h.t.fifo|
    requires var q := h.t.fifo[i]; p.id == q.id && p.payload == q.payload && p.isReliable == q.isReliable
    ensures Conserved(SetPacket(h, i, p), enq)
  {
  }

  lemma WriteChunkConserved(h: TxHalf, enq: seq<seq<byte>>, c: Chunk, env: TxEnv)
    requires Conserved(h, enq) && h.t.packetFifoIdx < |h.t.fifo|
    ensures Conserved(WriteChunk(h, c, env), enq)
    ensures h.log <= WriteChunk(h, c, env).log
  {
    var i := h.t.packetFifoIdx;
    var p := Written(h.t.fifo[i], c, env);
    SetPacketConserved(h, enq, i, p);
    ProcessConserved(SetPacket(h, i, p), enq, env.now);
  }

  lemma ReadAckConserved(h: TxHalf, enq: seq<seq<byte>>, id: nat, now: int)
    requires Conserved(h, enq)
    ensures Conserved(ReadAck(h, id, now), enq)
    ensures h.log <= ReadAck(h, id, now).log
  {
    match Find(h.t.fifo, id)
    case None =>
    case Some(i) =>
      var p := h.t.fifo[i].(isAcknowledged := true);
      SetPacketConserved(h, enq, i, p);
      ProcessConserved(SetPacket(h, i, p), enq, now);
  }

  lemma ReadRepeatConserved(h: TxHalf, enq: seq<seq<byte>>, id: nat, offset: nat)
    requires Conserved(h, enq)
    ensures Conserved(ReadRepeat(h, id, offset), enq)
    ensures ReadRepeat(h, id, offset).log == h.log
  {
  }

  // ------------------------------------------------------------ whole runs

  datatype TxInput =
    | Send(payload: seq<byte>, deadline: int)
    | Offer(env: TxEnv, available: nat)
    | AckIn(id: nat, now: int)
    | RepeatIn(id: nat, offset: nat)

  function AfterScan(h: TxHalf, env: TxEnv): (r: (TxHalf, bool))
    ensures r.1 ==> r.0.t.packetFifoIdx < |r.0.t.fifo|
  {
    var p := Process(h, env.now);
    var s := ScanFrom(p.t, 0, env);
    (p.(t := s.0), s.1)
  }

  /** A packet may be sent now: for the first time, again after two round trips, or on from where it stopped. */
  predicate Due(p: TxPacket, env: TxEnv) {
    && !p.isAcknowledged
    && env.now < p.timeout
    && p.datagramId != env.datagram
    && (p.isStarted || p.begin + env.rtt2 <= env.now)
  }

  // The scan starts again at the oldest packet when two round trips have passed since the return time.
  function ScanStart(t: TxState, env: TxEnv): nat {
    if t.fifoReturnTime + env.rtt2 < env.now then 0 else t.packetFifoIdx
  }

  // The first position from the start on that is due, among those the scan may look at.
  ghost predicate FirstDue(t: TxState, env: TxEnv, j: nat) {
    && ScanStart(t, env) <= j < |t.fifo| && j <= 131072 && Due(t.fifo[j], env)
    && forall i :: ScanStart(t, env) <= i < j ==> !Due(t.fifo[i], env)
  }

  /** There is something to send: from the start of the scan on, and within its limit, a packet is due. */
  ghost predicate HasWork(t: TxState, env: TxEnv) {
    exists j :: ScanStart(t, env) <= j < |t.fifo| && j <= 131072 && Due(t.fifo[j], env)
  }

  // Where the scan stops, and the return time it leaves.
  ghost predicate ScanEnds(t: TxState, env: TxEnv, r: TxState, found: bool) {
    && (found <==> HasWork(t, env))
    && (found ==> FirstDue(t, env, r.packetFifoIdx))
    && (!found ==> r.packetFifoIdx >= |t.fifo| || r.packetFifoIdx > 131072)
    && r.fifoReturnTime ==
      if t.fifo != [] && t.fifoReturnTime + env.rtt2 < env.now then env.now + env.rtt2 else t.fifoReturnTime
  }

  lemma SkippedIff(p: TxPacket, env: TxEnv)
    ensures Skipped(p, env) <==> !Due(p, env)
  {
  }

  // From a position that is not due the scan goes on to the next.
  lemma ScanEndsLater(t: TxState, v: TxState, env: TxEnv, r: TxState, found: bool)
    requires env.now <= t.fifoReturnTime + env.rtt2 && t.packetFifoIdx < |t.fifo| && t.packetFifoIdx <= 131072
    requires v == t.(packetFifoIdx := t.packetFifoIdx + 1) && !Due(t.fifo[t.packetFifoIdx], env)
    requires ScanEnds(v, env, r, found)
    ensures ScanEnds(t, env, r, found)
  {
    hide Due;
  }

  // The scan reaches every position it has turns left for.
  lemma {:induction false} ScanReaches(t: TxState, i: nat, env: TxEnv)
    requires i <= t.packetFifoIdx && env.now <= t.fifoReturnTime + env.rtt2
    ensures ScanEnds(t, env, ScanFrom(t, i, env).0, ScanFrom(t, i, env).1)
    decreases |t.fifo| - i
  {
    hide Due, Skipped;
    if i < |t.fifo| && !ScanStops(t) {
      SkippedIff(t.fifo[t.packetFifoIdx], env);
      if Skipped(t.fifo[t.packetFifoIdx], env) {
        var v := t.(packetFifoIdx := t.packetFifoIdx + 1);
        ScanReaches(v, i + 1, env);
        hide ScanEnds;
        ScanEndsLater(t, v, env, ScanFrom(v, i + 1, env).0, ScanFrom(v, i + 1, env).1);
      }
    }
  }

  // The return to the oldest packet comes before the first turn, if at all.
  lemma ScanReturns(t: TxState, env: TxEnv)
    ensures ScanEnds(t, env, ScanFrom(t, 0, env).0, ScanFrom(t, 0, env).1)
  {
    var u := Rewind(t, env);
    ScanReaches(u, 0, env);
    assert t.fifo != [] ==> ScanFrom(t, 0, env) == ScanFrom(u, 0, env);
    hide Due, ScanFrom;
  }

  /** The scan finds a packet if and only if one is due, and stops at the first of them. */
  lemma ScanFindsIff(h: TxHalf, env: TxEnv)
    ensures ScanEnds(Process(h, env.now).t, env, AfterScan(h, env).0.t, AfterScan(h, env).1)
  {
    ScanReturns(Process(h, env.now).t, env);
  }

  // A second pass over the queue finds nothing to report.
  lemma {:induction false} ProcessAgain(h: TxHalf, now: int)
    ensures !PopReady(Process(h, now).t, now)
    decreases |h.t.fifo|
  {
    if PopReady(h.t, now) {
      ProcessAgain(PopOnce(h), now);
    }
  }

  /** A second scan at the same time stops where the first one did. */
  lemma ScanAgain(h: TxHalf, env: TxEnv)
    ensures var (r, found) := AfterScan(h, env); AfterScan(r, env) == (r, found)
  {
    ProcessAgain(h, env.now);
    var p := Process(h, env.now);
    var (r, found) := AfterScan(h, env);
    assert Process(r, env.now) == r;
    ScanReturns(p.t, env);
    hide Process;
    if found {
      assert !Skipped(r.t.fifo[r.t.packetFifoIdx], env);
    }
  }

  lemma AfterScanConserved(h: TxHalf, enq: seq<seq<byte>>, env: TxEnv)
    requires Conserved(h, enq)
    ensures Conserved(AfterScan(h, env).0, enq)
    ensures h.log <= AfterScan(h, env).0.log
  {
    ProcessConserved(h, enq, env.now);
  }

  function React(h: TxHalf, input: TxInput): TxHalf {
    match input
    case Send(payload, deadline) => Enqueue(h, payload, deadline)
    case Offer(env, available) =>
      var (s, found) := AfterScan(h, env);
      if !found then s
      else (match NextChunk(s.t, available)
        case None => s
        case Some(c) => WriteChunk(s, c, env))
    case AckIn(id, now) => ReadAck(h, id, now)
    case RepeatIn(id, offset) => ReadRepeat(h, id, offset)
  }

  function Play(h: TxHalf, inputs: seq<TxInput>): TxHalf {
    if inputs == [] then h else React(Play(h, inputs[..|inputs| - 1]), inputs[|inputs| - 1])
  }

  // The payloads handed to send(), in order.
  function Sent(inputs: seq<TxInput>): seq<seq<byte>> {
    if inputs == [] then []
    else
      Sent(inputs[..|inputs| - 1])
      + (if inputs[|inputs| - 1].Send? then [inputs[|inputs| - 1].payload] else [])
  }

  lemma ReactConserved(h: TxHalf, enq: seq<seq<byte>>, input: TxInput)
    requires Conserved(h, enq)
    ensures Conserved(React(h, input), if input.Send? then enq + [input.payload] else enq)
    ensures h.log <= React(h, input).log
  {
    match input
    case Send(payload, deadline) => EnqueueConserved(h, enq, payload, deadline);
    case Offer(env, available) =>
      AfterScanConserved(h, enq, env);
      var (s, found) := AfterScan(h, env);
      if found && NextChunk(s.t, available).Some? {
        WriteChunkConserved(s, enq, NextChunk(s.t, available).value, env);
      }
    case AckIn(id, now) => ReadAckConserved(h, enq, id, now);
    case RepeatIn(id, offset) => ReadRepeatConserved(h, enq, id, offset);
  }

  /**
   Sender conservation: after every sequence of sends, writes, acknowledgements and repeat
   requests, whatever ids and offsets they carry, each payload ever sent is either in the
   log, at its own position and with status 's' or 't', or in the queue.
   */
  lemma {:induction false} SenderConservation(stream: byte, isReliable: bool, inputs: seq<TxInput>)
    ensures Conserved(Play(NewHalf(stream, isReliable), inputs), Sent(inputs))
  {
    if inputs != [] {
      var n := |inputs| - 1;
      SenderConservation(stream, isReliable, inputs[..n]);
      ReactConserved(Play(NewHalf(stream, isReliable), inputs[..n]), Sent(inputs[..n]), inputs[n]);
      if !inputs[n].Send? {
        assert Sent(inputs) == Sent(inputs[..n]);
      }
    }
  }

  // The events name the packets at the given positions, which are those from here on not acknowledged.
  ghost predicate Reports(events: seq<TxEvent>, at: seq<nat>, fifo: seq<TxPacket>, from: nat) {
    && |at| == |events|
    && (forall m :: 0 <= m < |at| ==> from <= at[m] < |fifo| && ReportOf(events[m], fifo[at[m]]))
    && (forall m, n :: 0 <= m < n < |at| ==> at[m] < at[n])
    && (forall i :: from <= i < |fifo| && !fifo[i].isAcknowledged ==> i in at)
  }

  predicate ReportOf(e: TxEvent, p: TxPacket) {
    !p.isAcknowledged && e == TxEvent(p.id, p.payload, 'd')
  }

  lemma ReportsOneMore(events: seq<TxEvent>, at: seq<nat>, fifo: seq<TxPacket>, from: nat, e: TxEvent)
    requires from < |fifo| && Reports(events, at, fifo, from + 1) && ReportOf(e, fifo[from])
    ensures Reports([e] + events, [from] + at, fifo, from)
  {
    hide ReportOf;
    var at', events' := [from] + at, [e] + events;
    forall m | 0 <= m < |at'|
      ensures from <= at'[m] < |fifo| && ReportOf(events'[m], fifo[at'[m]])
    {
      assert m > 0 ==> at'[m] == at[m - 1] && events'[m] == events[m - 1];
    }
    forall m, n | 0 <= m < n < |at'|
      ensures at'[m] < at'[n]
    {
      assert at'[n] == at[n - 1];
      assert m > 0 ==> at'[m] == at[m - 1];
    }
  }

  lemma {:induction false} ReportsFrom(fifo: seq<TxPacket>, from: nat) returns (at: seq<nat>)
    requires from <= |fifo|
    ensures Reports(Disconnected(fifo[from..]), at, fifo, from)
    decreases |fifo| - from
  {
    at := [];
    if from < |fifo| {
      at := ReportsFrom(fifo, from + 1);
      assert fifo[from..][1..] == fifo[from + 1..];
      var rest := Disconnected(fifo[from + 1..]);
      if fifo[from].isAcknowledged {
        assert Disconnected(fifo[from..]) == rest;
      } else {
        ReportsOneMore(rest, at, fifo, from, TxEvent(fifo[from].id, fifo[from].payload, 'd'));
        at := [from] + at;
      }
    }
  }

  /**
   Disconnecting reports 'd' for exactly the queued packets that are not acknowledged, each
   once and in send order. (An acknowledged packet still queued behind an unacknowledged one
   is reported by nobody.)
   */
  lemma DisconnectReportsTheRest(fifo: seq<TxPacket>)
    ensures exists at :: Reports(Disconnected(fifo), at, fifo, 0)
  {
    var at := ReportsFrom(fifo, 0);
    assert fifo[0..] == fifo;
  }

  // Every packet ever sent is named once, in order.
  ghost predicate ReportedOnce(events: seq<TxEvent>, enq: seq<seq<byte>>) {
    && |events| == |enq|
    && forall k :: 0 <= k < |enq| ==> events[k].id == k % U32_MOD && events[k].payload == enq[k]
  }

  lemma {:induction false} DisconnectedAll(fifo: seq<TxPacket>)
    ensures |Disconnected(fifo)| <= |fifo|
    ensures |Disconnected(fifo)| == |fifo| <==> forall j :: 0 <= j < |fifo| ==> !fifo[j].isAcknowledged
    ensures |Disconnected(fifo)| == |fifo| ==>
      forall j :: 0 <= j < |fifo| ==> Disconnected(fifo)[j] == TxEvent(fifo[j].id, fifo[j].payload, 'd')
  {
    if fifo != [] {
      var rest := fifo[1..];
      DisconnectedAll(rest);
      assert forall j :: 0 < j < |fifo| ==> fifo[j] == rest[j - 1];
    }
  }

  /**
   The whole life of a stream, after any inputs: with the disconnect every packet sent is
   reported exactly once if and only if no queued packet is acknowledged.
   */
  lemma ReportedOnceIff(stream: byte, isReliable: bool, inputs: seq<TxInput>)
    ensures var h := Play(NewHalf(stream, isReliable), inputs);
      ReportedOnce(h.log + Disconnected(h.t.fifo), Sent(inputs))
      <==> forall j :: 0 <= j < |h.t.fifo| ==> !h.t.fifo[j].isAcknowledged
  {
    SenderConservation(stream, isReliable, inputs);
    hide Play, Sent;
    LifeOf(Play(NewHalf(stream, isReliable), inputs), Sent(inputs));
  }

  lemma LifeOf(h: TxHalf, enq: seq<seq<byte>>)
    requires Conserved(h, enq)
    ensures ReportedOnce(h.log + Disconnected(h.t.fifo), enq)
      <==> forall j :: 0 <= j < |h.t.fifo| ==> !h.t.fifo[j].isAcknowledged
  {
    var rest := Disconnected(h.t.fifo);
    DisconnectedAll(h.t.fifo);
    hide Disconnected;
    if |rest| == |h.t.fifo| {
      forall k | 0 <= k < |enq|
        ensures (h.log + rest)[k].id == k % U32_MOD && (h.log + rest)[k].payload == enq[k]
      {
        if k < |h.log| {
          assert EventIsNth(h.log[k], k, enq);
        } else {
          assert IsNth(h.t.fifo[k - |h.log|], |h.log| + (k - |h.log|), enq);
        }
      }
    }
  }

  /** Such a packet: the second of two is acknowledged first, and the disconnect passes it over. */
  lemma NobodyReportsTheSecond()
    ensures var h := Play(NewHalf(3, true), [Send([7], 1000), Send([8], 1000), AckIn(1, 0)]);
      h.log + Disconnected(h.t.fifo) == [TxEvent(0, [7], 'd')]
  {
    var n := NewHalf(3, true);
    var inputs := [Send([7], 1000), Send([8], 1000), AckIn(1, 0)];
    var p, q := TxPacket(0, [7], 0, 1000, 0, UINT64_MAX, true, false, false),
                TxPacket(1, [8], 0, 1000, 0, UINT64_MAX, true, false, false);
    var two := TxHalf(TxState([p, q], 0, 2, 0, 3, true), []);
    assert Play(n, inputs[..1]) == Enqueue(n, [7], 1000) by {
      assert inputs[..1][..0] == [];
    }
    assert Play(n, inputs[..2]) == two by {
      assert inputs[..2][..1] == inputs[..1];
    }
    var done := TxHalf(TxState([p, q.(isAcknowledged := true)], 0, 2, 0, 3, true), []);
    assert ReadAck(two, 1, 0) == done by {
      assert [p, q][1..] == [q];
      assert Process(done, 0) == done;
    }
    assert Disconnected(done.t.fifo[1..]) == [];
  }
}
