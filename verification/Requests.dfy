/** Which repeat request is written next: the search of writeMetaChunk over the receiving streams. */
module Requests {
  import opened Common
  import opened Chunks
  import opened Outgoing
  import opened Filling
  import opened Scheduler
  import opened Selection
  import opened Codec
  import Rx = RxModel
  import RxOrder
  import Receivers

  // The order in which the receiving streams are visited: each of them once.
  ghost predicate Ordered(order: seq<byte>, rx: RxMap) {
    DistinctIds(order) && forall id :: id in order <==> id in rx
  }

  // The scan of the stream stops at a packet that wants a retransmission.
  ghost predicate Waits(rx: RxMap, id: byte, now: int, datagram: nat) {
    id in rx && AfterRepeatScan(rx[id], now, datagram).1
  }

  // The m-th packet the round robin looks at.
  function Turn(s: Rx.RxState, m: nat): Rx.RxPacket
    requires m < |s.fifo|
  {
    s.fifo[At(Rx.NextIdx(s), |s.fifo|, m)]
  }

  /** A queued packet wants a retransmission, and none looked at before it is in this datagram already. */
  ghost predicate Wanted(s: Rx.RxState, datagram: nat, turns: nat)
    requires turns <= |s.fifo|
  {
    exists m: nat :: m < turns && Turn(s, m).NeedToSendRepeatInfo() && NotYet(s, datagram, m)
  }

  ghost predicate NotYet(s: Rx.RxState, datagram: nat, m: nat)
    requires m < |s.fifo|
  {
    forall l: nat :: l <= m ==> Turn(s, l).datagramId != datagram
  }

  // One position on, the packets come one turn earlier.
  lemma TurnStep(s: Rx.RxState, m: nat)
    requires m + 1 < |s.fifo| <= UINT64_MAX
    ensures Turn(s.(packetIdx := Rx.NextIdx(s)), m) == Turn(s, m + 1)
  {
  }

  lemma {:induction false} ScanRepeatIff(s: Rx.RxState, left: nat, datagram: nat)
    requires left <= |s.fifo| <= UINT64_MAX
    ensures Rx.ScanRepeat(s, left, datagram).1 <==> Wanted(s, datagram, left)
    decreases left
  {
    if left > 0 {
      var t := s.(packetIdx := Rx.NextIdx(s));
      assert Turn(s, 0) == t.fifo[t.packetIdx];
      if Turn(s, 0).datagramId != datagram && !Turn(s, 0).NeedToSendRepeatInfo() {
        ScanRepeatIff(t, left - 1, datagram);
        WantedLater(s, left, datagram);
      } else if Turn(s, 0).datagramId != datagram {
        assert NotYet(s, datagram, 0);
      }
    }
  }

  // The position after the last one, or the first.
  lemma NextIdxIs(s: Rx.RxState)
    requires 0 < |s.fifo| <= UINT64_MAX && s.packetIdx <= UINT64_MAX
    ensures Rx.NextIdx(s) == if s.packetIdx + 1 >= |s.fifo| then 0 else s.packetIdx + 1
  {
  }

  lemma PositionStep(s: Rx.RxState, l: nat)
    requires l + 1 < |s.fifo| <= UINT64_MAX
    ensures At(Rx.NextIdx(s.(packetIdx := Rx.NextIdx(s))), |s.fifo|, l) == At(Rx.NextIdx(s), |s.fifo|, l + 1)
  {
  }

  lemma FirstStep(s: Rx.RxState, k: nat)
    requires k + 1 < |s.fifo| <= UINT64_MAX && !Turn(s, 0).NeedToSendRepeatInfo()
    requires var t := s.(packetIdx := Rx.NextIdx(s)); forall l: nat :: l < k ==> !Turn(t, l).NeedToSendRepeatInfo()
    ensures forall l: nat :: l < k + 1 ==> !Turn(s, l).NeedToSendRepeatInfo()
  {
    var t := s.(packetIdx := Rx.NextIdx(s));
    hide Turn, Rx.NextIdx;
    forall l: nat | l < k + 1
      ensures !Turn(s, l).NeedToSendRepeatInfo()
    {
      if l > 0 {
        TurnStep(s, l - 1);
        assert !Turn(t, l - 1).NeedToSendRepeatInfo();
      }
    }
  }

  /** The round robin goes on from where it stopped: it takes the first turn that wants something. */
  lemma {:induction false} ScanRepeatFirst(s: Rx.RxState, left: nat, datagram: nat) returns (m: nat)
    requires left <= |s.fifo| <= UINT64_MAX && Rx.ScanRepeat(s, left, datagram).1
    ensures m < left && Turn(s, m).NeedToSendRepeatInfo()
    ensures Rx.ScanRepeat(s, left, datagram).0.packetIdx == At(Rx.NextIdx(s), |s.fifo|, m)
    ensures forall l: nat :: l < m ==> !Turn(s, l).NeedToSendRepeatInfo()
    decreases left
  {
    m := 0;
    var t := s.(packetIdx := Rx.NextIdx(s));
    assert Turn(s, 0) == t.fifo[t.packetIdx];
    if !Turn(s, 0).NeedToSendRepeatInfo() {
      var k := ScanRepeatFirst(t, left - 1, datagram);
      hide Turn, Rx.ScanRepeat, Rx.NextIdx;
      PositionStep(s, k);
      TurnStep(s, k);
      FirstStep(s, k);
      m := k + 1;
    }
  }

  lemma WantedLater(s: Rx.RxState, left: nat, datagram: nat)
    requires 0 < left <= |s.fifo| <= UINT64_MAX
    requires Turn(s, 0).datagramId != datagram && !Turn(s, 0).NeedToSendRepeatInfo()
    ensures Wanted(s, datagram, left) <==> Wanted(s.(packetIdx := Rx.NextIdx(s)), datagram, left - 1)
  {
    var t := s.(packetIdx := Rx.NextIdx(s));
    forall m: nat | m + 1 < |s.fifo|
      ensures Turn(t, m) == Turn(s, m + 1)
      ensures NotYet(t, datagram, m) <==> NotYet(s, datagram, m + 1)
    {
      forall l: nat | l <= m
        ensures Turn(t, l) == Turn(s, l + 1)
      {
        TurnStep(s, l);
      }
      if NotYet(t, datagram, m) {
        forall l: nat | l <= m + 1
          ensures Turn(s, l).datagramId != datagram
        {
          if l > 0 {
            assert Turn(t, l - 1).datagramId != datagram;
          }
        }
      }
      if NotYet(s, datagram, m + 1) {
        forall l: nat | l <= m
          ensures Turn(t, l).datagramId != datagram
        {
          assert Turn(s, l + 1).datagramId != datagram;
        }
      }
    }
    if Wanted(s, datagram, left) {
      var m: nat :| m < left && Turn(s, m).NeedToSendRepeatInfo() && NotYet(s, datagram, m);
      assert m > 0;
      assert Turn(t, m - 1) == Turn(s, m - 1 + 1) && NotYet(t, datagram, m - 1);
    }
    if Wanted(t, datagram, left - 1) {
      var m: nat :| m < left - 1 && Turn(t, m).NeedToSendRepeatInfo() && NotYet(t, datagram, m);
      assert NotYet(s, datagram, m + 1);
    }
  }

  // What is left of the stream's queue wants a retransmission.
  ghost predicate Wants(rx: RxMap, id: byte, now: int, datagram: nat) {
    id in rx && var s := Rx.Process(rx[id], now).s; Wanted(s, datagram, |s.fifo|)
  }

  lemma WaitsIff(rx: RxMap, id: byte, now: int, datagram: nat)
    requires Receivable(rx)
    ensures Waits(rx, id, now, datagram) <==> Wants(rx, id, now, datagram)
  {
    if id in rx {
      var s := Rx.Process(rx[id], now).s;
      RxProcessSuffix(rx[id], now);
      ScanRepeatIff(s, |s.fifo|, datagram);
    }
  }

  /** With nothing in this datagram yet, some packet is found exactly when some packet waits. */
  lemma WantedIff(s: Rx.RxState, datagram: nat)
    requires forall i :: 0 <= i < |s.fifo| ==> s.fifo[i].datagramId != datagram
    ensures Wanted(s, datagram, |s.fifo|) <==> exists i :: 0 <= i < |s.fifo| && s.fifo[i].NeedToSendRepeatInfo()
  {
    if i :| 0 <= i < |s.fifo| && s.fifo[i].NeedToSendRepeatInfo() {
      var start := Rx.NextIdx(s);
      var m := if i >= start then i - start else i - start + |s.fifo|;
      assert Turn(s, m) == s.fifo[i] && NotYet(s, datagram, m);
    }
  }

  // The request the scan of the stream stops at.
  ghost function RequestOf(rx: RxMap, id: byte, now: int, datagram: nat): Chunk
    requires Waits(rx, id, now, datagram)
  {
    var h := AfterRepeatScan(rx[id], now, datagram).0;
    Rx.RepeatOf(id, h.s.fifo[h.s.packetIdx])
  }

  // The stream after its request is written.
  ghost function AfterRequest(rx: RxMap, id: byte, now: int, datagram: nat): Rx.RxHalf
    requires Waits(rx, id, now, datagram)
  {
    var h := AfterRepeatScan(rx[id], now, datagram).0;
    h.(s := Rx.MarkRepeated(h.s, datagram))
  }

  // Streams without a request are as they were, or scanned once.
  ghost predicate OthersScanned(was: RxMap, rx: RxMap, c: Option<Chunk>, now: int, datagram: nat) {
    && rx.Keys == was.Keys
    && forall id :: id in rx && !(c.Some? && c.value.stream == id) ==>
      rx[id] == was[id] || rx[id] == AfterRepeatScan(was[id], now, datagram).0
  }

  /**
   The request comes from a packet that waits, and marks it; there is none only when no
   stream waits, or one waits whose request does not fit.
   */
  ghost predicate Requested(was: RxMap, rx: RxMap, c: Option<Chunk>, now: int, datagram: nat, available: nat) {
    && OthersScanned(was, rx, c, now, datagram)
    && match c
      case Some(r) =>
        && Waits(was, r.stream, now, datagram) && r.stream in rx
        && r == RequestOf(was, r.stream, now, datagram)
        && rx[r.stream] == AfterRequest(was, r.stream, now, datagram)
      case None =>
        || (forall id :: !Wants(was, id, now, datagram))
        || (exists id :: Waits(was, id, now, datagram) && EncodedSize(RequestOf(was, id, now, datagram)) > available)
  }

  // The positions tried so far hold no waiting stream.
  ghost predicate NoneWaits(was: RxMap, order: seq<byte>, start: nat, tried: nat, now: int, datagram: nat)
    requires tried <= |order|
  {
    forall m: nat :: m < tried ==> !Waits(was, Tried(order, start, m), now, datagram)
  }

  /** The stream is the first one waiting from the start on, and the next search starts behind it. */
  ghost predicate NextInTurn(was: RxMap, order: seq<byte>, start: nat, next: nat, id: byte, now: int, datagram: nat) {
    exists m: nat :: m < |order| && InTurn(was, order, start, next, id, m, now, datagram)
  }

  ghost predicate InTurn(was: RxMap, order: seq<byte>, start: nat, next: nat, id: byte, m: nat, now: int, datagram: nat)
    requires m < |order|
  {
    && id == Tried(order, start, m) && next == At(start, |order|, m) + 1
    && NoneWaits(was, order, start, m, now, datagram) && Waits(was, id, now, datagram)
  }

  lemma NoneAtAll(was: RxMap, order: seq<byte>, start: nat, now: int, datagram: nat)
    requires NoneWaits(was, order, start, |order|, now, datagram) && Ordered(order, was) && Receivable(was)
    ensures forall id :: !Wants(was, id, now, datagram)
  {
    hide AfterRepeatScan, Wants, Receivable;
    var n := |order|;
    var s := if start >= n then 0 else start;
    forall id
      ensures !Wants(was, id, now, datagram)
    {
      WaitsIff(was, id, now, datagram);
      if id in was {
        var i :| 0 <= i < n && order[i] == id;
        var m := if i >= s then i - s else i - s + n;
        assert Tried(order, start, m) == order[i];
      }
    }
  }

  // What the datagram and the queues keep, with the request added.
  ghost predicate RequestKeeps(rx: RxMap, cs: seq<Chunk>, c: Option<Chunk>, available: nat) {
    && Receivable(rx)
    && AllAsked(rx, cs + ListOf(c))
    && NoDuplicates(cs + ListOf(c))
    && (c.Some? ==> Encodable(c.value) && c.value.Repeat? && EncodedSize(c.value) <= available)
  }

  // The scan of one stream, and what it leaves of the others.
  lemma OneScanned(was: RxMap, rx: RxMap, id: byte, now: int, datagram: nat)
    requires OthersScanned(was, rx, None, now, datagram) && Same(was, rx, id)
    ensures OthersScanned(was, rx[id := AfterRepeatScan(was[id], now, datagram).0], None, now, datagram)
  {
  }

  lemma OneRequested(was: RxMap, rx: RxMap, id: byte, now: int, datagram: nat, available: nat, cs: seq<Chunk>)
    requires OthersScanned(was, rx, None, now, datagram) && Waits(was, id, now, datagram)
    requires id in rx && rx[id] == AfterRepeatScan(was[id], now, datagram).0
    requires Receivable(rx) && AllAsked(rx, cs) && NoDuplicates(cs)
    requires EncodedSize(RequestOf(was, id, now, datagram)) <= available
    ensures var c := RequestOf(was, id, now, datagram);
      var rx' := rx[id := AfterRequest(was, id, now, datagram)];
      Requested(was, rx', Some(c), now, datagram, available) && RequestKeeps(rx', cs, Some(c), available)
  {
    hide Receivable, AllAsked, NoDuplicates, AfterRepeatScan, Encodable;
    RepeatStep(rx, id, datagram, cs);
  }

  /** The loop over the receiving streams, from the one after the last. */
  method ScanRepeats(was: RxMap, order: seq<byte>, start: nat, now: int, datagram: nat, available: nat,
                     ghost cs: seq<Chunk>)
    returns (rx: RxMap, next: nat, c: Option<Chunk>)
    requires Ordered(order, was) && Receivable(was) && AllAsked(was, cs) && NoDuplicates(cs)
    ensures Requested(was, rx, c, now, datagram, available)
    ensures RequestKeeps(rx, cs, c, available) && Ordered(order, rx)
    ensures c.Some? ==> SizeOf(c) > 0 && NextInTurn(was, order, start, next, c.value.stream, now, datagram)
  {
    hide Receivable, AllAsked, NoDuplicates, AfterRepeatScan, Encodable, OthersScanned, Width;
    hide Ordered, Untouched, NoneWaits, DistinctIds;
    ScanStarts(was, order, start, now, datagram);
    rx, next, c := was, start, None;
    var tried: nat := 0;
    assert cs + [] == cs;
    while tried < |order|
      invariant tried <= |order| && rx.Keys == was.Keys
      invariant Receivable(rx) && AllAsked(rx, cs)
      invariant OthersScanned(was, rx, None, now, datagram)
      invariant Untouched(was, rx, order, next, tried)
      invariant NoneWaits(was, order, start, tried, now, datagram)
      invariant tried < |order| ==> At(next, |order|, 0) == At(start, |order|, tried)
    {
      UntouchedFirst(was, rx, order, next, tried);
      ghost var before, from := rx, next;
      if next >= |order| {
        next := 0;
      }
      var id := order[next];
      next := next + 1;
      RepeatScanStep(rx, id, now, datagram, cs);
      OneScanned(was, rx, id, now, datagram);
      ReceivableFits(rx, id);
      var h, found := ScanForRequest(rx[id], now, datagram);
      rx := rx[id := h];
      SameOrder(order, was, rx);
      if found {
        var packet := h.s.fifo[h.s.packetIdx];
        if CHUNK_HEADER_B + Width(packet.offsetRepeat) + Width(packet.sizeRepeat) > available {
          assert Waits(was, id, now, datagram) && EncodedSize(RequestOf(was, id, now, datagram)) > available;
          return;
        }
        OneRequested(was, rx, id, now, datagram, available, cs);
        assert InTurn(was, order, start, next, id, tried, now, datagram);
        c := Some(Repeat(id, packet.id, packet.offsetRepeat, packet.sizeRepeat));
        rx := rx[id := h.(s := Rx.MarkRepeated(h.s, datagram))];
        SameOrder(order, was, rx);
        return;
      }
      UntouchedStep(was, before, order, from, tried, h);
      NoneStep(was, order, start, tried, now, datagram);
      NextTried(order, from, start, tried);
      tried := tried + 1;
    }
    NoneAtAll(was, order, start, now, datagram);
    SameOrder(order, was, rx);
  }

  lemma ReceivableFits(rx: RxMap, id: byte)
    requires Receivable(rx) && id in rx
    ensures RxOrder.IdsFit(rx[id].s) && Rx.BuffersFit(rx[id].s)
  {
    ReceiveFits(rx[id]);
  }

  lemma ScanStarts(was: RxMap, order: seq<byte>, start: nat, now: int, datagram: nat)
    requires Ordered(order, was)
    ensures OthersScanned(was, was, None, now, datagram) && DistinctIds(order)
    ensures Untouched(was, was, order, start, 0) && NoneWaits(was, order, start, 0, now, datagram)
  {
  }

  lemma SameOrder(order: seq<byte>, was: RxMap, rx: RxMap)
    requires Ordered(order, was) && rx.Keys == was.Keys
    ensures Ordered(order, rx)
  {
  }

  lemma NoneStep(was: RxMap, order: seq<byte>, start: nat, tried: nat, now: int, datagram: nat)
    requires tried < |order| && NoneWaits(was, order, start, tried, now, datagram)
    requires !Waits(was, order[At(start, |order|, tried)], now, datagram)
    ensures NoneWaits(was, order, start, tried + 1, now, datagram)
  {
  }

  lemma NextTried(order: seq<byte>, at: nat, start: nat, tried: nat)
    requires tried + 1 < |order| ==> At(at, |order|, 0) == At(start, |order|, tried)
    requires tried < |order|
    ensures tried + 1 < |order| ==> At(At(at, |order|, 0) + 1, |order|, 0) == At(start, |order|, tried + 1)
  {
  }

  /** The pass over one receiving queue, and the round robin over its packets. */
  method ScanForRequest(h: Rx.RxHalf, now: int, datagram: nat) returns (r: Rx.RxHalf, found: bool)
    requires RxOrder.IdsFit(h.s) && Rx.BuffersFit(h.s)
    ensures (r, found) == AfterRepeatScan(h, now, datagram)
  {
    var receiver := new Receivers.Receiver.Load(0, h);
    hide Rx.Process, Rx.ScanRepeat, Rx.BuffersFit, RxOrder.IdsFit;
    receiver.ProcessRxFifo(now);
    found := receiver.FindRepeat(datagram);
    r := receiver.Half();
  }
}
