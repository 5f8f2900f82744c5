/** struct RxStream: the queue of received packets and its shadow queue of ids, updated in place. */
module RxStreams {
  import opened Common
  import opened RxModel
  import opened RxOrder

  class RxStream {
    var fifo: seq<RxPacket>
    var fifoShadow: seq<nat>
    var packetIdx: nat
    var frontPacketId: nat
    var isNew: bool
    var isReliable: bool

    function State(): RxState
      reads this
    {
      RxState(fifo, frontPacketId, packetIdx, isReliable, isNew)
    }

    // The shadow queue holds the ids of the queue, and a buffer has the size of its packet.
    ghost predicate Valid()
      reads this
    {
      fifoShadow == Ids(fifo) && IdsFit(State()) && BuffersFit(State())
    }

    constructor ()
      ensures Valid() && State() == NEW_STREAM
    {
      fifo, fifoShadow := [], [];
      packetIdx, frontPacketId := UINT64_MAX, 0;
      isNew, isReliable := true, false;
    }

    constructor Load(s: RxState)
      requires IdsFit(s) && BuffersFit(s)
      ensures Valid() && State() == s
    {
      fifo, fifoShadow := s.fifo, Ids(s.fifo);
      packetIdx, frontPacketId := s.packetIdx, s.front;
      isNew, isReliable := s.isNew, s.isReliable;
    }

    /**
     Below the first quarter the front becomes the maximum. On the whole circle it moves
     behind itself exactly when the id is three quarters above it.
     */
    method UpdateFrontPacketId(isFront: bool, packetId: nat)
      requires Valid() && packetId <= UINT32_MAX
      modifies this`frontPacketId
      ensures Valid() && State() == RaiseFront(old(State()), isFront, packetId)
      ensures StreamOk(old(State())) && !isNew && packetId <= QUARTER ==>
        frontPacketId == if isFront then Max(old(frontPacketId), packetId) else old(frontPacketId)
      ensures var head := HeadFront(old(State()));
        IsReceivedBefore(old(State()).(front := head), frontPacketId) <==> isFront && JumpsBack(head, packetId)
    {
      FrontRewindsIff(State(), isFront, packetId);
      RaiseFrontIsMax(State(), isFront, packetId);
      hide StreamOk, BuffersFit, IsReceivedBefore, JumpsBack, HeadFront, Max;
      var front := frontPacketId;
      if fifoShadow != [] {
        if front < fifoShadow[0] {
          front := fifoShadow[0];
        } else if fifoShadow[0] < QUARTER && QUARTER3 < front {
          front := fifoShadow[0];
        }
      }
      if isFront {
        if front < packetId {
          front := packetId;
        } else if packetId < QUARTER && QUARTER3 < front {
          front := packetId;
        }
      }
      frontPacketId := front;
    }

    /** Whether the id lies behind the front, by at most a quarter of the circle. */
    method ReceivedBefore(packetId: nat) returns (before: bool)
      requires Valid() && packetId <= UINT32_MAX
      ensures before == IsReceivedBefore(State(), packetId)
      ensures var behind := (frontPacketId - packetId) % U32_MOD;
        before <==> 0 < behind <= if packetId > frontPacketId then QUARTER + 4 else QUARTER
    {
      ReceivedBeforeIsBehind(State(), packetId);
      if packetId < frontPacketId {
        return frontPacketId - packetId <= QUARTER;
      }
      return packetId - frontPacketId >= QUARTER3;
    }

    method Append(now: int, id: nat)
      requires Valid() && id <= UINT32_MAX
      modifies this`fifo, this`fifoShadow
      ensures Valid() && fifo == old(fifo) + [Blank(id, now, isReliable)]
    {
      fifo := fifo + [Blank(id, now, isReliable)];
      fifoShadow := fifoShadow + [id];
      assert fifoShadow == Ids(fifo);
    }

    // One placeholder for each id above the newest, up to and including the id asked for.
    method AppendUpTo(now: int, packetId: nat)
      requires Valid() && fifo != [] && fifo[|fifo| - 1].id < packetId <= UINT32_MAX
      modifies this`fifo, this`fifoShadow
      ensures Valid()
      ensures fifo == old(fifo) + Appended(old(fifo[|fifo| - 1].id), packetId, now, isReliable)
      ensures |fifo| > |old(fifo)| && fifo[|fifo| - 1].id == packetId
    {
      ghost var was := fifo;
      ghost var back := fifo[|fifo| - 1].id;
      while fifoShadow[|fifoShadow| - 1] < packetId
        invariant Valid() && fifo != [] && back <= fifo[|fifo| - 1].id <= packetId
        invariant fifo == was + Blanks(back + 1, fifo[|fifo| - 1].id - back, now, isReliable)
        decreases packetId - fifo[|fifo| - 1].id
      {
        var idNew := fifoShadow[|fifoShadow| - 1];
        Append(now, idNew + 1);
        assert fifo == was + Blanks(back + 1, idNew + 1 - back, now, isReliable);
      }
    }

    // From the newest id, which is appended a second time, to the last id of the circle.
    method AppendToWrap(now: int)
      requires Valid() && fifo != [] && fifo[|fifo| - 1].id > 0
      modifies this`fifo, this`fifoShadow
      ensures Valid()
      ensures var back := old(fifo[|fifo| - 1].id);
        fifo == old(fifo) + Blanks(back, UINT32_MAX - back + 1, now, isReliable)
    {
      ghost var was := fifo;
      var back := fifoShadow[|fifoShadow| - 1];
      var idNew := back;
      ghost var k: nat := 0;
      while 0 < idNew && idNew <= UINT32_MAX
        invariant Valid() && k <= UINT32_MAX - back + 1
        invariant idNew == if k <= UINT32_MAX - back then back + k else 0
        invariant fifo == was + Blanks(back, k, now, isReliable)
        decreases UINT32_MAX - back + 1 - k
      {
        Append(now, idNew);
        idNew := Inc32(idNew);
        k := k + 1;
        assert fifo == was + Blanks(back, k, now, isReliable);
      }
    }

    // From the first id of the circle up to and including the id asked for.
    method AppendFromZero(now: int, packetId: nat)
      requires Valid() && packetId <= UINT32_MAX
      modifies this`fifo, this`fifoShadow
      ensures Valid() && fifo == old(fifo) + Blanks(0, packetId + 1, now, isReliable)
    {
      ghost var was := fifo;
      var idNew := 0;
      while idNew <= packetId
        invariant Valid() && idNew <= packetId + 1
        invariant fifo == was + Blanks(0, idNew, now, isReliable)
      {
        Append(now, idNew);
        idNew := idNew + 1;
        assert fifo == was + Blanks(0, idNew, now, isReliable);
      }
    }

    method AppendPastWrap(now: int, packetId: nat)
      requires Valid() && fifo != [] && EmplaceWraps(fifo[|fifo| - 1].id, packetId)
      modifies this`fifo, this`fifoShadow
      ensures Valid()
      ensures fifo == old(fifo) + Appended(old(fifo[|fifo| - 1].id), packetId, now, isReliable)
      ensures |fifo| > |old(fifo)| && fifo[|fifo| - 1].id == packetId
    {
      AppendToWrap(now);
      AppendFromZero(now, packetId);
    }

    /** The appended packet is the last one; no position when nothing was appended. */
    method Emplace(now: int, packetId: nat) returns (found: bool)
      requires Valid() && packetId <= UINT32_MAX
      modifies this`fifo, this`fifoShadow
      ensures Valid() && State() == RxModel.Emplace(old(State()), now, packetId)
      ensures found <==> |fifo| > |old(fifo)|
      ensures found ==> fifo[|fifo| - 1].id == packetId
    {
      hide Blanks;
      if fifoShadow == [] {
        Append(now, packetId);
        return true;
      }
      var back := fifoShadow[|fifoShadow| - 1];
      if back < packetId {
        AppendUpTo(now, packetId);
        return true;
      }
      if QUARTER3 <= back && packetId < QUARTER && back - packetId > QUARTER {
        AppendPastWrap(now, packetId);
        return true;
      }
      assert fifo + [] == fifo;
      return false;
    }

    /**
     The last packet with the id, or the oldest one when there is none. Away from the wrap
     there is one for every id from the front on, so the source's assertion holds.
     */
    method Get(now: int, packetId: nat) returns (i: nat)
      requires Valid() && packetId <= UINT32_MAX
      modifies this`fifo, this`fifoShadow
      ensures Valid() && State() == GetState(old(State()), now, packetId)
      ensures i < |fifo| && i == IndexOf(fifo, packetId)
      ensures StreamOk(old(State())) && !isNew && frontPacketId <= packetId < QUARTER ==> fifo[i].id == packetId
    {
      ghost var before := State();
      if StreamOk(before) && !isNew && frontPacketId <= packetId < QUARTER {
        GetFinds(before, now, packetId);
      }
      hide RxModel.Emplace, IndexOf, Blank, BuffersFit, StreamOk, IdsFit;
      if frontPacketId < packetId || (packetId < QUARTER && QUARTER3 < frontPacketId) {
        var _ := Emplace(now, frontPacketId);
      }
      var found := Emplace(now, packetId);
      assert State() == GetState(before, now, packetId);
      i := Search(packetId, found);
    }

    // The tail of get(): the last position, then a scan from the back.
    method Search(packetId: nat, found: bool) returns (i: nat)
      requires Valid() && fifo != []
      requires found ==> fifo[|fifo| - 1].id == packetId
      ensures i < |fifo| && i == IndexOf(fifo, packetId)
    {
      if found || fifoShadow[|fifoShadow| - 1] == packetId {
        return |fifo| - 1;
      }
      var k := |fifoShadow| - 1;
      while k >= 0
        invariant -1 <= k < |fifo|
        invariant forall j :: k < j < |fifo| ==> fifo[j].id != packetId
      {
        if fifoShadow[k] == packetId {
          IndexOfLast(fifo, packetId, k);
          return k;
        }
        k := k - 1;
      }
      IndexOfLast(fifo, packetId, 0);
      return 0;
    }

    method PopFront()
      requires Valid() && fifo != []
      modifies this
      ensures Valid() && State() == RxModel.PopFront(old(State()))
    {
      UpdateFrontPacketId(true, Inc32(fifo[0].id));
      fifo := fifo[1..];
      fifoShadow := fifoShadow[1..];
      assert fifoShadow == Ids(fifo);
      if packetIdx > 0 {
        packetIdx := packetIdx - 1;
      }
    }

    /** The round robin of the repeat scan. */
    method Next() returns (i: nat)
      requires Valid() && fifo != []
      modifies this`packetIdx
      ensures Valid() && i == packetIdx == NextIdx(old(State()))
      ensures State() == old(State()).(packetIdx := i)
    {
      packetIdx := (packetIdx + 1) % (UINT64_MAX + 1);
      if packetIdx >= |fifo| {
        packetIdx := 0;
      }
      i := packetIdx;
    }

    method Replace(i: nat, p: RxPacket)
      requires Valid() && i < |fifo| && p.id == fifo[i].id && (p.copy == [] || |p.copy| == p.size)
      modifies this`fifo
      ensures Valid() && fifo == old(fifo)[i := p]
    {
      fifo := fifo[i := p];
      assert Ids(fifo) == Ids(old(fifo));
    }
  }
}
