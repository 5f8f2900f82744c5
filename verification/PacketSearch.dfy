/** findPacketIdx: binary search over a queue of consecutive ids that may wrap inside. */
module PacketSearch {
  import opened Common

  const NOT_FOUND: nat := UINT64_MAX

  // Consecutive uint32 ids, as the sender's shadow queue holds them.
  ghost predicate Consecutive(ids: seq<nat>) {
    && |ids| <= U32_MOD
    && forall i :: 0 <= i < |ids| ==> ids[i] == (ids[0] + i) % U32_MOD
  }

  // From i to j the ids either rise by one each, or wrap exactly once.
  lemma Between(ids: seq<nat>, i: nat, j: nat)
    requires Consecutive(ids) && i <= j < |ids|
    ensures ids[j] == if ids[i] + (j - i) < U32_MOD then ids[i] + (j - i) else ids[i] + (j - i) - U32_MOD
  {
  }

  lemma Distinct(ids: seq<nat>, i: nat, j: nat)
    requires Consecutive(ids) && i < |ids| && j < |ids| && ids[i] == ids[j]
    ensures i == j
  {
  }

  // A stretch that does not wrap holds exactly the ids from its first to its last.
  lemma Stretch(ids: seq<nat>, i: nat, j: nat, id: nat)
    requires Consecutive(ids) && i <= j < |ids| && ids[i] + (j - i) < U32_MOD
    ensures ids[i] <= id <= ids[j] ==> i + (id - ids[i]) <= j && ids[i + (id - ids[i])] == id
    ensures forall k :: i <= k <= j && ids[k] == id ==> ids[i] <= id <= ids[j] && k == i + (id - ids[i])
  {
    Between(ids, i, j);
    if ids[i] <= id <= ids[j] {
      Between(ids, i, i + (id - ids[i]));
    }
    forall k | i <= k <= j && ids[k] == id
      ensures ids[i] <= id <= ids[j] && k == i + (id - ids[i])
    {
      Between(ids, i, k);
    }
  }

  // If the id is somewhere, it is in the part of the window the search keeps.
  lemma Halving(ids: seq<nat>, id: nat, left: nat, mid: nat, right: nat, k: nat)
    requires Consecutive(ids) && left <= mid <= right < |ids| && ids[mid] != id
    requires left <= k <= right && ids[k] == id
    ensures ids[left] <= ids[mid] ==> (k < mid <==> ids[left] <= id < ids[mid])
    ensures ids[left] > ids[mid] ==> (mid < k <==> ids[mid] < id <= ids[right])
  {
    Between(ids, left, mid);
    if ids[left] <= ids[mid] {
      Stretch(ids, left, mid, id);
      if ids[left] <= id < ids[mid] {
        Distinct(ids, k, left + (id - ids[left]));
      }
    } else {
      assert ids[mid] + (right - mid) < U32_MOD;
      Stretch(ids, mid, right, id);
      if ids[mid] < id <= ids[right] {
        Distinct(ids, k, mid + (id - ids[mid]));
      }
    }
  }

  /**
   The search finds the one position that holds the id, or reports NOT_FOUND exactly when
   there is none. That rightIdx never passes below zero is its type.
   */
  method FindPacketIdx(ids: seq<nat>, id: nat) returns (idx: nat)
    requires Consecutive(ids)
    ensures idx == NOT_FOUND <==> id !in ids
    ensures idx != NOT_FOUND ==> idx < |ids| && ids[idx] == id && forall i :: 0 <= i < |ids| && ids[i] == id ==> i == idx
  {
    if ids == [] {
      return NOT_FOUND;
    }
    var leftIdx: nat := 0;
    var rightIdx: nat := |ids| - 1;
    while leftIdx <= rightIdx
      invariant rightIdx < |ids|
      invariant forall k :: 0 <= k < |ids| && ids[k] == id ==> leftIdx <= k <= rightIdx
      decreases rightIdx + 1 - leftIdx
    {
      var midIdx := leftIdx + (rightIdx - leftIdx) / 2;
      if ids[midIdx] == id {
        forall i | 0 <= i < |ids| && ids[i] == id
          ensures i == midIdx
        {
          Distinct(ids, i, midIdx);
        }
        return midIdx;
      }
      forall k | 0 <= k < |ids| && ids[k] == id
        ensures ids[leftIdx] <= ids[midIdx] ==> (k < midIdx <==> ids[leftIdx] <= id < ids[midIdx])
        ensures ids[leftIdx] > ids[midIdx] ==> (midIdx < k <==> ids[midIdx] < id <= ids[rightIdx])
      {
        Halving(ids, id, leftIdx, midIdx, rightIdx, k);
      }
      if ids[leftIdx] <= ids[midIdx] {
        if ids[leftIdx] <= id && id < ids[midIdx] {
          rightIdx := midIdx - 1;
        } else {
          leftIdx := midIdx + 1;
        }
      } else {
        if ids[midIdx] < id && id <= ids[rightIdx] {
          leftIdx := midIdx + 1;
        } else {
          rightIdx := midIdx - 1;
        }
      }
    }
    return NOT_FOUND;
  }
}
