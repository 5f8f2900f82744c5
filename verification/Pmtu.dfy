/**
 Discovery of the largest datagram the path carries, after section 5.3 of RFC 8899: probes of
 PMTU + step, the step halved after three unanswered probes and the search complete below 4.
 */
module Pmtu {

  const BASE_PMTU_B: nat := 1200 - (20 + 8)
  const MAX_PROBES: nat := 3
  const FIRST_STEP_B: nat := 128

  // The steps a search goes through; zero outside the search phase.
  predicate IsStep(step: nat) {
    step == 0 || step == 128 || step == 64 || step == 32 || step == 16 || step == 8 || step == 4
  }

  // How many halvings are left.
  function StepRank(step: nat): nat {
    if step >= 128 then 6 else if step >= 64 then 5 else if step >= 32 then 4
    else if step >= 16 then 3 else if step >= 8 then 2 else 1
  }

  class PmtuSearch {
    var pmtu: nat
    var probeSize: nat
    var probeCount: nat
    var step: nat

    ghost predicate Valid()
      reads this
    {
      && BASE_PMTU_B <= pmtu <= 0xFFFF
      && probeCount < MAX_PROBES
      && IsStep(step)
      && (probeSize == 0 || probeSize >= BASE_PMTU_B)
    }

    constructor ()
      ensures Valid() && pmtu == BASE_PMTU_B && step == 0 && probeCount == 0 && probeSize == 0
    {
      pmtu, probeSize, probeCount, step := BASE_PMTU_B, 0, 0, 0;
    }

    /** partialReset: back to the base size. The probe count and the probe in flight survive. */
    method Reset()
      requires Valid()
      modifies this
      ensures Valid() && pmtu == BASE_PMTU_B && step == 0
      ensures probeCount == old(probeCount) && probeSize == old(probeSize)
    {
      pmtu, step := BASE_PMTU_B, 0;
    }

    /** The probe timer: the size of the probe sent, or 0 when the search is complete. */
    method Tick() returns (probe: nat)
      requires Valid()
      modifies this
      ensures Valid() && pmtu == old(pmtu)
      ensures old(step) == 0 ==> step == FIRST_STEP_B && probeCount == old(probeCount)
      ensures old(step) > 0 && old(probeCount) + 1 < MAX_PROBES ==> step == old(step) && probeCount == old(probeCount) + 1
      ensures old(step) > 0 && old(probeCount) + 1 == MAX_PROBES ==>
        probeCount == 0 && step == (if old(step) == 4 then 0 else old(step) / 2)
      ensures step == 0 ==> probe == 0 && probeSize == old(probeSize)
      ensures step > 0 ==> probe == probeSize == pmtu + step
    {
      if step == 0 {
        step := FIRST_STEP_B;
      } else {
        probeCount := probeCount + 1;
        if probeCount >= MAX_PROBES {
          probeCount := 0;
          step := step / 2;
        }
      }
      if step < 4 {
        step := 0;
        probe := 0;
      } else {
        probeSize := pmtu + step;
        probe := probeSize;
      }
    }

    /** A header that echoes the size of the last probe received by the peer (a uint16). */
    method OnHeader(echoed: nat)
      requires Valid() && echoed <= 0xFFFF
      modifies this
      ensures Valid() && step == old(step)
      ensures old(probeSize) > 0 && echoed == old(probeSize) ==> pmtu == echoed && probeSize == 0 && probeCount == 0
      ensures !(old(probeSize) > 0 && echoed == old(probeSize)) ==>
        pmtu == old(pmtu) && probeSize == old(probeSize) && probeCount == old(probeCount)
    {
      if probeSize > 0 {
        if echoed == probeSize {
          pmtu := probeSize;
          probeSize := 0;
          probeCount := 0;
        }
      }
    }

    // The search so far on a path that carries datagrams of at most limit bytes: any count above
    // zero means that a probe of the current size has failed.
    ghost predicate Searching(limit: nat)
      reads this
    {
      Valid() && pmtu <= limit && (step > 0 && probeCount > 0 ==> limit < pmtu + step)
    }

    // One tick on such a path: a probe that fits is echoed before the next tick.
    method Round(limit: nat)
      requires Searching(limit) && limit <= 0xFFFF
      modifies this
      ensures Searching(limit)
      ensures step == 0 ==> limit < pmtu + 4
      ensures old(step) > 0 ==> Rank(limit) < old(Rank(limit))
      ensures old(step) == 0 ==> step > 0 && old(pmtu) <= pmtu
      ensures pmtu >= old(pmtu)
    {
      var probe := Tick();
      if 0 < probe <= limit {
        OnHeader(probe);
      }
    }

    // An upper bound on the ticks still to come.
    ghost function Rank(limit: nat): int
      reads this
    {
      if step == 0 then 0 else 4 * (limit - pmtu) + 3 * StepRank(step) + (MAX_PROBES - probeCount)
    }

    /**
     Every search phase ends, within a bounded number of ticks, with the largest size the
     path carries up to the last step: PMTU <= limit < PMTU + 4.
     */
    method SearchPhase(limit: nat) returns (ticks: nat)
      requires Valid() && step == 0 && pmtu <= limit <= 0xFFFF
      modifies this
      ensures Valid() && step == 0
      ensures pmtu <= limit < pmtu + 4
      ensures ticks <= 4 * (limit - old(pmtu)) + 22
    {
      Round(limit);
      ticks := 1;
      assert Rank(limit) <= 4 * (limit - old(pmtu)) + 21;
      while step != 0
        invariant Searching(limit)
        invariant step == 0 ==> limit < pmtu + 4
        invariant ticks + Rank(limit) <= 4 * (limit - old(pmtu)) + 22
        invariant Rank(limit) >= 0
        decreases Rank(limit)
      {
        Round(limit);
        ticks := ticks + 1;
      }
    }
  }
}
