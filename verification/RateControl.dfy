/** The sending-rate limit: proportional increase on good feedback, decrease on bad. */
module RateControl {
  import opened Common

  const DEC_STEP: nat := 128
  const INC_STEP: nat := 256
  const DEFAULT_LIMIT: nat := 0x4_0000 // 1 << 18
  const SMALL_INCREASE: nat := 8 * 1172 // g_packetsWindowSize * g_basePMTU_IPv4_B
  const FLOOR: nat := 127

  function Min(a: nat, b: nat): nat { if a < b then a else b }

  function Decreased(limit: nat): nat {
    limit - limit / DEC_STEP
  }

  // The uint32 sum of the source.
  function Increased(limit: nat, desired: nat): nat {
    var more := if limit / INC_STEP <= SMALL_INCREASE then SMALL_INCREASE else limit / INC_STEP;
    Min((limit + more) % U32_MOD, desired)
  }

  datatype Feedback =
    | Rtt(rtt: int, minRtt: nat)
    | Loss(loss: nat)
    | Second(speed: nat)
    | Reset

  datatype Rate = Rate(limit: nat, tooBigRtt: bool, tooBigLoss: bool)

  // minRTT_us * g_kAllowedRTT is a uint32 product.
  predicate TooBigRtt(rtt: int, minRtt: nat) {
    1000 < rtt && (minRtt * 5 % U32_MOD < rtt || 100000 < rtt)
  }

  predicate TooBigLoss(loss: nat) {
    100 < loss < 10100
  }

  /** One feedback outside an RTT probe, the 1 Hz cap, or partialReset. */
  function Next(r: Rate, desired: nat, f: Feedback): Rate {
    match f
    case Rtt(rtt, minRtt) =>
      var bad := TooBigRtt(rtt, minRtt);
      r.(limit := if bad || r.tooBigLoss then Decreased(r.limit) else Increased(r.limit, desired), tooBigRtt := bad)
    case Loss(loss) =>
      var bad := TooBigLoss(loss);
      r.(limit := if bad || r.tooBigRtt then Decreased(r.limit) else Increased(r.limit, desired), tooBigLoss := bad)
    case Second(speed) => r.(limit := Min(r.limit, Max(DEFAULT_LIMIT, speed * 4 % U32_MOD)))
    case Reset => r.(limit := DEFAULT_LIMIT)
  }

  function After(r: Rate, desired: nat, fs: seq<Feedback>): Rate {
    if fs == [] then r else Next(After(r, desired, fs[..|fs| - 1]), desired, fs[|fs| - 1])
  }

  ghost predicate InRange(limit: nat, desired: nat) {
    FLOOR <= limit <= Max(desired, DEFAULT_LIMIT)
  }

  const START := Rate(DEFAULT_LIMIT, false, false)

  /** Every interleaving of feedback, caps and resets keeps the limit between 127 and the larger of its two goals. */
  lemma {:induction false} AlwaysInRange(desired: nat, fs: seq<Feedback>)
    requires FLOOR <= desired <= 0x8000_0000
    ensures InRange(After(START, desired, fs).limit, desired)
  {
    hide Increased;
    if fs != [] {
      AlwaysInRange(desired, fs[..|fs| - 1]);
      OneGood(After(START, desired, fs[..|fs| - 1]).limit, desired);
    }
  }

  // ------------------------------------------------------------- convergence

  function Good(limit: nat, desired: nat, n: nat): nat {
    if n == 0 then limit else Increased(Good(limit, desired, n - 1), desired)
  }

  function Bad(limit: nat, n: nat): nat {
    if n == 0 then limit else Decreased(Bad(limit, n - 1))
  }

  lemma OneGood(limit: nat, desired: nat)
    requires FLOOR <= desired <= 0x8000_0000 && InRange(limit, desired)
    ensures Min(desired, limit + SMALL_INCREASE) <= Increased(limit, desired) <= desired
    ensures InRange(Increased(limit, desired), desired)
  {
  }

  /** Good feedback alone reaches the desired limit and stays there. */
  lemma {:induction false} GoodReaches(limit: nat, desired: nat, n: nat)
    requires FLOOR <= desired <= 0x8000_0000 && InRange(limit, desired) && n > 0
    ensures Good(limit, desired, n) <= desired
    ensures Good(limit, desired, n) >= Min(desired, limit + n * SMALL_INCREASE)
    ensures n * SMALL_INCREASE >= desired ==> Good(limit, desired, n) == desired
  {
    hide Increased;
    if n > 1 {
      GoodReaches(limit, desired, n - 1);
      OneGood(Good(limit, desired, n - 1), desired);
    } else {
      assert Good(limit, desired, 0) == limit;
      OneGood(limit, desired);
    }
  }

  /** Bad feedback alone from at least 128 falls to exactly 127 and stays there. */
  lemma {:induction false} BadReaches(limit: nat, n: nat)
    requires limit >= FLOOR
    ensures Bad(limit, n) == FLOOR || FLOOR < Bad(limit, n) <= limit - n
    ensures n >= limit - FLOOR ==> Bad(limit, n) == FLOOR
  {
    if n > 0 {
      BadReaches(limit, n - 1);
    }
  }

  // Feedback that by itself asks for more, and for less.
  predicate IsGood(f: Feedback) {
    (f.Rtt? && !TooBigRtt(f.rtt, f.minRtt)) || (f.Loss? && !TooBigLoss(f.loss))
  }

  predicate IsBad(f: Feedback) {
    (f.Rtt? && TooBigRtt(f.rtt, f.minRtt)) || (f.Loss? && TooBigLoss(f.loss))
  }

  /** Sustained feedback of both kinds, in any mixture, is repeated increase or repeated decrease. */
  lemma {:induction false} Sustained(r: Rate, desired: nat, fs: seq<Feedback>)
    ensures !r.tooBigRtt && !r.tooBigLoss && (forall i :: 0 <= i < |fs| ==> IsGood(fs[i])) ==>
      After(r, desired, fs) == r.(limit := Good(r.limit, desired, |fs|))
    ensures (forall i :: 0 <= i < |fs| ==> IsBad(fs[i])) ==> After(r, desired, fs).limit == Bad(r.limit, |fs|)
  {
    if fs != [] {
      var before := fs[..|fs| - 1];
      Sustained(r, desired, before);
      assert forall i :: 0 <= i < |before| ==> before[i] == fs[i];
    }
  }

  /** Under good feedback a flag clears exactly when feedback of its own kind comes. */
  lemma {:induction false} FlagsClearIff(r: Rate, desired: nat, fs: seq<Feedback>)
    requires forall i :: 0 <= i < |fs| ==> IsGood(fs[i])
    ensures After(r, desired, fs).tooBigRtt <==> r.tooBigRtt && forall i :: 0 <= i < |fs| ==> !fs[i].Rtt?
    ensures After(r, desired, fs).tooBigLoss <==> r.tooBigLoss && forall i :: 0 <= i < |fs| ==> !fs[i].Loss?
  {
    if fs != [] {
      var n := |fs| - 1;
      FlagsClearIff(r, desired, fs[..n]);
      assert forall i :: 0 <= i < n ==> fs[..n][i] == fs[i];
    }
  }

  // Good feedback of one kind, while the flag of the other kind is set.
  ghost predicate Ignored(r: Rate, fs: seq<Feedback>) {
    || (r.tooBigLoss && forall i :: 0 <= i < |fs| ==> fs[i].Rtt?)
    || (r.tooBigRtt && forall i :: 0 <= i < |fs| ==> fs[i].Loss?)
  }

  /** Good feedback of one kind alone keeps lowering the limit, for ever, once the other kind was bad. */
  lemma {:induction false} GoodLowers(r: Rate, desired: nat, fs: seq<Feedback>)
    requires (forall i :: 0 <= i < |fs| ==> IsGood(fs[i])) && Ignored(r, fs)
    ensures After(r, desired, fs).limit == Bad(r.limit, |fs|)
  {
    if fs != [] {
      var n := |fs| - 1;
      assert forall i :: 0 <= i < n ==> fs[..n][i] == fs[i];
      GoodLowers(r, desired, fs[..n]);
      FlagsClearIff(r, desired, fs[..n]);
    }
  }

  // ------------------------------------------------------------- one step, in numbers

  /** An RTT is bad above 1 ms when it is above five times the smallest, or above 100 ms. */
  lemma BadRttIff(rtt: int, minRtt: nat)
    requires minRtt <= 858993459
    ensures IsBad(Rtt(rtt, minRtt)) <==> rtt > 1000 && (rtt > 5 * minRtt || rtt > 100000)
    ensures IsGood(Rtt(rtt, minRtt)) <==> !IsBad(Rtt(rtt, minRtt))
  {
  }

  /** A loss report is bad above one percent. */
  lemma BadLossIff(loss: nat)
    requires loss <= 10000
    ensures IsBad(Loss(loss)) <==> loss > 100
    ensures IsGood(Loss(loss)) <==> !IsBad(Loss(loss))
  {
  }

  /** Bad feedback takes one part in 128 off the limit, rounded down, whatever the flags say. */
  lemma BadStep(r: Rate, desired: nat, f: Feedback)
    requires IsBad(f)
    ensures 127 * r.limit <= 128 * Next(r, desired, f).limit < 127 * r.limit + 128
    ensures f.Rtt? ==> Next(r, desired, f) == Rate(Next(r, desired, f).limit, true, r.tooBigLoss)
    ensures f.Loss? ==> Next(r, desired, f) == Rate(Next(r, desired, f).limit, r.tooBigRtt, true)
  {
  }

  /** Good feedback with both flags clear adds 9376 bytes, or one part in 256 where that is more, up to the goal. */
  lemma GoodStep(r: Rate, desired: nat, f: Feedback)
    requires IsGood(f) && !r.tooBigRtt && !r.tooBigLoss
    requires FLOOR <= desired <= 0x8000_0000 && InRange(r.limit, desired)
    ensures var limit := Next(r, desired, f).limit;
      && Next(r, desired, f) == r.(limit := limit)
      && limit <= desired
      && (limit < desired ==>
        && limit - r.limit >= 9376 && r.limit - 255 <= 256 * (limit - r.limit)
        && (limit - r.limit == 9376 || 256 * (limit - r.limit) <= r.limit))
      && (limit == desired ==> desired - r.limit <= Max(9376, r.limit / 256))
  {
    RaisedBy(r.limit, desired);
    hide Increased;
  }

  lemma RaisedBy(limit: nat, desired: nat)
    requires FLOOR <= desired <= 0x8000_0000 && InRange(limit, desired)
    ensures var raised := Increased(limit, desired);
      && raised <= desired
      && (raised < desired ==>
        && raised - limit >= 9376 && limit - 255 <= 256 * (raised - limit)
        && (raised - limit == 9376 || 256 * (raised - limit) <= limit))
      && (raised == desired ==> desired - limit <= Max(9376, limit / 256))
  {
    var q := limit / 256;
    assert 256 * q <= limit < 256 * q + 256;
    assert (limit + (if q <= 9376 then 9376 else q)) % U32_MOD == limit + (if q <= 9376 then 9376 else q);
  }

  /** Once a second the limit is cut to four times the measured speed, but not below the default. */
  lemma CapStep(r: Rate, desired: nat, speed: nat)
    requires 4 * speed <= UINT32_MAX
    ensures var limit := Next(r, desired, Second(speed)).limit;
      && Next(r, desired, Second(speed)) == r.(limit := limit)
      && (limit < r.limit ==> limit == Max(262144, 4 * speed))
      && (limit >= r.limit ==> limit == r.limit <= Max(262144, 4 * speed))
  {
  }

  // --------------------------------------------------------- in the connection

  const NEW_PROBE_LIMIT: nat := 8
  const BAD_PROBE_LIMIT: nat := 16
  const PROBE_PERIOD_US: int := 10 * 1000 * 1000

  /** The fields of Connection that the limit depends on, and the probing of the smallest RTT. */
  class RateLimit {
    const desired: nat
    var limit: nat
    var tooBigRtt: bool
    var tooBigLoss: bool
    var isProbing: bool
    var rttCount: nat
    var minRtt: nat
    var nextMinRtt: nat
    var nextProbe: int

    ghost function State(): Rate
      reads this
    {
      Rate(limit, tooBigRtt, tooBigLoss)
    }

    // A probe takes fewer than 8 samples more, and 16 bad ones in a row start one.
    ghost predicate Valid()
      reads this
    {
      && FLOOR <= desired <= 0x8000_0000
      && InRange(limit, desired)
      && minRtt <= UINT32_MAX && nextMinRtt <= UINT32_MAX
      && rttCount < if isProbing then NEW_PROBE_LIMIT else BAD_PROBE_LIMIT
    }

    constructor (desired: nat)
      requires FLOOR <= desired <= 0x8000_0000
      ensures Valid() && State() == START && this.desired == desired && !isProbing
      ensures rttCount == 0 && minRtt == UINT32_MAX == nextMinRtt && nextProbe == 0
    {
      this.desired := desired;
      limit, tooBigRtt, tooBigLoss, isProbing := DEFAULT_LIMIT, false, false, false;
      rttCount, minRtt, nextMinRtt, nextProbe := 0, UINT32_MAX, UINT32_MAX, 0;
    }

    method Raise()
      requires Valid()
      modifies this`limit
      ensures limit == Increased(old(limit), desired) && InRange(limit, desired)
    {
      OneGood(limit, desired);
      if limit / INC_STEP <= SMALL_INCREASE {
        limit := (limit + SMALL_INCREASE) % U32_MOD;
      } else {
        limit := (limit + limit / INC_STEP) % U32_MOD;
      }
      limit := Min(limit, desired);
    }

    // A sample of a probe: the eighth one ends it, and the smallest of the eight is the new smallest RTT.
    ghost predicate ProbeStep(rtt: nat, now: int, count: nat, minWas: nat, nextWas: nat, probeWas: int)
      reads this
    {
      if count < 7 then
        && isProbing && rttCount == count + 1 && minRtt == Min(minWas, rtt) && nextMinRtt == Min(nextWas, rtt)
        && nextProbe == probeWas
      else
        && !isProbing && rttCount == 0 && minRtt == Min(nextWas, rtt) && nextMinRtt == UINT32_MAX
        && nextProbe == now + 10000000
    }

    /** An RTT sample. While a probe runs it only counts for the probe, and leaves the limit alone. */
    method OnRtt(sample: int, now: int)
      requires Valid()
      modifies this
      ensures Valid()
      ensures old(isProbing) ==> State() == old(State())
      ensures old(isProbing) ==> (isProbing <==> old(rttCount) + 1 < NEW_PROBE_LIMIT)
      ensures !old(isProbing) ==> State() == Next(old(State()), desired, Rtt(if sample <= 0 then 400 else sample, minRtt))
      ensures var rtt: nat := if sample <= 0 then 400 else sample;
        var low := Min(old(minRtt), rtt);
        var bad := TooBigRtt(rtt, low) || old(tooBigLoss);
        if old(isProbing) then ProbeStep(rtt, now, old(rttCount), old(minRtt), old(nextMinRtt), old(nextProbe))
        else
          && minRtt == low && nextMinRtt == old(nextMinRtt) && nextProbe == old(nextProbe)
          && (isProbing <==> bad && old(nextProbe) <= now && old(rttCount) == 15)
          && rttCount == (if !bad || isProbing then 0 else old(rttCount) + if old(nextProbe) <= now then 1 else 0)
    {
      hide Increased;
      var rtt := if sample <= 0 then 400 else sample;
      if rtt < UINT32_MAX && rtt < minRtt {
        minRtt := rtt;
      }
      if isProbing {
        if rtt < UINT32_MAX && rtt < nextMinRtt {
          nextMinRtt := rtt;
        }
        rttCount := rttCount + 1;
        if rttCount >= NEW_PROBE_LIMIT {
          rttCount := 0;
          minRtt := nextMinRtt;
          nextMinRtt := UINT32_MAX;
          isProbing := false;
          nextProbe := now + PROBE_PERIOD_US;
        }
        return;
      }
      var bad := TooBigRtt(rtt, minRtt);
      if bad || tooBigLoss {
        limit := limit - limit / DEC_STEP;
        if nextProbe <= now {
          rttCount := rttCount + 1;
          if rttCount >= BAD_PROBE_LIMIT {
            rttCount := 0;
            isProbing := true;
          }
        }
      } else {
        rttCount := 0;
        Raise();
      }
      tooBigRtt := bad;
    }

    /** The loss the peer reports, once per window of sent datagrams. */
    method OnLoss(loss: nat)
      requires Valid()
      modifies this`limit, this`tooBigLoss
      ensures Valid()
      ensures State() == if isProbing then old(State()) else Next(old(State()), desired, Loss(loss))
    {
      hide Increased;
      if isProbing {
        return;
      }
      var bad := 100 < loss && loss < 10100;
      if bad || tooBigRtt {
        limit := limit - limit / DEC_STEP;
      } else {
        Raise();
      }
      tooBigLoss := bad;
    }

    method EverySecond(speed: nat)
      requires Valid()
      modifies this`limit
      ensures Valid() && State() == Next(old(State()), desired, Second(speed))
    {
      limit := Min(limit, Max(DEFAULT_LIMIT, speed * 4 % U32_MOD));
    }

    method PartialReset()
      requires Valid()
      modifies this
      ensures Valid() && State() == Next(old(State()), desired, Reset) && isProbing == old(isProbing)
      ensures minRtt == UINT32_MAX == nextMinRtt && rttCount == old(rttCount) && nextProbe == old(nextProbe)
    {
      limit, minRtt, nextMinRtt := DEFAULT_LIMIT, UINT32_MAX, UINT32_MAX;
    }
  }
}
