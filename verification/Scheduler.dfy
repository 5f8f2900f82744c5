/**
 Which priority class sends the next chunk: realtime up to 98 % of the bytes, then high,
 medium and low in the proportion 80 : 16 : 4, and the rotation of streams inside a class.
 */
module Scheduler {
  import opened Common

  // The classes, in the order of enum class Priority.
  const REALTIME: nat := 0
  const HIGH: nat := 1
  const MEDIUM: nat := 2
  const LOW: nat := 3
  const CLASSES: nat := 4

  /** Bytes sent per class since the last reset (countSent_B, a uint32 each). */
  datatype Counts = Counts(realtime: nat, high: nat, medium: nat, low: nat) {
    function NonRealtime(): nat {
      high + medium + low
    }

    function Total(): nat {
      realtime + NonRealtime()
    }

    // The counter of a class.
    function Of(class_: nat): nat {
      if class_ == REALTIME then realtime else if class_ == HIGH then high else if class_ == MEDIUM then medium else low
    }

    // No counter of this is above the other's.
    predicate AtMost(other: Counts) {
      realtime <= other.realtime && high <= other.high && medium <= other.medium && low <= other.low
    }

    function Add(class_: nat, bytes: nat): (r: Counts)
      ensures AtMost(r) && r.Total() == Total() + bytes && r.Of(class_) == Of(class_) + bytes
    {
      if class_ == REALTIME then this.(realtime := realtime + bytes)
      else if class_ == HIGH then this.(high := high + bytes)
      else if class_ == MEDIUM then this.(medium := medium + bytes)
      else this.(low := low + bytes)
    }
  }

  const ZERO := Counts(0, 0, 0, 0)

  // The largest count whose product with 100 is still a uint32.
  const MAX_EXACT: nat := 42949672

  // The percentage (count * 100) / total, with the uint32 product of the source.
  function Share(count: nat, total: nat): nat
    requires total > 0
  {
    count * 100 % U32_MOD / total
  }

  /** The test of the source on the percentage. */
  predicate Below(count: nat, total: nat, percent: nat)
    requires total > 0
  {
    Share(count, total) < percent
  }

  // -------------------------------------------------------------- the 4 slots

  // The next class at or after p that has a packet; realtime has one.
  function NextClass(has: seq<bool>, p: nat): (r: nat)
    requires |has| == CLASSES && has[REALTIME]
    ensures r < CLASSES && has[r]
    decreases CLASSES - p
  {
    if p >= CLASSES then REALTIME else if has[p] then p else NextClass(has, p + 1)
  }

  function Slots(has: seq<bool>, p: nat, count: nat): (r: seq<nat>)
    requires |has| == CLASSES && has[REALTIME]
    ensures |r| == count && forall i :: 0 <= i < count ==> r[i] < CLASSES && has[r[i]]
    decreases count
  {
    if count == 0 then []
    else
      var q := NextClass(has, p);
      [q] + Slots(has, q + 1, count - 1)
  }

  lemma SlotsStep(has: seq<bool>, p: nat, count: nat)
    requires |has| == CLASSES && has[REALTIME] && count > 0
    ensures Slots(has, p, count) == [NextClass(has, p)] + Slots(has, NextClass(has, p) + 1, count - 1)
  {
  }

  /** The nested loops that fill the slots: they end, because realtime has a packet. */
  method FillSlots(has: seq<bool>) returns (slots: seq<nat>)
    requires |has| == CLASSES && has[REALTIME]
    ensures slots == Slots(has, 0, CLASSES)
  {
    hide Slots;
    slots := [];
    var i, p: nat := 0, 0;
    while i < CLASSES
      invariant i <= CLASSES && p <= CLASSES
      invariant Slots(has, 0, CLASSES) == slots + Slots(has, p, CLASSES - i)
    {
      ghost var start := p;
      while true
        invariant p <= CLASSES
        invariant NextClass(has, p) == NextClass(has, start)
        invariant Slots(has, 0, CLASSES) == slots + Slots(has, start, CLASSES - i)
        decreases CLASSES - p
      {
        if p >= CLASSES {
          p := 0;
        }
        if !has[p] {
          p := p + 1;
          continue;
        }
        break;
      }
      SlotsStep(has, start, CLASSES - i);
      slots := slots + [p];
      p := p + 1;
      i := i + 1;
    }
    SlotsEmpty(has, p);
  }

  lemma SlotsEmpty(has: seq<bool>, p: nat)
    requires |has| == CLASSES && has[REALTIME]
    ensures Slots(has, p, 0) == []
  {
  }

  /** Every class with a packet has a slot, so none is shut out while realtime is over its share. */
  lemma SlotsCover(has: seq<bool>, p: nat)
    requires |has| == CLASSES && has[REALTIME] && p < CLASSES && has[p]
    ensures p in Slots(has, 0, CLASSES)
  {
    hide Slots;
    var a := NextClass(has, 1);
    var b := NextClass(has, a + 1);
    SlotsAre(has, a, b);
    if p == HIGH {
      assert a == HIGH;
    } else if p == MEDIUM {
      assert a == MEDIUM || b == MEDIUM;
    } else if p == LOW {
      assert a == LOW || b == LOW || NextClass(has, b + 1) == LOW;
    }
  }

  // Going round the classes, q is the next one with a packet after p.
  predicate Follows(has: seq<bool>, p: nat, q: nat)
    requires |has| == CLASSES
  {
    && (q <= p ==> q == REALTIME)
    && forall j :: p < j < (if q > p then q else CLASSES) && j < CLASSES ==> !has[j]
  }

  lemma {:induction false} NextFollows(has: seq<bool>, p: nat)
    requires |has| == CLASSES && has[REALTIME] && p < CLASSES
    ensures Follows(has, p, NextClass(has, p + 1))
    decreases CLASSES - p
  {
    if p + 1 < CLASSES && !has[p + 1] {
      NextFollows(has, p + 1);
    }
  }

  /** The slots begin with realtime and go round the classes that have a packet. */
  lemma SlotsRotate(has: seq<bool>)
    requires |has| == CLASSES && has[REALTIME]
    ensures var r := Slots(has, 0, CLASSES);
      r[0] == REALTIME && forall i :: 0 <= i < 3 ==> has[r[i]] && Follows(has, r[i], r[i + 1])
  {
    hide Slots, Follows;
    var a := NextClass(has, 1);
    var b := NextClass(has, a + 1);
    SlotsAre(has, a, b);
    NextFollows(has, 0);
    NextFollows(has, a);
    NextFollows(has, b);
  }

  lemma SlotsAre(has: seq<bool>, a: nat, b: nat)
    requires |has| == CLASSES && has[REALTIME] && a == NextClass(has, 1) && b == NextClass(has, a + 1)
    ensures Slots(has, 0, CLASSES) == [REALTIME, a, b, NextClass(has, b + 1)]
  {
    hide Slots;
    assert NextClass(has, 0) == REALTIME;
    SlotsStep(has, 0, 4);
    SlotsStep(has, 1, 3);
    SlotsStep(has, a + 1, 2);
    SlotsStep(has, b + 1, 1);
    SlotsEmpty(has, NextClass(has, b + 1) + 1);
  }

  // ------------------------------------------------------------------ the pick

  /** has tells which classes have a packet to send, slot is the random choice 0..3. */
  function Pick(has: seq<bool>, counts: Counts, slot: nat): (r: Option<nat>)
    requires |has| == CLASSES && slot < CLASSES
    ensures r.Some? ==> r.value < CLASSES && has[r.value]
    ensures r.None? <==> !has[REALTIME] && !has[HIGH] && !has[MEDIUM] && !has[LOW]
  {
    var nonRt := counts.NonRealtime() + 1;
    if has[REALTIME] then
      if Below(counts.realtime, counts.Total() + 1, 98) then Some(REALTIME)
      else Some(Slots(has, 0, CLASSES)[slot])
    else if has[HIGH] then
      if has[MEDIUM] then
        if has[LOW] then
          if Below(counts.high, nonRt, 80) then Some(HIGH)
          else if Below(counts.medium, nonRt, 16) then Some(MEDIUM)
          else Some(LOW)
        else if Below(counts.high, nonRt, 84) then Some(HIGH)
        else Some(MEDIUM)
      else if has[LOW] then
        if Below(counts.high, nonRt, 95) then Some(HIGH) else Some(LOW)
      else Some(HIGH)
    else if has[MEDIUM] then
      if has[LOW] then
        if Below(counts.medium, nonRt, 80) then Some(MEDIUM) else Some(LOW)
      else Some(MEDIUM)
    else if has[LOW] then Some(LOW)
    else None
  }

  /** The decision as the source makes it, with the slots filled only when realtime is over its share. */
  method PickClass(has: seq<bool>, counts: Counts, slot: nat) returns (r: Option<nat>)
    requires |has| == CLASSES && slot < CLASSES
    requires counts.Total() < UINT32_MAX // otherwise a total may wrap to zero
    ensures r == Pick(has, counts, slot)
  {
    hide Share, Slots;
    var nonRt := (counts.high + counts.medium + counts.low + 1) % U32_MOD;
    var total := (counts.realtime + counts.high + counts.medium + counts.low + 1) % U32_MOD;
    NoWrap(counts);
    r := None;
    if has[REALTIME] {
      if Share(counts.realtime, total) < 98 {
        r := Some(REALTIME);
      } else {
        var slots := FillSlots(has);
        r := Some(slots[slot]);
      }
    } else if has[HIGH] {
      var high := Share(counts.high, nonRt);
      var medium := Share(counts.medium, nonRt);
      if has[MEDIUM] && has[LOW] {
        r := Some(if high < 80 then HIGH else if medium < 16 then MEDIUM else LOW);
      } else if has[MEDIUM] {
        r := Some(if high < 84 then HIGH else MEDIUM);
      } else if has[LOW] {
        r := Some(if high < 95 then HIGH else LOW);
      } else {
        r := Some(HIGH);
      }
    } else if has[MEDIUM] {
      if has[LOW] {
        r := Some(if Share(counts.medium, nonRt) < 80 then MEDIUM else LOW);
      } else {
        r := Some(MEDIUM);
      }
    } else if has[LOW] {
      r := Some(LOW);
    }
  }

  lemma NoWrap(counts: Counts)
    requires counts.Total() < UINT32_MAX
    ensures (counts.high + counts.medium + counts.low + 1) % U32_MOD == counts.NonRealtime() + 1
    ensures (counts.realtime + counts.high + counts.medium + counts.low + 1) % U32_MOD == counts.Total() + 1
  {
  }

  lemma BelowExact(count: nat, total: nat, percent: nat)
    requires total > 0 && count <= MAX_EXACT
    ensures Below(count, total, percent) <==> count * 100 < percent * total
  {
    assert count * 100 % U32_MOD == count * 100;
    if count * 100 < percent * total {
      QuotientBelow(count * 100, total, percent);
    } else {
      QuotientAtLeast(count * 100, total, percent);
    }
  }

  lemma QuotientAtLeast(a: nat, b: nat, q: nat)
    requires b > 0 && q * b <= a
    ensures q <= a / b
  {
    var k := a / b;
    assert a < (k + 1) * b by {
      assert a == k * b + a % b;
    }
    Cancel(q, k + 1, b);
  }

  lemma Cancel(p: int, q: int, b: int)
    requires b > 0 && p * b < q * b
    ensures p < q
  {
  }

  /**
   The 32-bit test agrees with the exact share, for every total, exactly up to 42949672
   bytes: above it the product wraps and the test lets a class through that has its share.
   */
  lemma ShareTestExactIff(count: nat, percent: nat)
    requires count < UINT32_MAX && 2 <= percent < 100
    ensures (forall total :: count < total <= UINT32_MAX ==>
              (Below(count, total, percent) <==> count * 100 < percent * total))
      <==> count <= MAX_EXACT
  {
    if count <= MAX_EXACT {
      forall total | count < total <= UINT32_MAX
        ensures Below(count, total, percent) <==> count * 100 < percent * total
      {
        BelowExact(count, total, percent);
      }
    } else {
      var total := WrongTotal(count, percent);
      assert count < total <= UINT32_MAX;
    }
  }

  // A total for which a class that has its share passes as being below it.
  lemma WrongTotal(count: nat, percent: nat) returns (total: nat)
    requires MAX_EXACT < count < UINT32_MAX && 2 <= percent < 100
    ensures count < total <= UINT32_MAX
    ensures Below(count, total, percent) && count * 100 >= percent * total
  {
    hide Below;
    var wrapped := count * 100 % U32_MOD;
    WrapsAtLeastOnce(count * 100);
    total := WrappedTotal(wrapped, count, percent);
    BelowIf(count, total, percent);
  }

  lemma WrappedTotal(wrapped: nat, count: nat, percent: nat) returns (total: nat)
    requires 2 <= percent < 100 && MAX_EXACT < count < UINT32_MAX
    requires wrapped < U32_MOD && wrapped <= count * 100 - U32_MOD
    ensures count < total <= UINT32_MAX && wrapped < percent * total <= count * 100
  {
    var q := wrapped / percent;
    QuotientBounds(wrapped, percent);
    if count < q {
      Scale(2, percent, q);
      assert percent * (q + 1) == (q + 1) * percent;
      return q + 1;
    }
    Scale(q + 1, count + 1, percent);
    Scale(percent, 99, count + 1);
    assert percent * (count + 1) == (count + 1) * percent;
    return count + 1;
  }

  lemma BelowIf(count: nat, total: nat, percent: nat)
    requires total > 0 && count * 100 % U32_MOD < percent * total
    ensures Below(count, total, percent)
  {
    QuotientBelow(count * 100 % U32_MOD, total, percent);
  }

  lemma WrapsAtLeastOnce(a: nat)
    requires a >= U32_MOD
    ensures a % U32_MOD <= a - U32_MOD
  {
  }

  lemma Scale(a: nat, b: nat, c: nat)
    requires a <= b
    ensures a * c <= b * c
  {
  }

  lemma QuotientBounds(a: nat, b: nat)
    requires b > 0
    ensures b * (a / b) <= a < (a / b + 1) * b == b * (a / b) + b
  {
  }

  // ------------------------------------------------------------ share theorems

  function Sum(chunks: seq<nat>): nat {
    if chunks == [] then 0 else Sum(chunks[..|chunks| - 1]) + chunks[|chunks| - 1]
  }

  // The counts after sending the chunks with the same classes backlogged throughout.
  function Sent(has: seq<bool>, chunks: seq<nat>): Counts
    requires |has| == CLASSES && !has[REALTIME] && (has[HIGH] || has[MEDIUM] || has[LOW])
  {
    if chunks == [] then ZERO
    else
      var before := Sent(has, chunks[..|chunks| - 1]);
      before.Add(Pick(has, before, 0).value, chunks[|chunks| - 1])
  }

  // Chunks of 1..max bytes.
  ghost predicate Load(chunks: seq<nat>, max: nat) {
    forall i :: 0 <= i < |chunks| ==> 1 <= chunks[i] <= max
  }

  // All chunks but the last.
  function Front(chunks: seq<nat>): seq<nat>
    requires chunks != []
  {
    chunks[..|chunks| - 1]
  }

  lemma SentStep(has: seq<bool>, chunks: seq<nat>)
    requires |has| == CLASSES && !has[REALTIME] && (has[HIGH] || has[MEDIUM] || has[LOW]) && chunks != []
    ensures var before := Sent(has, chunks[..|chunks| - 1]);
      Sent(has, chunks) == before.Add(Pick(has, before, 0).value, chunks[|chunks| - 1])
  {
  }

  const HML := [false, true, true, true]

  /** With high, medium and low all waiting, the three shares in exact terms. */
  ghost predicate ShareBounds(c: Counts, max: nat) {
    var t := c.NonRealtime() + 1;
    && 4 * t - 4 * max <= 5 * c.high <= 4 * t + max
    && 4 * t - 29 * max <= 25 * c.medium <= 4 * t + 21 * max
    && t - 25 - 26 * max <= 25 * c.low <= t - 25 + 24 * max
  }

  // The products of the two counters that are tested do not wrap.
  predicate HmlExact(c: Counts) {
    c.high <= MAX_EXACT && c.medium <= MAX_EXACT
  }

  lemma ShareStep(c: Counts, chunk: nat, max: nat)
    requires ShareBounds(c, max) && 1 <= chunk <= max && HmlExact(c)
    ensures ShareBounds(c.Add(Pick(HML, c, 0).value, chunk), max)
    ensures c.Add(Pick(HML, c, 0).value, chunk).NonRealtime() == c.NonRealtime() + chunk
  {
    hide Below;
    var t := c.NonRealtime() + 1;
    BelowExact(c.high, t, 80);
    BelowExact(c.medium, t, 16);
  }

  ghost predicate SharesOk(chunks: seq<nat>, max: nat) {
    var c := Sent(HML, chunks);
    c.NonRealtime() == Sum(chunks) && ShareBounds(c, max)
  }

  lemma SharesExtend(chunks: seq<nat>, max: nat)
    requires Load(chunks, max) && chunks != [] && SharesOk(Front(chunks), max) && HmlExact(Sent(HML, Front(chunks)))
    ensures SharesOk(chunks, max)
  {
    hide Pick, ShareBounds, Below, Slots, Sent;
    SentStep(HML, chunks);
    ShareStep(Sent(HML, Front(chunks)), chunks[|chunks| - 1], max);
  }

  // A pick adds to a counter, so it was no larger before.
  lemma SentGrows(has: seq<bool>, chunks: seq<nat>)
    requires |has| == CLASSES && !has[REALTIME] && (has[HIGH] || has[MEDIUM] || has[LOW]) && chunks != []
    ensures Sent(has, Front(chunks)).AtMost(Sent(has, chunks))
  {
    SentStep(has, chunks);
    hide Pick, Sent;
  }

  lemma {:induction false} SharesHold(chunks: seq<nat>, max: nat)
    requires Load(chunks, max) && max >= 1
    requires chunks != [] ==> HmlExact(Sent(HML, Front(chunks)))
    ensures SharesOk(chunks, max)
  {
    hide SharesOk, Sent;
    if chunks == [] {
      SharesBase(max);
    } else {
      if Front(chunks) != [] {
        SentGrows(HML, Front(chunks));
      }
      SharesHold(Front(chunks), max);
      SharesExtend(chunks, max);
    }
  }

  lemma SharesBase(max: nat)
    requires max >= 1
    ensures SharesOk([], max)
  {
  }

  /**
   As long as no test meets a product that wraps, each class stays within 1.2 maximum chunks
   and one byte of 80, 16 and 4 percent of the bytes sent.
   */
  lemma BoundedShareError(chunks: seq<nat>, max: nat)
    requires Load(chunks, max) && max >= 1
    requires chunks != [] ==> HmlExact(Sent(HML, Front(chunks)))
    ensures var c := Sent(HML, chunks);
      var t := Sum(chunks);
      && -120 * max - 100 <= 100 * c.high - 80 * t <= 120 * max + 100
      && -120 * max - 100 <= 100 * c.medium - 16 * t <= 120 * max + 100
      && -120 * max - 100 <= 100 * c.low - 4 * t <= 120 * max + 100
  {
    hide Sent, Sum, ShareBounds;
    SharesHold(chunks, max);
    ErrorOf(Sent(HML, chunks), Sum(chunks), max);
  }

  lemma ErrorOf(c: Counts, t: nat, max: nat)
    requires ShareBounds(c, max) && c.NonRealtime() == t && max >= 1
    ensures -120 * max - 100 <= 100 * c.high - 80 * t <= 120 * max + 100
    ensures -120 * max - 100 <= 100 * c.medium - 16 * t <= 120 * max + 100
    ensures -120 * max - 100 <= 100 * c.low - 4 * t <= 120 * max + 100
  {
  }

  datatype Pair = HighMedium | HighLow | MediumLow {
    function Waiting(): (has: seq<bool>)
      ensures |has| == CLASSES && !has[REALTIME] && (has[HIGH] || has[MEDIUM])
    {
      [false, !MediumLow?, !HighLow?, !HighMedium?]
    }

    // The counter the pair's test looks at.
    function Tested(c: Counts): nat {
      if MediumLow? then c.medium else c.high
    }
  }

  /** Two classes waiting: high and medium 84 : 16, high and low 95 : 5, medium and low 80 : 20. */
  ghost predicate PairBounds(pair: Pair, c: Counts, max: nat) {
    var t := c.NonRealtime() + 1;
    match pair
    case HighMedium => 84 * t - 84 * max <= 100 * c.high <= 84 * t + 16 * max
    case HighLow => 95 * t - 95 * max <= 100 * c.high <= 95 * t + 5 * max
    case MediumLow => 80 * t - 80 * max <= 100 * c.medium <= 80 * t + 20 * max
  }

  lemma PairStep(pair: Pair, c: Counts, chunk: nat, max: nat)
    requires 1 <= chunk <= max && pair.Tested(c) <= MAX_EXACT && PairBounds(pair, c, max)
    ensures PairBounds(pair, c.Add(Pick(pair.Waiting(), c, 0).value, chunk), max)
    ensures c.Add(Pick(pair.Waiting(), c, 0).value, chunk).NonRealtime() == c.NonRealtime() + chunk
  {
    hide Below;
    var t := c.NonRealtime() + 1;
    match pair
    case HighMedium => BelowExact(c.high, t, 84);
    case HighLow => BelowExact(c.high, t, 95);
    case MediumLow => BelowExact(c.medium, t, 80);
  }

  ghost predicate PairOk(pair: Pair, chunks: seq<nat>, max: nat) {
    var c := Sent(pair.Waiting(), chunks);
    c.NonRealtime() == Sum(chunks) && PairBounds(pair, c, max)
  }

  lemma PairExtend(pair: Pair, chunks: seq<nat>, max: nat)
    requires Load(chunks, max) && chunks != [] && PairOk(pair, Front(chunks), max)
    requires pair.Tested(Sent(pair.Waiting(), Front(chunks))) <= MAX_EXACT
    ensures PairOk(pair, chunks, max)
  {
    hide Pick, PairBounds, Below, Slots, Sent;
    SentStep(pair.Waiting(), chunks);
    PairStep(pair, Sent(pair.Waiting(), Front(chunks)), chunks[|chunks| - 1], max);
  }

  /** The same for two waiting classes, whose test looks at one counter. */
  lemma {:induction false} PairShareError(pair: Pair, chunks: seq<nat>, max: nat)
    requires Load(chunks, max) && max >= 1
    requires chunks != [] ==> pair.Tested(Sent(pair.Waiting(), Front(chunks))) <= MAX_EXACT
    ensures PairOk(pair, chunks, max)
  {
    hide PairOk, Sent;
    if chunks == [] {
      PairBase(pair, max);
    } else {
      if Front(chunks) != [] {
        SentGrows(pair.Waiting(), Front(chunks));
      }
      PairShareError(pair, Front(chunks), max);
      PairExtend(pair, chunks, max);
    }
  }

  lemma PairBase(pair: Pair, max: nat)
    requires max >= 1
    ensures PairOk(pair, [], max)
  {
  }

  // ------------------------------------------------------------------ realtime

  /** One pick while realtime waits: the other classes, the slot and the chunk are free. */
  datatype Turn = Turn(has: seq<bool>, slot: nat, chunk: nat)

  type RealtimeTurn = t: Turn | |t.has| == CLASSES && t.has[REALTIME] && t.slot < CLASSES
    witness Turn([true, false, false, false], 0, 1)

  function Served(turns: seq<RealtimeTurn>): Counts {
    if turns == [] then ZERO else After(Served(turns[..|turns| - 1]), turns[|turns| - 1])
  }

  function After(c: Counts, turn: RealtimeTurn): Counts {
    c.Add(Pick(turn.has, c, turn.slot).value, turn.chunk)
  }

  ghost predicate RealtimeBound(c: Counts, max: nat) {
    100 * c.realtime >= 98 * (c.Total() + 1) - 98 * max
  }

  lemma RealtimeStep(c: Counts, turn: RealtimeTurn, max: nat)
    requires 1 <= turn.chunk <= max && RealtimeBound(c, max) && c.realtime <= MAX_EXACT
    ensures RealtimeBound(After(c, turn), max)
  {
    hide Slots, Below;
    BelowExact(c.realtime, c.Total() + 1, 98);
  }

  lemma AfterGrows(c: Counts, turn: RealtimeTurn)
    ensures c.AtMost(After(c, turn))
  {
    hide Pick;
  }

  /**
   While realtime stays backlogged, and its product does not wrap, it keeps 98 percent of the
   bytes, up to one chunk.
   */
  lemma {:induction false} RealtimeGuarantee(turns: seq<RealtimeTurn>, max: nat)
    requires (forall i :: 0 <= i < |turns| ==> 1 <= turns[i].chunk <= max) && max >= 1
    requires turns != [] ==> Served(turns[..|turns| - 1]).realtime <= MAX_EXACT
    ensures RealtimeBound(Served(turns), max)
  {
    hide After, Served, RealtimeBound;
    if turns == [] {
      RealtimeBase(max);
    } else {
      var before := turns[..|turns| - 1];
      ServedStep(turns);
      if before != [] {
        ServedStep(before);
        AfterGrows(Served(before[..|before| - 1]), before[|before| - 1]);
      }
      RealtimeGuarantee(before, max);
      RealtimeStep(Served(before), turns[|turns| - 1], max);
    }
  }

  lemma RealtimeBase(max: nat)
    requires max >= 1
    ensures RealtimeBound(Served([]), max)
  {
  }

  lemma ServedStep(turns: seq<RealtimeTurn>)
    requires turns != []
    ensures Served(turns) == After(Served(turns[..|turns| - 1]), turns[|turns| - 1])
  {
    hide After;
  }

  predicate OthersWait(has: seq<bool>)
    requires |has| == CLASSES
  {
    has[HIGH] || has[MEDIUM] || has[LOW]
  }

  lemma RealtimePick(has: seq<bool>, counts: Counts, slot: nat)
    requires |has| == CLASSES && has[REALTIME] && slot < CLASSES && counts.realtime <= 42949672
    ensures Pick(has, counts, slot) ==
      if 100 * counts.realtime < 98 * (counts.Total() + 1) then Some(REALTIME)
      else Some(Slots(has, 0, CLASSES)[slot])
  {
    hide Slots, Below;
    BelowExact(counts.realtime, counts.Total() + 1, 98);
  }

  /** At 98 percent or more every waiting class has a slot of the draw that gives it the turn. */
  lemma NoneShutOut(has: seq<bool>, counts: Counts, p: nat) returns (slot: nat)
    requires |has| == CLASSES && has[REALTIME] && p < CLASSES && has[p]
    requires counts.realtime <= 42949672 && 100 * counts.realtime >= 98 * (counts.Total() + 1)
    ensures slot < 4 && Pick(has, counts, slot) == Some(p)
  {
    SlotsCover(has, p);
    slot :| 0 <= slot < CLASSES && Slots(has, 0, CLASSES)[slot] == p;
    hide Pick, Slots;
    RealtimePick(has, counts, slot);
  }

  /**
   While it waits, realtime takes the turn whatever is drawn if and only if it has less than 98
   percent of the bytes or no other class waits.
   */
  lemma RealtimeAloneIff(has: seq<bool>, counts: Counts)
    requires |has| == CLASSES && has[REALTIME] && counts.realtime <= 42949672
    ensures (forall slot: nat :: slot < 4 ==> Pick(has, counts, slot) == Some(REALTIME))
      <==> 100 * counts.realtime < 98 * (counts.Total() + 1) || !OthersWait(has)
  {
    forall slot: nat | slot < 4
      ensures Pick(has, counts, slot).Some? && Pick(has, counts, slot).value < CLASSES
      ensures has[Pick(has, counts, slot).value]
      ensures 100 * counts.realtime < 98 * (counts.Total() + 1) ==> Pick(has, counts, slot) == Some(REALTIME)
    {
      RealtimePick(has, counts, slot);
    }
    hide Pick;
    if 100 * counts.realtime >= 98 * (counts.Total() + 1) && OthersWait(has) {
      var slot := NoneShutOut(has, counts, if has[HIGH] then HIGH else if has[MEDIUM] then MEDIUM else LOW);
    }
  }

  // -------------------------------------------------- rotation inside a class

  // The first ready stream at or after the start, going round once.
  function Select(ready: seq<bool>, start: nat, tried: nat): (r: Option<nat>)
    requires tried <= |ready|
    ensures r.Some? ==> r.value < |ready| && ready[r.value]
    decreases |ready| - tried
  {
    if tried == |ready| then None
    else
      var k := if start >= |ready| then 0 else start;
      if ready[k] then Some(k) else Select(ready, k + 1, tried + 1)
  }

  // The m-th position the scan tries.
  function At(start: nat, n: nat, m: nat): (r: nat)
    requires m < n
    ensures r < n
  {
    var s := if start >= n then 0 else start;
    if s + m < n then s + m else s + m - n
  }

  // After one position the scan goes on as if it had started at the next.
  lemma AtStep(start: nat, n: nat, m: nat)
    requires m + 1 < n
    ensures At(At(start, n, 0) + 1, n, m) == At(start, n, m + 1) != At(start, n, 0)
  {
  }

  lemma {:induction false} SelectTriesAll(ready: seq<bool>, start: nat, tried: nat, m: nat)
    requires tried + m < |ready| && ready[At(start, |ready|, m)]
    ensures Select(ready, start, tried).Some?
    decreases m
  {
    if m > 0 && !ready[At(start, |ready|, 0)] {
      AtStep(start, |ready|, m - 1);
      SelectTriesAll(ready, At(start, |ready|, 0) + 1, tried + 1, m - 1);
    }
  }

  /** The scan of a class finds a stream exactly when some stream of the class is ready. */
  lemma SelectComplete(ready: seq<bool>, start: nat)
    ensures Select(ready, start, 0).Some? <==> true in ready
  {
    if true in ready {
      var j :| 0 <= j < |ready| && ready[j];
      var s := if start >= |ready| then 0 else start;
      var m := if j >= s then j - s else j - s + |ready|;
      SelectTriesAll(ready, start, 0, m);
    }
  }

  // vecIdx moves by one at each selection of the class, whichever stream was taken.
  function Moved(vecIdx: nat, n: nat): (r: nat)
    requires n > 0
    ensures r < n
  {
    if vecIdx + 1 >= n then 0 else vecIdx + 1
  }

  function StartAt(start: nat, n: nat, k: nat): (r: nat)
    requires start < n
    ensures r < n
  {
    if k == 0 then start else Moved(StartAt(start, n, k - 1), n)
  }

  lemma {:induction false} StartIs(start: nat, n: nat, k: nat)
    requires start < n && k < n
    ensures StartAt(start, n, k) == if start + k < n then start + k else start + k - n
  {
    if k > 0 {
      StartIs(start, n, k - 1);
    }
  }

  /** No starvation: a stream that is ready at every scan is selected in any n consecutive selections of its class. */
  lemma NoStarvation(rounds: seq<seq<bool>>, start: nat, i: nat)
    requires var n := |rounds|;
      && start < n && i < n
      && forall k :: 0 <= k < n ==> |rounds[k]| == n && rounds[k][i]
    ensures exists k :: 0 <= k < |rounds| && Select(rounds[k], StartAt(start, |rounds|, k), 0) == Some(i)
  {
    var n := |rounds|;
    var k := if i >= start then i - start else i - start + n;
    StartIs(start, n, k);
    assert Select(rounds[k], StartAt(start, n, k), 0) == Some(i);
  }
}
