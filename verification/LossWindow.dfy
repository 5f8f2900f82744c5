/** The receive-loss estimate: a report each time the datagram number enters another window of eight. */
module LossWindow {
  import opened Common

  const WINDOW: nat := 8

  datatype LossState = LossState(windowIdx: nat, processed: nat, count: nat, loss: nat)

  const FRESH := LossState(0, 0, 0, 0)

  function Expected(processed: nat, n: nat): (r: nat)
    requires processed < U32_MOD && n < U32_MOD
  {
    if processed < n then n - processed
    else if processed - n < UINT32_MAX / 2 then 0
    else UINT32_MAX - processed + n
  }

  // The report, with the uint32 product of the source.
  function Report(count: nat, expected: nat): (r: nat)
    requires expected > 0
    ensures r <= 10000
  {
    if count < expected then
      assert count * 10000 % U32_MOD <= count * 10000 < 10000 * expected;
      QuotientBelow(count * 10000 % U32_MOD, expected, 10000);
      10000 - count * 10000 % U32_MOD / expected
    else 0
  }

  /** The part of onUdpReceived behind the chunk loop, for datagram number n. */
  function Arrive(s: LossState, n: nat): LossState
    requires s.processed < U32_MOD && n < U32_MOD
  {
    var count := (s.count + 1) % U32_MOD;
    if s.windowIdx == n / WINDOW then s.(count := count)
    else
      var expected := Expected(s.processed, n);
      if expected > 0 then LossState(n / WINDOW, n, 0, Report(count, expected))
      else s.(windowIdx := n / WINDOW, count := count)
  }

  // How far n is ahead of p on the circle of numbers.
  function Ahead(p: nat, n: nat): nat {
    (n - p) % U32_MOD
  }

  /**
   How many datagrams are expected: none for a number at most half the circle behind the last
   report; otherwise its distance, one less than that across the wrap.
   */
  lemma ExpectedIs(processed: nat, n: nat)
    requires processed < U32_MOD && n < U32_MOD
    ensures n <= processed && processed - n < 2147483647 ==> Expected(processed, n) == 0
    ensures processed < n ==> Expected(processed, n) == Ahead(processed, n)
    ensures n <= processed && processed - n >= 2147483647 ==> Expected(processed, n) == Ahead(processed, n) - 1
  {
  }

  /** A late datagram, in an old window, counts and reports nothing. */
  lemma LateReportsNothing(s: LossState, n: nat)
    requires s.processed < U32_MOD && n <= s.processed && s.processed - n < 2147483647
    ensures Arrive(s, n) == LossState(n / 8, s.processed, (s.count + 1) % U32_MOD, s.loss)
  {
  }

  ghost predicate Numbers(ns: seq<nat>) {
    forall i :: 0 <= i < |ns| ==> ns[i] < U32_MOD
  }

  function Feed(ns: seq<nat>): (r: LossState)
    requires forall i :: 0 <= i < |ns| ==> ns[i] < U32_MOD
    ensures r.processed < U32_MOD
  {
    if ns == [] then FRESH else Arrive(Feed(ns[..|ns| - 1]), ns[|ns| - 1])
  }

  /** For every order of arrival, wrapped or not, the report is a percentage. */
  lemma {:induction false} ReportInRange(ns: seq<nat>)
    requires Numbers(ns)
    ensures Feed(ns).loss <= 10000
  {
    if ns != [] {
      ReportInRange(ns[..|ns| - 1]);
    }
  }

  // ------------------------------------------------------- in-order arrivals

  // Numbers start at 1 and rise; any of them may be missing.
  ghost predicate InOrder(ns: seq<nat>) {
    && (forall i :: 0 <= i < |ns| ==> 0 < ns[i] < U32_MOD)
    && (forall i, j :: 0 <= i < j < |ns| ==> ns[i] < ns[j])
  }

  function Last(ns: seq<nat>): nat {
    if ns == [] then 0 else ns[|ns| - 1]
  }

  // The last arrival is in another window than the one before it.
  predicate Crosses(ns: seq<nat>) {
    ns != [] && Last(ns) / 8 != Last(ns[..|ns| - 1]) / 8
  }

  // The number of the last arrival that crossed, or 0.
  function LastCrossing(ns: seq<nat>): nat {
    if ns == [] then 0
    else if Crosses(ns) then Last(ns)
    else LastCrossing(ns[..|ns| - 1])
  }

  // How many datagrams with a number above p arrived.
  function Above(ns: seq<nat>, p: nat): nat {
    if ns == [] then 0 else Above(ns[..|ns| - 1], p) + (if Last(ns) > p then 1 else 0)
  }

  lemma {:induction false} AboveNone(ns: seq<nat>, p: nat)
    requires forall i :: 0 <= i < |ns| ==> ns[i] <= p
    ensures Above(ns, p) == 0
  {
    if ns != [] {
      AboveNone(ns[..|ns| - 1], p);
    }
  }

  lemma InOrderPrefix(ns: seq<nat>)
    requires InOrder(ns) && ns != []
    ensures InOrder(ns[..|ns| - 1]) && Last(ns[..|ns| - 1]) < Last(ns)
  {
  }

  /** The state in terms of the arrivals alone. */
  lemma {:induction false} InOrderState(ns: seq<nat>)
    requires InOrder(ns)
    ensures var s := Feed(ns);
      && s.windowIdx == Last(ns) / WINDOW
      && s.processed == LastCrossing(ns) <= Last(ns)
      && s.processed / WINDOW == Last(ns) / WINDOW
      && s.count == Above(ns, LastCrossing(ns)) <= Last(ns) - s.processed
  {
    if ns != [] {
      var before := ns[..|ns| - 1];
      InOrderPrefix(ns);
      InOrderState(before);
      if Crosses(ns) {
        forall i | 0 <= i < |ns|
          ensures ns[i] <= Last(ns)
        {
        }
        AboveNone(ns, Last(ns));
      }
    }
  }

  // Over the datagrams since the last crossing: what arrived, of what was sent.
  function Exact(received: nat, sent: nat): nat
    requires 0 < sent
  {
    if received >= sent then 0 else 10000 - 10000 * received / sent
  }

  /**
   With arrivals in order and any losses, each crossing reports exactly the share of the
   datagrams lost since the previous crossing, and reports 0 only if none was.
   */
  lemma ReportExact(ns: seq<nat>)
    requires InOrder(ns) && Crosses(ns)
    ensures var p := LastCrossing(ns[..|ns| - 1]);
      && p < Last(ns)
      && Feed(ns).loss == Exact(Above(ns, p), Last(ns) - p)
      && (Feed(ns).loss == 0 <==> Above(ns, p) == Last(ns) - p)
  {
    hide Arrive, Report, Exact;
    var before := ns[..|ns| - 1];
    InOrderPrefix(ns);
    InOrderState(before);
    var p := LastCrossing(before);
    assert Above(ns, p) == Feed(before).count + 1;
    CrossingReports(Feed(before), Last(ns));
    ReportPlain(Above(ns, p), Last(ns) - p);
  }

  lemma CrossingReports(s: LossState, n: nat)
    requires s.windowIdx != n / WINDOW && s.processed < n < U32_MOD && s.count < 8
    ensures Arrive(s, n).loss == Report(s.count + 1, n - s.processed)
  {
    hide Report;
  }

  // At most eight datagrams lie between two crossings, so the product does not overflow.
  lemma ReportPlain(received: nat, sent: nat)
    requires received <= 8 && received <= sent && 0 < sent
    ensures Report(received, sent) == Exact(received, sent)
    ensures Exact(received, sent) == 0 <==> received == sent
  {
  }

  /** The fields of Connection that count datagrams, updated in place. */
  class LossMeter {
    var windowIdx: nat
    var processed: nat
    var count: nat
    var loss: nat
    ghost var arrived: seq<nat>

    ghost function State(): LossState
      reads this
    {
      LossState(windowIdx, processed, count, loss)
    }

    // The fields are a function of the numbers that arrived.
    ghost predicate Valid()
      reads this
    {
      Numbers(arrived) && State() == Feed(arrived)
    }

    constructor ()
      ensures Valid() && arrived == []
    {
      windowIdx, processed, count, loss := 0, 0, 0, 0;
      arrived := [];
    }

    static method Expect(processed: nat, n: nat) returns (expected: nat)
      requires processed < U32_MOD && n < U32_MOD
      ensures expected == Expected(processed, n)
    {
      if processed < n {
        return n - processed;
      }
      if processed - n < UINT32_MAX / 2 {
        return 0;
      }
      return UINT32_MAX - processed + n;
    }

    static method Percentage(count: nat, expected: nat) returns (loss: nat)
      requires expected > 0
      ensures loss == Report(count, expected)
    {
      return if count < expected then 10000 - count * 10000 % U32_MOD / expected else 0;
    }

    method OnDatagram(n: nat)
      requires Valid() && n < U32_MOD
      modifies this
      ensures Valid() && arrived == old(arrived) + [n] && loss <= 10000
    {
      hide Expected, Report;
      ReportInRange(arrived + [n]);
      assert (arrived + [n])[..|arrived|] == arrived;
      arrived := arrived + [n];
      count := (count + 1) % U32_MOD;
      if windowIdx != n / WINDOW {
        windowIdx := n / WINDOW;
        var expected := Expect(processed, n);
        if expected > 0 {
          loss := Percentage(count, expected);
          count := 0;
          processed := n;
        }
      }
    }
  }
}
