/**
 * What a bill's invoices have to declare is what the bill charges
 * (`stateFromLines` in src/services/fiscalAllocation.js against
 * `recalculateTotals` in src/services/billItems.js).
 *
 * One groups by rate in a map and sorts; the other lets the database group. Both
 * round once per rate, so for a bill in bolívares they agree to the céntimo.
 */
module FiscalMatch {
  import opened Money
  import opened BillState
  import opened LargestRemainder
  import FiscalAllocation

  /** Base and tax of each rate in turn. */
  function WorthOver(lines: seq<Line>, rates: seq<nat>): nat {
    if rates == [] then 0
    else
      var n := |rates| - 1;
      WorthOver(lines, rates[..n]) + RateWorth(lines, rates[n])
  }

  function RateWorth(lines: seq<Line>, rate: nat): nat { BaseAt(lines, rate) + ApplyBps(BaseAt(lines, rate), rate) }

  function BaseOver(lines: seq<Line>, rates: seq<nat>): nat {
    if rates == [] then 0 else BaseOver(lines, rates[..|rates| - 1]) + BaseAt(lines, rates[|rates| - 1])
  }

  predicate Distinct(rates: seq<nat>) { forall i, j :: 0 <= i < j < |rates| ==> rates[i] != rates[j] }

  lemma {:induction false} WorthIsBaseAndTax(lines: seq<Line>, rates: seq<nat>)
    ensures WorthOver(lines, rates) == BaseOver(lines, rates) + VatOver(lines, rates)
  {
    if rates != [] {
      WorthIsBaseAndTax(lines, rates[..|rates| - 1]);
    }
  }

  lemma {:induction false} WorthWithout(lines: seq<Line>, rates: seq<nat>, i: nat)
    requires i < |rates|
    ensures WorthOver(lines, rates) == WorthOver(lines, rates[..i] + rates[i + 1..]) + RateWorth(lines, rates[i])
  {
    var n := |rates| - 1;
    if i == n {
      assert rates[..i] + rates[i + 1..] == rates[..n];
    } else {
      WorthWithout(lines, rates[..n], i);
      var rest := rates[..i] + rates[i + 1..];
      LastOfRest(rates, i);
      hide BaseAt, RateWorth;
      assert WorthOver(lines, rest) == WorthOver(lines, rest[..|rest| - 1]) + RateWorth(lines, rest[|rest| - 1]);
    }
  }

  lemma LastOfRest(rates: seq<nat>, i: nat)
    requires i < |rates| - 1
    ensures var n, rest := |rates| - 1, rates[..i] + rates[i + 1..];
            && rest != [] && rest[|rest| - 1] == rates[n] && rates[..n][i] == rates[i]
            && rest[..|rest| - 1] == rates[..n][..i] + rates[..n][i + 1..]
  {
  }

  /** The order of the rates does not matter. */
  lemma {:induction false} AnyOrder(lines: seq<Line>, a: seq<nat>, b: seq<nat>)
    requires Distinct(a) && Distinct(b) && forall r :: r in a <==> r in b
    ensures WorthOver(lines, a) == WorthOver(lines, b)
  {
    if a == [] {
      assert forall k :: 0 <= k < |b| ==> b[k] in b;
    } else {
      var n := |a| - 1;
      assert a[n] in b;
      var i :| 0 <= i < |b| && b[i] == a[n];
      WorthWithout(lines, b, i);
      WithoutOne(a, b, i);
      AnyOrder(lines, a[..n], b[..i] + b[i + 1..]);
    }
  }

  lemma WithoutOne(a: seq<nat>, b: seq<nat>, i: nat)
    requires a != [] && Distinct(a) && Distinct(b) && i < |b| && b[i] == a[|a| - 1] && forall r :: r in a <==> r in b
    ensures var rest := b[..i] + b[i + 1..];
            Distinct(a[..|a| - 1]) && Distinct(rest) && forall r :: r in a[..|a| - 1] <==> r in rest
  {
    var n, rest := |a| - 1, b[..i] + b[i + 1..];
    forall r ensures r in a[..n] <==> r in rest {
      if r in a[..n] {
        assert r in a && r != a[n];
        var k :| 0 <= k < |b| && b[k] == r;
        assert rest[if k < i then k else k - 1] == r;
      }
      if r in rest {
        var k :| 0 <= k < |rest| && rest[k] == r;
        assert b[if k < i then k else k + 1] == r;
        assert r in a && r != b[i];
      }
    }
  }

  lemma {:induction false} RatesAreDistinct(lines: seq<Line>)
    ensures Distinct(RatesIn(lines))
    ensures forall r :: r in RatesIn(lines) <==> exists k :: 0 <= k < |lines| && lines[k].vatBps == r
  {
    if lines != [] {
      var n := |lines| - 1;
      RatesAreDistinct(lines[..n]);
      forall r ensures r in RatesIn(lines) <==> exists k :: 0 <= k < |lines| && lines[k].vatBps == r {
        assert r in RatesIn(lines[..n]) <==> exists k :: 0 <= k < n && lines[..n][k].vatBps == r;
        assert lines[n].vatBps == r ==> r in RatesIn(lines);
      }
    }
  }

  /** Every subtotal is in the base of exactly one rate. */
  lemma {:induction false} BasesAddUp(lines: seq<Line>, rates: seq<nat>)
    requires Distinct(rates) && forall k :: 0 <= k < |lines| ==> lines[k].vatBps in rates
    ensures BaseOver(lines, rates) == Subtotal(lines)
  {
    if lines == [] {
      NoBase(rates);
    } else {
      var n := |lines| - 1;
      BasesAddUp(lines[..n], rates);
      OneMoreLine(lines, rates);
    }
  }

  lemma {:induction false} NoBase(rates: seq<nat>)
    ensures BaseOver([], rates) == 0
  {
    if rates != [] {
      NoBase(rates[..|rates| - 1]);
    }
  }

  lemma {:induction false} OneMoreLine(lines: seq<Line>, rates: seq<nat>)
    requires lines != [] && Distinct(rates)
    ensures var n := |lines| - 1;
            BaseOver(lines, rates)
            == BaseOver(lines[..n], rates) + if lines[n].vatBps in rates then lines[n].subtotal else 0
  {
    if rates != [] {
      var m := |rates| - 1;
      OneMoreLine(lines, rates[..m]);
      assert rates == rates[..m] + [rates[m]];
    }
  }

  function RatesOf(groups: seq<FiscalAllocation.Group>): (r: seq<nat>)
    ensures |r| == |groups| && forall i :: 0 <= i < |r| ==> r[i] == groups[i].vatBps
  {
    seq(|groups|, i requires 0 <= i < |groups| => groups[i].vatBps)
  }

  function Worths(groups: seq<FiscalAllocation.Group>): (w: seq<int>)
    ensures |w| == |groups| && forall i :: 0 <= i < |w| ==> w[i] == FiscalAllocation.Worth(groups[i])
  {
    seq(|groups|, i requires 0 <= i < |groups| => FiscalAllocation.Worth(groups[i]))
  }

  lemma {:induction false} GroupsAreWorthTheirRates(lines: seq<Line>, groups: seq<FiscalAllocation.Group>)
    requires forall i :: 0 <= i < |groups| ==> FiscalAllocation.Worth(groups[i]) == RateWorth(lines, groups[i].vatBps)
    ensures Sum(Worths(groups)) == WorthOver(lines, RatesOf(groups))
  {
    if groups != [] {
      var n := |groups| - 1;
      GroupsAreWorthTheirRates(lines, groups[..n]);
      assert Worths(groups)[..n] == Worths(groups[..n]) && RatesOf(groups)[..n] == RatesOf(groups[..n]);
    }
  }

  /** Everything there is to declare, base, tax and service, is what the lines and the service come to. */
  lemma DeclaresWhatIsCharged(lines: seq<Line>, serviceBps: nat, s: FiscalAllocation.State)
    requires FiscalAllocation.GroupedByRate(lines, s.groups) && s.service == ApplyBps(Subtotal(lines), serviceBps)
    ensures FiscalAllocation.Outstanding(s) == Quote(lines, serviceBps)
  {
    var rates := RatesOf(s.groups);
    SameRates(lines, s.groups);
    RatesAreDistinct(lines);
    hide FiscalAllocation.GroupedByRate, ApplyBps, BaseAt, VatOver, BaseOver, WorthOver;
    AnyOrder(lines, rates, RatesIn(lines));
    WorthIsBaseAndTax(lines, RatesIn(lines));
    EachLineIsIn(lines);
    BasesAddUp(lines, RatesIn(lines));
    GroupsAreWorthTheirRates(lines, s.groups);
    var buckets := FiscalAllocation.Buckets(s.groups, s.service);
    assert buckets == Worths(s.groups) + [s.service as int];
    SumPush(Worths(s.groups), s.service);
  }

  lemma EachLineIsIn(lines: seq<Line>)
    ensures forall k :: 0 <= k < |lines| ==> lines[k].vatBps in RatesIn(lines)
  {
    RatesAreDistinct(lines);
  }

  lemma SameRates(lines: seq<Line>, groups: seq<FiscalAllocation.Group>)
    requires FiscalAllocation.GroupedByRate(lines, groups)
    ensures Distinct(RatesOf(groups)) && forall r :: r in RatesOf(groups) <==> r in RatesIn(lines)
    ensures forall i :: 0 <= i < |groups| ==> FiscalAllocation.Worth(groups[i]) == RateWorth(lines, groups[i].vatBps)
  {
    RatesAreDistinct(lines);
    hide BaseAt, ApplyBps;
    forall r ensures r in RatesOf(groups) <==> r in RatesIn(lines) {
      RateIsThere(lines, groups, r);
    }
  }

  lemma RateIsThere(lines: seq<Line>, groups: seq<FiscalAllocation.Group>, r: nat)
    requires FiscalAllocation.GroupedByRate(lines, groups)
    ensures r in RatesOf(groups) <==> r in RatesIn(lines)
  {
    RatesAreDistinct(lines);
    assert FiscalAllocation.HasRate(groups, r) <==> FiscalAllocation.LineAt(lines, r);
    if FiscalAllocation.HasRate(groups, r) {
      var i :| 0 <= i < |groups| && groups[i].vatBps == r;
      assert RatesOf(groups)[i] == r;
    }
    if r in RatesOf(groups) {
      var i :| 0 <= i < |groups| && RatesOf(groups)[i] == r;
      assert groups[i].vatBps == r;
    }
  }

  /** A bill in bolívares charges its quote, so its invoices declare exactly what it charges. */
  lemma DeclaresTheBill(bill: Bill, s: FiscalAllocation.State)
    requires bill.rate == RATE_SCALE && bill.due == ApplyRate(bill.quoted, bill.rate)
    requires bill.quoted == Quote(bill.lines, bill.serviceBps)
    requires FiscalAllocation.GroupedByRate(bill.lines, s.groups)
    requires s.service == ApplyBps(Subtotal(bill.lines), bill.serviceBps)
    ensures FiscalAllocation.Outstanding(s) == bill.due
  {
    DeclaresWhatIsCharged(bill.lines, bill.serviceBps, s);
    OwnRate(bill.quoted);
  }

  lemma OwnRate(amount: nat)
    ensures ApplyRate(amount, RATE_SCALE) == amount
  {
  }
}
