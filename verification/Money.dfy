/**
 * Exact arithmetic on minor units (src/services/money.js).
 *
 * The source divides BigInts, which truncate toward zero; every quotient here
 * has a positive divisor and a non-negative dividend, where Dafny agrees.
 */
module Money {
  /** A rate is an integer scaled by ten to the eighth. */
  const RATE_SCALE: nat := 100000000

  ghost function Abs(x: int): nat { if x < 0 then -x else x }

  /** `divideRound`: to the nearest integer, halves away from zero. */
  function DivideRound(n: int, d: int): (r: int)
    requires d > 0
    ensures 2 * Abs(r * d - n) <= d
    ensures n >= 0 ==> r >= 0 && 2 * (n - r * d) < d
    ensures n <= 0 ==> r <= 0 && 2 * (r * d - n) < d
  {
    RoundedUp(n, d);
    RoundedUp(-n, d);
    if n >= 0 then (n + d / 2) / d else -((-n + d / 2) / d)
  }

  lemma RoundedUp(n: int, d: int)
    requires d > 0
    ensures n >= 0 ==> (n + d / 2) / d >= 0
    ensures 2 * Abs((n + d / 2) / d * d - n) <= d && 2 * (n - (n + d / 2) / d * d) < d
    ensures -((n + d / 2) / d) * d == -((n + d / 2) / d * d)
  {
    var q := (n + d / 2) / d;
    assert q * d == (n + d / 2) - (n + d / 2) % d;
  }

  /** `applyBps`: a rate in hundredths of a percent. */
  function ApplyBps(amount: nat, bps: nat): (r: nat)
    ensures -5000 < 10000 * r - amount * bps <= 5000
  {
    DivideRound(amount * bps, 10000)
  }

  /** `applyRate`: minor units to céntimos of bolívar. */
  function ApplyRate(amount: nat, rate: nat): (r: nat)
    ensures 2 * Abs(RATE_SCALE * r - amount * rate) <= RATE_SCALE
  {
    DivideRound(amount * rate, RATE_SCALE)
  }

  /** `divideByRate`: the way back. */
  function DivideByRate(ves: nat, rate: nat): (r: nat)
    requires rate > 0
    ensures 2 * Abs(r * rate - ves * RATE_SCALE) <= rate
  {
    DivideRound(ves * RATE_SCALE, rate)
  }

  /** At a rate of one or more, converting to bolívares and back loses nothing. */
  lemma RateRoundTrip(amount: nat, rate: nat)
    requires rate >= RATE_SCALE
    ensures DivideByRate(ApplyRate(amount, rate), rate) == amount
  {
    var ves := ApplyRate(amount, rate);
    var back := DivideByRate(ves, rate);
    // ves * SCALE is within SCALE/2 of amount * rate, back * rate within rate/2 of ves * SCALE.
    assert 2 * Abs(back * rate - amount * rate) <= rate + RATE_SCALE;
    if rate == RATE_SCALE {
      assert 2 * Abs(RATE_SCALE * ves - amount * RATE_SCALE) <= RATE_SCALE;
      assert ves == amount;
      assert back == amount;
    } else {
      SameMultiple(back, amount, rate);
    }
  }

  lemma SameMultiple(a: int, b: int, d: int)
    requires d > 0 && Abs(a * d - b * d) < d
    ensures a == b
  {
    Differ(a - b, d);
    Differ(b - a, d);
    assert (a - b) * d == a * d - b * d && (b - a) * d == b * d - a * d;
  }

  lemma Differ(x: int, d: int)
    requires d > 0
    ensures x > 0 ==> x * d >= d
  {
  }

  /** Converting to bolívares and back returns every amount. */
  ghost predicate RoundTrips(rate: nat)
    requires rate > 0
  {
    forall amount: nat :: DivideByRate(ApplyRate(amount, rate), rate) == amount
  }

  lemma ConversionIsMonotone(amount: nat, rate: nat)
    ensures ApplyRate(amount, rate) <= ApplyRate(amount + 1, rate)
  {
    assert (amount + 1) * rate == amount * rate + rate;
    RoundingKeepsOrder(amount * rate, (amount + 1) * rate, RATE_SCALE);
  }

  lemma RoundingKeepsOrder(m: nat, n: nat, d: nat)
    requires d > 0 && m <= n
    ensures DivideRound(m, d) <= DivideRound(n, d)
  {
    hide DivideRound;
    var a, b := DivideRound(m, d), DivideRound(n, d);
    Differ(a - b, d);
    assert (a - b) * d == a * d - b * d;
  }

  /** If no two amounts convert alike, none converts to less than itself. */
  lemma {:induction false} NothingLost(amount: nat, rate: nat)
    requires rate > 0 && RoundTrips(rate)
    ensures ApplyRate(amount, rate) >= amount
  {
    hide ApplyRate, DivideByRate;
    if amount > 0 {
      NothingLost(amount - 1, rate);
      ConversionIsMonotone(amount - 1, rate);
      assert DivideByRate(ApplyRate(amount, rate), rate) == amount;
      assert DivideByRate(ApplyRate(amount - 1, rate), rate) == amount - 1;
    }
  }

  /** The round trip returns every amount exactly when the rate is one or more. */
  lemma RoundTripsIffOneOrMore(rate: nat)
    requires rate > 0
    ensures RoundTrips(rate) <==> rate >= RATE_SCALE
  {
    if rate >= RATE_SCALE {
      forall amount: nat ensures DivideByRate(ApplyRate(amount, rate), rate) == amount {
        RateRoundTrip(amount, rate);
      }
    }
    if RoundTrips(rate) {
      NothingLost(RATE_SCALE, rate);
      WholeScale(rate);
    }
  }

  lemma WholeScale(rate: nat)
    ensures ApplyRate(RATE_SCALE, rate) == rate
  {
    var r := ApplyRate(RATE_SCALE, rate);
    assert 2 * Abs(RATE_SCALE * r - RATE_SCALE * rate) <= RATE_SCALE;
    SameMultiple(r, rate, RATE_SCALE);
  }
}
