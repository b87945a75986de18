/**
 * Hare-quota allocation of an integer amount (src/services/split.js).
 *
 * The predicate `IsAllocation` says what a largest-remainder division is;
 * `Unique` shows there is only one for given weights, so the method that sorts
 * and hands out the leftover units is pinned to a single result.
 */
module LargestRemainder {
  import opened Wrappers

  datatype AllocateError = NegativeTotal | NoShares | NonPositiveShare

  function Sum(s: seq<int>): int {
    if s == [] then 0 else Sum(s[..|s| - 1]) + s[|s| - 1]
  }

  lemma SumPush(s: seq<int>, x: int)
    ensures Sum(s + [x]) == Sum(s) + x
  {
    assert (s + [x])[..|s|] == s;
  }

  lemma {:induction false} SumConcat(a: seq<int>, b: seq<int>)
    ensures Sum(a + b) == Sum(a) + Sum(b)
  {
    if b == [] {
      assert a + b == a;
    } else {
      assert (a + b)[..|a + b| - 1] == a + b[..|b| - 1];
      SumConcat(a, b[..|b| - 1]);
    }
  }

  lemma {:induction false} SumUpdate(s: seq<int>, i: nat, x: int)
    requires i < |s|
    ensures Sum(s[i := x]) == Sum(s) - s[i] + x
  {
    var n := |s| - 1;
    if i < n {
      assert s[i := x][..n] == s[..n][i := x];
      SumUpdate(s[..n], i, x);
    } else {
      assert s[i := x][..n] == s[..n];
    }
  }

  lemma {:induction false} SumMonotone(a: seq<int>, b: seq<int>)
    requires |a| == |b|
    requires forall i :: 0 <= i < |a| ==> a[i] <= b[i]
    ensures Sum(a) <= Sum(b)
    ensures Sum(a) == Sum(b) ==> a == b
  {
    if a != [] {
      SumMonotone(a[..|a| - 1], b[..|b| - 1]);
    }
  }

  lemma {:induction false} SumNonNegative(s: seq<int>)
    requires forall i :: 0 <= i < |s| ==> 0 <= s[i]
    ensures 0 <= Sum(s)
    ensures forall i :: 0 <= i < |s| ==> s[i] <= Sum(s)
  {
    if s != [] {
      SumNonNegative(s[..|s| - 1]);
    }
  }

  /** Each weight times the amount: the exact shares, in units of 1/Sum(w). */
  ghost function Scaled(total: nat, w: seq<int>): (e: seq<nat>)
    requires forall i :: 0 <= i < |w| ==> 0 <= w[i]
    ensures |e| == |w|
  {
    if w == [] then [] else Scaled(total, w[..|w| - 1]) + [total * w[|w| - 1]]
  }

  lemma {:induction false} ScaledAt(total: nat, w: seq<int>, i: nat)
    requires i < |w| && forall i :: 0 <= i < |w| ==> 0 <= w[i]
    ensures Scaled(total, w)[i] == total * w[i]
  {
    if i < |w| - 1 {
      ScaledAt(total, w[..|w| - 1], i);
    }
  }

  lemma {:induction false} SumScaled(total: nat, w: seq<int>)
    requires forall i :: 0 <= i < |w| ==> 0 <= w[i]
    ensures Sum(Scaled(total, w)) == total * Sum(w)
  {
    if w != [] {
      var n := |w| - 1;
      SumScaled(total, w[..n]);
      SumPush(Scaled(total, w[..n]), total * w[n]);
      Distribute(total, Sum(w[..n]), w[n]);
    }
  }

  /** The exact shares rounded down to whole units. */
  ghost function Quotas(e: seq<nat>, whole: nat): (q: seq<int>)
    requires whole > 0
    ensures |q| == |e|
  {
    if e == [] then [] else Quotas(e[..|e| - 1], whole) + [Quota(e[|e| - 1], whole)]
  }

  /** What rounding down cut off each of them. */
  ghost function Remainders(e: seq<nat>, whole: nat): (r: seq<int>)
    requires whole > 0
    ensures |r| == |e|
  {
    if e == [] then [] else Remainders(e[..|e| - 1], whole) + [Remainder(e[|e| - 1], whole)]
  }

  lemma {:induction false} FloorAt(e: seq<nat>, whole: nat, i: nat)
    requires whole > 0 && i < |e|
    ensures Quotas(e, whole)[i] == Quota(e[i], whole)
    ensures Remainders(e, whole)[i] == Remainder(e[i], whole)
  {
    if i < |e| - 1 {
      FloorAt(e[..|e| - 1], whole, i);
    }
  }

  /** Floors and remainders depend on the weight and the whole, not on the place in line. */
  lemma SameFloor(total: nat, a: seq<int>, i: nat, b: seq<int>, j: nat)
    requires Weights(a) && Weights(b) && Sum(a) == Sum(b) && i < |a| && j < |b| && a[i] == b[j]
    ensures Quotas(Scaled(total, a), Sum(a))[i] == Quotas(Scaled(total, b), Sum(b))[j]
    ensures Remainders(Scaled(total, a), Sum(a))[i] == Remainders(Scaled(total, b), Sum(b))[j]
  {
    FloorAt(Scaled(total, a), Sum(a), i);
    FloorAt(Scaled(total, b), Sum(b), j);
    ScaledAt(total, a, i);
    ScaledAt(total, b, j);
  }

  /** `n / d`, by repeated subtraction, which keeps division out of the proofs. */
  ghost function Quota(n: nat, d: nat): nat
    requires d > 0
  {
    if n < d then 0 else 1 + Quota(n - d, d)
  }

  /** `n % d`. */
  ghost function Remainder(n: nat, d: nat): nat
    requires d > 0
  {
    if n < d then n else Remainder(n - d, d)
  }

  ghost predicate Weights(w: seq<int>) {
    && (forall i :: 0 <= i < |w| ==> 0 <= w[i])
    && Sum(w) > 0
  }

  /** The order in which leftover units are handed out: larger remainder first, then smaller index. */
  predicate Before(r: seq<int>, i: nat, j: nat)
    requires i < |r| && j < |r|
  {
    r[i] > r[j] || (r[i] == r[j] && i < j)
  }

  /** `total` laid out over the floors `q`, the spare units going to the largest of `r`. */
  ghost predicate TopsUp(total: int, q: seq<int>, r: seq<int>, parts: seq<int>) {
    && |parts| == |q| == |r|
    && Sum(parts) == total
    && (forall i :: 0 <= i < |q| ==> parts[i] == q[i] || parts[i] == q[i] + 1)
    && (forall i, j :: 0 <= i < |q| && 0 <= j < |q| && parts[i] == q[i] + 1 && parts[j] == q[j]
          ==> Before(r, i, j))
  }

  /** `parts` is the largest-remainder division of `total` in proportion to `w`. */
  ghost predicate IsAllocation(total: nat, w: seq<int>, parts: seq<int>)
    requires Weights(w)
  {
    var e := Scaled(total, w);
    TopsUp(total, Quotas(e, Sum(w)), Remainders(e, Sum(w)), parts)
  }

  /** At most one way to top up: two would disagree about who comes first. */
  lemma TopUpUnique(total: int, q: seq<int>, r: seq<int>, a: seq<int>, b: seq<int>)
    requires TopsUp(total, q, r, a) && TopsUp(total, q, r, b)
    ensures a == b
  {
    forall i, j | 0 <= i < |q| && 0 <= j < |q| && i != j
      ensures !(Before(r, i, j) && Before(r, j, i))
    {
    }
    if forall i :: 0 <= i < |q| ==> a[i] <= b[i] {
      SumMonotone(a, b);
    } else {
      SumMonotone(b, a);
    }
  }

  /** The division is determined by the amount and the weights. */
  lemma Unique(total: nat, w: seq<int>, a: seq<int>, b: seq<int>)
    requires Weights(w) && IsAllocation(total, w, a) && IsAllocation(total, w, b)
    ensures a == b
  {
    var e := Scaled(total, w);
    TopUpUnique(total, Quotas(e, Sum(w)), Remainders(e, Sum(w)), a, b);
  }

  lemma {:induction false} Euclid(n: nat, d: nat)
    requires d > 0
    ensures n == d * Quota(n, d) + Remainder(n, d)
    ensures Remainder(n, d) < d
  {
    if n >= d {
      Euclid(n - d, d);
      Distribute(d, Quota(n - d, d), 1);
    }
  }

  lemma DivisionIsUnique(n: int, d: int, q: int, r: int, q': int, r': int)
    requires 0 <= r < d && 0 <= r' < d && n == d * q + r && n == d * q' + r'
    ensures q == q' && r == r'
  {
    QuotaMonotone(d, q, r, q', r');
    QuotaMonotone(d, q', r', q, r);
  }

  /** The recursive forms are the machine's quotient and remainder. */
  lemma IsDivision(n: nat, d: nat)
    requires d > 0
    ensures n / d == Quota(n, d) && n % d == Remainder(n, d)
  {
    Euclid(n, d);
    DivisionIsUnique(n, d, n / d, n % d, Quota(n, d), Remainder(n, d));
  }

  /** Floors and remainders together are the exact shares. */
  lemma {:induction false} CutOff(e: seq<nat>, whole: nat)
    requires whole > 0
    ensures Sum(e) == whole * Sum(Quotas(e, whole)) + Sum(Remainders(e, whole))
    ensures 0 <= Sum(Remainders(e, whole)) <= |e| * (whole - 1)
  {
    if e != [] {
      var n := |e| - 1;
      CutOff(e[..n], whole);
      Euclid(e[n], whole);
      var q, r := Quotas(e, whole), Remainders(e, whole);
      assert q[..n] == Quotas(e[..n], whole) && r[..n] == Remainders(e[..n], whole);
      CutStep(whole, Sum(e[..n]), Sum(q[..n]), Sum(r[..n]), e[n], q[n], r[n], n);
    }
  }

  lemma CutStep(whole: int, se: int, sq: int, sr: int, e: int, q: int, r: int, n: int)
    requires se == whole * sq + sr && e == whole * q + r
    requires 0 <= sr <= n * (whole - 1) && 0 <= r < whole
    ensures se + e == whole * (sq + q) + (sr + r)
    ensures 0 <= sr + r <= (n + 1) * (whole - 1)
  {
    Distribute(whole, sq, q);
    Distribute(whole - 1, n, 1);
  }

  lemma FloorRange(e: seq<nat>, whole: nat)
    requires whole > 0
    ensures forall i :: 0 <= i < |e| ==> 0 <= Quotas(e, whole)[i]
    ensures forall i :: 0 <= i < |e| ==> 0 <= Remainders(e, whole)[i] < whole
  {
    forall i | 0 <= i < |e|
      ensures 0 <= Quotas(e, whole)[i] && 0 <= Remainders(e, whole)[i] < whole
    {
      FloorAt(e, whole, i);
      Euclid(e[i], whole);
    }
  }

  lemma LeftoverRange(total: int, whole: int, placed: int, cut: int, n: nat)
    requires whole > 0 && n > 0 && total * whole == whole * placed + cut && 0 <= cut <= n * (whole - 1)
    ensures whole * (total - placed) == cut
    ensures 0 <= total - placed < n
  {
    Distribute(whole, total, placed);
    Distribute(n, whole, 1);
    Cancel(whole, -1, total - placed);
    Cancel(whole, total - placed, n);
  }

  lemma Cancel(whole: int, a: int, b: int)
    requires whole > 0
    ensures whole * a < whole * b <==> a < b
  {
  }

  lemma Distribute(a: int, b: int, c: int)
    ensures a * (b - c) == a * b - a * c
    ensures a * (b + c) == a * b + a * c
  {
  }

  /** The floors leave fewer units over than there are parts, and the remainders add up to them. */
  lemma Leftover(total: nat, e: seq<nat>, whole: nat, left: int)
    requires whole > 0 && e != [] && Sum(e) == total * whole
    requires left == total - Sum(Quotas(e, whole))
    ensures 0 <= left < |e|
    ensures whole * left == Sum(Remainders(e, whole))
  {
    CutOff(e, whole);
    LeftoverRange(total, whole, Sum(Quotas(e, whole)), Sum(Remainders(e, whole)), |e|);
  }

  /** A topped-up list exceeds its floors by one unit per spare. */
  lemma {:induction false} SumOfSpares(parts: seq<int>, q: seq<int>, c: int, spares: seq<int>)
    requires |parts| == |q| == |spares|
    requires forall k :: 0 <= k < |q| ==>
      (parts[k] == q[k] && spares[k] == 0) || (parts[k] == q[k] + 1 && spares[k] == c)
    ensures Sum(spares) == c * (Sum(parts) - Sum(q))
  {
    if parts != [] {
      var n := |parts| - 1;
      SumOfSpares(parts[..n], q[..n], c, spares[..n]);
      Distribute(c, Sum(parts[..n]) - Sum(q[..n]), 1);
    }
  }

  lemma TooFewCuts(whole: int, left: int)
    requires whole * left <= (whole - 1) * left
    ensures left <= 0
  {
    Distribute(left, whole, 1);
  }

  /** A spare unit never goes where nothing was cut off. */
  lemma TopUpNeedsCut(whole: int, total: int, q: seq<int>, r: seq<int>, parts: seq<int>, left: int, i: nat)
    requires TopsUp(total, q, r, parts) && i < |q| && parts[i] == q[i] + 1
    requires forall k :: 0 <= k < |q| ==> 0 <= r[k] < whole
    requires left == total - Sum(q) && whole * left == Sum(r)
    ensures r[i] > 0
  {
    if r[i] == 0 {
      var spares := seq(|q|, k requires 0 <= k < |q| => if parts[k] == q[k] then 0 else whole - 1);
      forall k | 0 <= k < |q| ensures r[k] <= spares[k] {
        if parts[k] == q[k] {
          assert Before(r, i, k);
        }
      }
      SumMonotone(r, spares);
      SumOfSpares(parts, q, whole - 1, spares);
      TooFewCuts(whole, left);
      SumMonotone(q, parts);
    }
  }

  lemma PartBounds(whole: int, q: int, r: int, part: int, exact: int)
    requires 0 <= r < whole && exact == whole * q + r
    requires part == q || (part == q + 1 && r > 0)
    ensures exact - whole < part * whole < exact + whole
  {
    Distribute(whole, q, 1);
  }

  lemma CutWhereTopped(total: nat, e: seq<nat>, whole: nat, parts: seq<int>, i: nat)
    requires whole > 0 && i < |e| && Sum(e) == total * whole
    requires TopsUp(total, Quotas(e, whole), Remainders(e, whole), parts)
    ensures parts[i] == Quota(e[i], whole)
         || (parts[i] == Quota(e[i], whole) + 1 && Remainder(e[i], whole) > 0)
  {
    var q, r := Quotas(e, whole), Remainders(e, whole);
    FloorAt(e, whole, i);
    FloorRange(e, whole);
    Leftover(total, e, whole, total - Sum(q));
    if parts[i] == q[i] + 1 {
      TopUpNeedsCut(whole, total, q, r, parts, total - Sum(q), i);
    }
  }

  /** Every part is less than one unit away from its exact share. */
  lemma WithinOneUnit(total: nat, w: seq<int>, parts: seq<int>, i: nat, whole: nat)
    requires Weights(w) && IsAllocation(total, w, parts) && i < |w| && whole == Sum(w)
    ensures total * w[i] - whole < parts[i] * whole < total * w[i] + whole
    ensures 0 <= parts[i]
  {
    var e := Scaled(total, w);
    SumScaled(total, w);
    CutWhereTopped(total, e, whole, parts, i);
    Euclid(e[i], whole);
    PartBounds(whole, Quota(e[i], whole), Remainder(e[i], whole), parts[i], e[i]);
    ScaledAt(total, w, i);
  }

  lemma ScaleLeq(a: int, b: int, c: int)
    requires a <= b && 0 <= c
    ensures a * c <= b * c
  {
  }

  lemma BelowNext(part: int, whole: int, weight: int)
    requires whole > 0 && part * whole < weight * whole + whole
    ensures part <= weight
  {
    Distribute(whole, weight, 1);
    Cancel(whole, part, weight + 1);
  }

  lemma AtMostWeight(part: int, whole: int, weight: int, exact: int, total: int)
    requires whole > 0 && total <= whole && weight >= 0
    requires exact == total * weight && part * whole < exact + whole
    ensures part <= weight
  {
    ScaleLeq(total, whole, weight);
    BelowNext(part, whole, weight);
  }

  /** Dividing no more than the weights add up to never gives a part more than its own weight. */
  lemma NeverAboveWeight(total: nat, w: seq<int>, parts: seq<int>, i: nat)
    requires Weights(w) && IsAllocation(total, w, parts) && i < |w|
    requires total <= Sum(w)
    ensures 0 <= parts[i] <= w[i]
  {
    WithinOneUnit(total, w, parts, i, Sum(w));
    AtMostWeight(parts[i], Sum(w), w[i], total * w[i], total);
  }

  lemma NoWeightNoPart(total: nat, w: seq<int>, parts: seq<int>, i: nat)
    requires Weights(w) && IsAllocation(total, w, parts) && i < |w| && w[i] == 0
    ensures parts[i] == 0
  {
    WithinOneUnit(total, w, parts, i, Sum(w));
    BelowNext(parts[i], Sum(w), 0);
  }

  /** Who weighs more never gets less; equal weights differ by at most one unit, in favour of the earlier. */
  lemma OrderPreserving(total: nat, w: seq<int>, parts: seq<int>, i: nat, j: nat)
    requires Weights(w) && IsAllocation(total, w, parts) && i < |w| && j < |w|
    ensures w[i] > w[j] ==> parts[i] >= parts[j]
    ensures w[i] == w[j] && i < j ==> parts[j] <= parts[i] <= parts[j] + 1
  {
    var e := Scaled(total, w);
    ScaledAt(total, w, i);
    ScaledAt(total, w, j);
    if w[i] > w[j] {
      ScaleLess(total, w[j], w[i]);
      SumScaled(total, w);
      OrderedFloors(total, e, Sum(w), parts, i, j);
    } else if w[i] == w[j] {
      FloorAt(e, Sum(w), i);
      FloorAt(e, Sum(w), j);
    }
  }

  lemma OrderedFloors(total: nat, e: seq<nat>, whole: nat, parts: seq<int>, i: nat, j: nat)
    requires whole > 0 && i < |e| && j < |e| && Sum(e) == total * whole
    requires TopsUp(total, Quotas(e, whole), Remainders(e, whole), parts)
    requires e[j] < e[i] || e[i] == e[j] == 0
    ensures parts[i] >= parts[j]
  {
    FloorAt(e, whole, i);
    FloorAt(e, whole, j);
    CutWhereTopped(total, e, whole, parts, i);
    CutWhereTopped(total, e, whole, parts, j);
    Euclid(e[i], whole);
    Euclid(e[j], whole);
    QuotaMonotone(whole, Quota(e[i], whole), Remainder(e[i], whole), Quota(e[j], whole), Remainder(e[j], whole));
  }

  lemma ScaleLess(c: nat, a: nat, b: nat)
    requires a < b
    ensures c * a < c * b || c * a == c * b == 0
  {
  }

  lemma QuotaMonotone(whole: int, qi: int, ri: int, qj: int, rj: int)
    requires 0 <= ri < whole && 0 <= rj < whole && whole * qj + rj <= whole * qi + ri
    ensures qj <= qi && (qi == qj ==> rj <= ri)
  {
    Distribute(whole, qi, 1);
    Cancel(whole, qj, qi + 1);
  }

  /** The first place in line among those still at their floor. */
  lemma {:induction false} NextInLine(q: seq<int>, r: seq<int>, parts: seq<int>, n: nat) returns (best: nat)
    requires |parts| == |q| == |r| && n <= |q|
    requires exists i :: 0 <= i < n && parts[i] == q[i]
    ensures best < n && parts[best] == q[best]
    ensures forall i :: 0 <= i < n && parts[i] == q[i] && i != best ==> Before(r, best, i)
  {
    var i :| 0 <= i < n && parts[i] == q[i];
    if n - 1 == i && forall k :: 0 <= k < n - 1 ==> parts[k] != q[k] {
      best := i;
    } else {
      best := NextInLine(q, r, parts, n - 1);
      if parts[n - 1] == q[n - 1] && Before(r, n - 1, best) {
        best := n - 1;
      }
    }
  }

  lemma {:induction false} TopUpExists(q: seq<int>, r: seq<int>, spare: nat) returns (parts: seq<int>)
    requires |q| == |r| && (spare == 0 || spare <= |q|)
    ensures TopsUp(Sum(q) + spare, q, r, parts)
  {
    if spare == 0 {
      parts := q;
    } else {
      var was := TopUpExists(q, r, spare - 1);
      if forall i :: 0 <= i < |q| ==> was[i] != q[i] {
        var ones := seq(|q|, _ => 1);
        SumOfSpares(was, q, 1, ones);
        SumConstant(ones, 1);
        assert false;
      }
      var next := NextInLine(q, r, was, |q|);
      parts := was[next := was[next] + 1];
      SumUpdate(was, next, was[next] + 1);
    }
  }

  lemma {:induction false} SumConstant(s: seq<int>, c: int)
    requires forall i :: 0 <= i < |s| ==> s[i] == c
    ensures Sum(s) == |s| * c
  {
    if s != [] {
      SumConstant(s[..|s| - 1], c);
      Distribute(c, |s|, 1);
    }
  }

  lemma AllocationExists(total: nat, w: seq<int>)
    requires Weights(w)
    ensures exists parts :: IsAllocation(total, w, parts)
  {
    var e := Scaled(total, w);
    SumScaled(total, w);
    var q, r := Quotas(e, Sum(w)), Remainders(e, Sum(w));
    assert w != [];
    Leftover(total, e, Sum(w), total - Sum(q));
    var parts := TopUpExists(q, r, total - Sum(q));
    assert IsAllocation(total, w, parts);
  }

  /** The largest-remainder division, as a value (`Unique` makes the choice no choice). */
  ghost function Division(total: nat, w: seq<int>): (parts: seq<int>)
    requires Weights(w)
    ensures IsAllocation(total, w, parts)
  {
    AllocationExists(total, w);
    var parts :| IsAllocation(total, w, parts);
    parts
  }

  /** Positions sorted by `Before`, each index once: the array the leftover loop walks. */
  ghost predicate SortedIndices(r: seq<int>, order: seq<nat>) {
    && |order| <= |r|
    && (forall k :: 0 <= k < |order| ==> order[k] < |order|)
    && (forall i :: 0 <= i < |order| ==> i in order)
    && (forall a, b :: 0 <= a < b < |order| ==> order[a] != order[b] && Before(r, order[a], order[b]))
  }

  /** The next index takes its place among the smaller ones without disturbing their order. */
  lemma InsertKeepsSorted(r: seq<int>, order: seq<nat>, at: nat, now: seq<nat>)
    requires SortedIndices(r, order) && at <= |order| < |r|
    requires forall k :: 0 <= k < at ==> Before(r, order[k], |order|)
    requires at < |order| ==> !Before(r, order[at], |order|)
    requires now == order[..at] + [|order|] + order[at..]
    ensures SortedIndices(r, now)
  {
    forall i | 0 <= i < |now| ensures i in now {
      if i == |order| {
        assert now[at] == i;
      } else {
        assert i in order;
        var k :| 0 <= k < |order| && order[k] == i;
        assert now[if k < at then k else k + 1] == i;
      }
    }
  }

  method SortByRemainder(r: seq<int>) returns (order: seq<nat>)
    ensures SortedIndices(r, order) && |order| == |r|
  {
    order := [];
    for n := 0 to |r|
      invariant SortedIndices(r, order) && |order| == n
    {
      var at := 0;
      while at < n && Before(r, order[at], n)
        invariant 0 <= at <= n
        invariant forall k :: 0 <= k < at ==> Before(r, order[k], n)
      {
        at := at + 1;
      }
      InsertKeepsSorted(r, order, at, order[..at] + [n] + order[at..]);
      order := order[..at] + [n] + order[at..];
    }
  }

  /** The first `n` places in `order` have had their unit and nobody else has. */
  ghost predicate Bumped(q: seq<int>, order: seq<nat>, parts: seq<int>, n: nat) {
    && |parts| == |q|
    && Sum(parts) == Sum(q) + n
    && (forall k :: 0 <= k < |order| ==> order[k] < |q|)
    && (forall k :: 0 <= k < |order| ==> parts[order[k]] == q[order[k]] + (if k < n then 1 else 0))
  }

  lemma BumpKeepsCount(q: seq<int>, order: seq<nat>, parts: seq<int>, i: nat)
    requires Bumped(q, order, parts, i) && i < |order|
    requires forall a, b :: 0 <= a < b < |order| ==> order[a] != order[b]
    ensures Bumped(q, order, parts[order[i] := parts[order[i]] + 1], i + 1)
  {
    SumUpdate(parts, order[i], parts[order[i]] + 1);
  }

  lemma SmallModulus(i: nat, n: nat)
    requires i < n
    ensures i % n == i
  {
  }

  /** One unit to each of the first places in line, until nothing is left over. */
  method HandOut(q: seq<int>, r: seq<int>, spare: nat) returns (parts: seq<int>)
    requires |q| == |r| && (spare == 0 || spare < |q|)
    ensures TopsUp(Sum(q) + spare, q, r, parts)
  {
    parts := q;
    var order := SortByRemainder(r);
    var leftover := spare;
    var i := 0;
    while leftover > 0
      invariant 0 <= leftover && i + leftover == spare
      invariant Bumped(q, order, parts, i)
    {
      SmallModulus(i, |order|);
      var at := order[i % |order|];
      BumpKeepsCount(q, order, parts, i);
      parts := parts[at := parts[at] + 1];
      i, leftover := i + 1, leftover - 1;
    }
    FirstInLine(q, r, order, spare, parts);
  }

  lemma FirstInLine(q: seq<int>, r: seq<int>, order: seq<nat>, spare: nat, parts: seq<int>)
    requires SortedIndices(r, order) && |order| == |q| == |r| && Bumped(q, order, parts, spare)
    ensures TopsUp(Sum(q) + spare, q, r, parts)
  {
    forall a | 0 <= a < |q| ensures parts[a] == q[a] || parts[a] == q[a] + 1 {
      assert a in order;
      var x :| 0 <= x < |order| && order[x] == a;
    }
    forall a, b | 0 <= a < |q| && 0 <= b < |q| && parts[a] == q[a] + 1 && parts[b] == q[b]
      ensures Before(r, a, b)
    {
      assert a in order && b in order;
      var x :| 0 <= x < |order| && order[x] == a;
      var y :| 0 <= y < |order| && order[y] == b;
      assert x < spare <= y;
    }
  }

  method FloorDivide(n: nat, d: nat) returns (quotient: int, remainder: int)
    requires d > 0
    ensures quotient == Quota(n, d) && remainder == Remainder(n, d)
  {
    IsDivision(n, d);
    quotient, remainder := n / d, n % d;
  }

  /** `allocate`: floors, then one unit to each of the largest remainders. */
  method Allocate(total: int, shares: seq<int>) returns (result: Result<seq<int>, AllocateError>)
    ensures total < 0 ==> result == Failure(NegativeTotal)
    ensures total >= 0 && shares == [] ==> result == Failure(NoShares)
    ensures total >= 0 && shares != [] && (exists i :: 0 <= i < |shares| && shares[i] <= 0)
            ==> result == Failure(NonPositiveShare)
    ensures total >= 0 && shares != [] && (forall i :: 0 <= i < |shares| ==> shares[i] > 0)
            ==> result.Success? && Weights(shares) && IsAllocation(total, shares, result.value)
  {
    if total < 0 { return Failure(NegativeTotal); }
    if shares == [] { return Failure(NoShares); }
    var weighed := WeightSum(shares);
    if weighed.None? { return Failure(NonPositiveShare); }
    var parts, remainders, leftover := Floors(total, shares, weighed.value);
    SumScaled(total, shares);
    Leftover(total, Scaled(total, shares), weighed.value, leftover);
    parts := HandOut(parts, remainders, leftover);
    return Success(parts);
  }

  method WeightSum(shares: seq<int>) returns (whole: Option<nat>)
    requires shares != []
    ensures whole == None <==> exists i :: 0 <= i < |shares| && shares[i] <= 0
    ensures whole.Some? ==> Weights(shares) && whole.value == Sum(shares)
  {
    var sum := 0;
    for i := 0 to |shares|
      invariant sum == Sum(shares[..i]) && sum >= i
      invariant forall k :: 0 <= k < i ==> shares[k] > 0
    {
      if shares[i] <= 0 { return None; }
      sum := sum + shares[i];
      assert shares[..i + 1] == shares[..i] + [shares[i]];
      SumPush(shares[..i], shares[i]);
    }
    assert shares[..|shares|] == shares;
    return Some(sum);
  }

  method Floors(total: nat, shares: seq<int>, whole: nat)
    returns (parts: seq<int>, remainders: seq<int>, leftover: int)
    requires whole > 0 && forall i :: 0 <= i < |shares| ==> 0 <= shares[i]
    ensures parts == Quotas(Scaled(total, shares), whole)
    ensures remainders == Remainders(Scaled(total, shares), whole)
    ensures leftover == total - Sum(parts)
  {
    ghost var e := Scaled(total, shares);
    ghost var q, r := Quotas(e, whole), Remainders(e, whole);
    parts, remainders, leftover := [], [], total;
    for i := 0 to |shares|
      invariant parts == q[..i] && remainders == r[..i]
      invariant leftover == total - Sum(parts)
    {
      ScaledAt(total, shares, i);
      FloorAt(e, whole, i);
      var part, cut := FloorDivide(total * shares[i], whole);
      SumPush(parts, part);
      parts := parts + [part];
      remainders := remainders + [cut];
      leftover := leftover - part;
    }
    assert parts == q && remainders == r;
  }
}
