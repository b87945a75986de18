/**
 * Where one payment's money is declared, bucket by bucket, in terms of the bill,
 * the amount and what the diner had (`allocatePayment` in
 * src/services/fiscalAllocation.js). A bucket is a VAT rate, or the service charge.
 */
module FiscalShares {
  import opened Wrappers
  import opened LargestRemainder
  import opened Money
  import opened FiscalAllocation

  /** What is left to declare in each bucket. */
  ghost function LeftIn(s: State): (left: seq<int>)
    ensures |left| == |s.groups| + 1 && left[|s.groups|] == s.service
    ensures forall i :: 0 <= i < |s.groups| ==> left[i] == s.groups[i].base + s.groups[i].vat
  {
    Buckets(s.groups, s.service)
  }

  /** What an invoice declares in each. */
  ghost function DeclaredIn(inv: Invoice): (got: seq<int>)
    ensures |got| == |inv.groups| + 1 && got[|inv.groups|] == inv.service
    ensures forall i :: 0 <= i < |inv.groups| ==> got[i] == inv.groups[i].base + inv.groups[i].vat
  {
    Buckets(inv.groups, inv.service)
  }

  lemma DeclaredIsParts(s: State, p: Payment)
    requires p.amount <= Outstanding(s)
    ensures DeclaredIn(Declare(s, p).invoice) == PartsOf(s, p)
  {
    hide Sum, Placed, Slice, Slices, Remaining;
    SlicesBalance(s, PartsOf(s, p));
  }

  // ---- With no composition -------------------------------------------------

  /** Each bucket gives its exact share of the payment by what is left in it, within a céntimo. */
  lemma DrawnInProportion(s: State, amount: nat, i: nat)
    requires 0 < amount <= Outstanding(s) && i <= |s.groups|
    ensures |Declare(s, Payment(amount, None)).invoice.groups| == |s.groups|
    ensures var got, left := DeclaredIn(Declare(s, Payment(amount, None)).invoice), LeftIn(s);
            Abs(got[i] * Outstanding(s) - amount * left[i]) < Outstanding(s)
  {
    hide Declare, Placed, IsAllocation;
    var p, left := Payment(amount, None), LeftIn(s);
    DeclareBalances(s, p);
    DeclaredIsParts(s, p);
    ProportionalIsPlain(amount, left);
    ShareOfWhole(amount, left, i);
  }

  lemma ShareOfWhole(amount: nat, w: seq<int>, i: nat)
    requires Weights(w) && i < |w|
    ensures Abs(Division(amount, w)[i] * Sum(w) - amount * w[i]) < Sum(w)
  {
    hide IsAllocation;
    WithinOneUnit(amount, w, Division(amount, w), i, Sum(w));
  }

  // ---- With one ------------------------------------------------------------

  /** What the diner had in each bucket that has something left; an entry that is missing or not positive is nothing. */
  function Had(c: seq<int>, left: seq<int>): (w: seq<int>)
    ensures |w| == |left|
    ensures forall i :: 0 <= i < |left| ==> w[i] == if i < |c| && c[i] > 0 && left[i] > 0 then c[i] else 0
  {
    seq(|left|, i requires 0 <= i < |left| => if i < |c| && c[i] > 0 && left[i] > 0 then c[i] else 0)
  }

  lemma HadIsUsable(c: seq<int>, left: seq<int>)
    requires forall i :: 0 <= i < |left| ==> left[i] >= 0
    ensures Usable(WeightsOf(left, Some(c)), left, Zeros(|left|)) == Had(c, left)
  {
  }

  /** A bucket the diner had nothing of is drawn on only once every bucket they had something of is empty. */
  lemma OthersWait(s: State, amount: nat, c: seq<int>, i: nat, j: nat)
    requires 0 < amount <= Outstanding(s) && i <= |s.groups| && j <= |s.groups|
    requires Had(c, LeftIn(s))[j] > 0 && (i >= |c| || c[i] <= 0)
    ensures |Declare(s, Payment(amount, Some(c))).invoice.groups| == |s.groups|
    ensures var got, left := DeclaredIn(Declare(s, Payment(amount, Some(c))).invoice), LeftIn(s);
            got[i] > 0 ==> got[j] == left[j]
  {
    hide Declare, Placed;
    var p, left := Payment(amount, Some(c)), LeftIn(s);
    DeclareBalances(s, p);
    DeclaredIsParts(s, p);
    WeighedFirst(amount, WeightsOf(left, Some(c)), left, i, j);
  }

  lemma HadIsWeights(c: seq<int>, left: seq<int>)
    requires Sum(Had(c, left)) > 0
    ensures Weights(Had(c, left))
  {
  }

  /** Where the exact shares fit, each bucket gives its share by the composition, within a céntimo. */
  lemma DrawnByComposition(s: State, amount: nat, c: seq<int>, i: nat)
    requires 0 < amount <= Outstanding(s) && i <= |s.groups| && Sum(Had(c, LeftIn(s))) > 0
    requires var left := LeftIn(s); var had := Had(c, left);
             forall k :: 0 <= k < |left| ==> amount * had[k] <= left[k] * Sum(had)
    ensures |Declare(s, Payment(amount, Some(c))).invoice.groups| == |s.groups|
    ensures var got, had := DeclaredIn(Declare(s, Payment(amount, Some(c))).invoice), Had(c, LeftIn(s));
            Abs(got[i] * Sum(had) - amount * had[i]) < Sum(had)
  {
    hide Declare, Placed, IsAllocation, Sum, WeightsOf, Usable;
    var p, left := Payment(amount, Some(c)), LeftIn(s);
    var had := Had(c, left);
    DeclareBalances(s, p);
    DeclaredIsParts(s, p);
    HadIsWeights(c, left);
    HadIsUsable(c, left);
    var given := Division(amount, had);
    DivisionAddsUp(amount, had);
    forall k | 0 <= k < |left| ensures 0 <= given[k] <= left[k] {
      WithinOneUnit(amount, had, given, k, Sum(had));
      NoMoreThanFits(amount, had[k], given[k], left[k], Sum(had));
    }
    PlainWhereItFits(amount, WeightsOf(left, Some(c)), left);
    ShareOfWhole(amount, had, i);
  }

  lemma NoMoreThanFits(amount: nat, w: int, part: int, cap: int, whole: int)
    requires whole > 0 && part * whole < amount * w + whole && amount * w <= cap * whole
    ensures part <= cap
  {
    Cancel(whole, part, cap + 1);
    assert (cap + 1) * whole == cap * whole + whole;
  }

  /** The rounds never take back. */
  lemma {:induction false} PourGrows(left: nat, usable: seq<int>, caps: seq<int>, parts: seq<int>, i: nat)
    requires Ready(left, usable, caps, parts) && i < |caps|
    ensures Pour(left, usable, caps, parts)[i] >= parts[i]
    decreases if left > 0 then 1 + Live(usable) else 0
  {
    hide IsAllocation, Weights;
    if left > 0 {
      Round(left, usable, caps, parts);
      var f := After(left, usable, caps, parts);
      var next := Usable(InRound(usable, caps, parts), caps, f);
      GivesAtLeast(left, InRound(usable, caps, parts), caps, parts, i);
      PourGrows(left + Sum(parts) - Sum(f), next, caps, f, i);
    }
  }

  lemma GivesAtLeast(left: nat, w: seq<int>, caps: seq<int>, parts: seq<int>, i: nat)
    requires Weights(w) && |w| == |caps| && Fits(parts, caps) && i < |caps|
    ensures Filled(parts, caps, Division(left, w))[i] >= parts[i]
  {
    WithinOneUnit(left, w, Division(left, w), i, Sum(w));
  }

  /** Whether the shares fit or not, a bucket the diner had something of gives all of its share, or all it has. */
  lemma GivesItsShareOrAll(s: State, amount: nat, c: seq<int>, i: nat)
    requires 0 < amount <= Outstanding(s) && i <= |s.groups| && Sum(Had(c, LeftIn(s))) > 0
    ensures |Declare(s, Payment(amount, Some(c))).invoice.groups| == |s.groups|
    ensures var got, left := DeclaredIn(Declare(s, Payment(amount, Some(c))).invoice), LeftIn(s);
            var had := Had(c, left);
            got[i] == left[i] || got[i] * Sum(had) > amount * had[i] - Sum(had)
  {
    hide Declare, Placed, IsAllocation, Sum, WeightsOf, Usable;
    var p, left := Payment(amount, Some(c)), LeftIn(s);
    var had := Had(c, left);
    DeclareBalances(s, p);
    DeclaredIsParts(s, p);
    HadIsWeights(c, left);
    HadIsUsable(c, left);
    FirstRoundGives(amount, WeightsOf(left, Some(c)), left, had, i);
  }

  lemma FirstRoundGives(amount: nat, weights: seq<int>, caps: seq<int>, had: seq<int>, i: nat)
    requires |weights| == |caps| && 0 < amount <= Sum(caps) && forall k :: 0 <= k < |caps| ==> caps[k] >= 0
    requires had == Usable(weights, caps, Zeros(|caps|)) && Weights(had) && i < |caps|
    ensures var got := Placed(amount, weights, caps);
            got[i] == caps[i] || got[i] * Sum(had) > amount * had[i] - Sum(had)
  {
    hide IsAllocation, Weights;
    StartReady(amount, weights, caps);
    var zeros := Zeros(|caps|);
    Round(amount, had, caps, zeros);
    var f := After(amount, had, caps, zeros);
    var next := Usable(InRound(had, caps, zeros), caps, f);
    WithinOneUnit(amount, had, Division(amount, had), i, Sum(had));
    PositiveWhole(had);
    PourGrows(amount + Sum(zeros) - Sum(f), next, caps, f, i);
    AtLeast(Placed(amount, weights, caps)[i], f[i], Sum(had));
  }

  lemma PositiveWhole(w: seq<int>)
    requires Weights(w)
    ensures Sum(w) > 0
  {
  }

  lemma AtLeast(a: int, b: int, whole: int)
    requires a >= b && whole > 0
    ensures a * whole >= b * whole
  {
  }

  /** How many rounds can still be played. */
  ghost function RoundsLeft(left: nat, usable: seq<int>): nat { if left > 0 then 1 + Live(usable) else 0 }

  /** How far two buckets are from holding money in the proportion of their weights. */
  ghost function Apart(a: int, b: int, wa: int, wb: int): int { Abs(a * wb - b * wa) }

  /** In one round two buckets that do not fill up are given money by their weights, each to the céntimo. */
  lemma RoundIsByWeight(left: nat, w: seq<int>, caps: seq<int>, parts: seq<int>, i: nat, j: nat)
    requires Weights(w) && |w| == |caps| && Fits(parts, caps) && i < |caps| && j < |caps|
    requires var f := Filled(parts, caps, Division(left, w)); f[i] < caps[i] && f[j] < caps[j]
    ensures var f := Filled(parts, caps, Division(left, w));
            Apart(f[i], f[j], w[i], w[j]) <= Apart(parts[i], parts[j], w[i], w[j]) + w[i] + w[j]
  {
    hide IsAllocation, Weights;
    var given := Division(left, w);
    DivisionAddsUp(left, w);
    PositiveWhole(w);
    WithinOneUnit(left, w, given, i, Sum(w));
    WithinOneUnit(left, w, given, j, Sum(w));
    WeightsAreNatural(w, i);
    WeightsAreNatural(w, j);
    OffByOneEach(left, w[i], w[j], given[i], given[j], Sum(w));
    AddedApart(parts[i], parts[j], given[i], given[j], w[i], w[j]);
  }

  lemma WeightsAreNatural(w: seq<int>, i: nat)
    requires Weights(w) && i < |w|
    ensures w[i] >= 0
  {
  }

  lemma OffByOneEach(left: int, wa: int, wb: int, a: int, b: int, whole: int)
    requires whole > 0 && wa >= 0 && wb >= 0
    requires left * wa - whole < a * whole < left * wa + whole
    requires left * wb - whole < b * whole < left * wb + whole
    ensures Abs(a * wb - b * wa) <= wa + wb
  {
    var x, y := a * whole - left * wa, b * whole - left * wb;
    CrossedDifference(left, wa, wb, a, b, whole, x, y);
    BoundedProduct(x, wb, whole);
    BoundedProduct(y, wa, whole);
    Times(wa, wb, whole);
    WithinWhole(a * wb - b * wa, wa + wb, whole, x * wb, y * wa);
  }

  lemma CrossedDifference(left: int, wa: int, wb: int, a: int, b: int, whole: int, x: int, y: int)
    requires a * whole == left * wa + x && b * whole == left * wb + y
    ensures (a * wb - b * wa) * whole == x * wb - y * wa
  {
    Crossed(a, wb, whole);
    Crossed(b, wa, whole);
    Crossed(left, wa, wb);
    Times(left * wa, x, wb);
    Times(left * wb, y, wa);
    Minus(a * wb, b * wa, whole);
  }

  lemma Minus(a: int, b: int, c: int)
    ensures (a - b) * c == a * c - b * c
  {
  }

  lemma Crossed(a: int, b: int, c: int)
    ensures (a * b) * c == (a * c) * b
  {
  }

  lemma Times(a: int, b: int, c: int)
    ensures (a + b) * c == a * c + b * c
  {
  }

  lemma BoundedProduct(x: int, w: int, whole: int)
    requires -whole < x < whole && w >= 0
    ensures -(w * whole) <= x * w <= w * whole
  {
  }

  lemma WithinWhole(d: int, w: int, whole: int, p: int, q: int)
    requires whole > 0 && d * whole == p - q && Abs(p) + Abs(q) <= w * whole
    ensures Abs(d) <= w
  {
    if d > w {
      Cancel(whole, w, d);
    }
    if -d > w {
      Cancel(whole, w, -d);
    }
  }

  lemma AddedApart(a: int, b: int, x: int, y: int, wa: int, wb: int)
    requires Abs(x * wb - y * wa) <= wa + wb
    ensures Apart(a + x, b + y, wa, wb) <= Apart(a, b, wa, wb) + wa + wb
  {
    assert (a + x) * wb - (b + y) * wa == (a * wb - b * wa) + (x * wb - y * wa);
  }

  ghost predicate BothOpen(r: seq<int>, caps: seq<int>, i: nat, j: nat)
    requires |r| == |caps| && i < |caps| && j < |caps|
  {
    r[i] < caps[i] && r[j] < caps[j]
  }

  /** The next round of two buckets that are still open when all is placed. */
  lemma RoundOfTwo(left: nat, usable: seq<int>, caps: seq<int>, parts: seq<int>, i: nat, j: nat)
    returns (over: nat, next: seq<int>, f: seq<int>)
    requires Ready(left, usable, caps, parts) && left > 0
    requires i < |caps| && j < |caps| && usable[i] > 0 && usable[j] > 0
    requires BothOpen(Pour(left, usable, caps, parts), caps, i, j)
    ensures Ready(over, next, caps, f) && Pour(left, usable, caps, parts) == Pour(over, next, caps, f)
    ensures next[i] == usable[i] && next[j] == usable[j]
    ensures (if over > 0 then 1 + Live(next) else 0) < 1 + Live(usable)
    ensures Apart(f[i], f[j], usable[i], usable[j])
         <= Apart(parts[i], parts[j], usable[i], usable[j]) + usable[i] + usable[j]
  {
    hide IsAllocation, Weights, Apart, Filled, Live, Pour, Ready;
    PourUnfolds(left, usable, caps, parts);
    InPlay(left, usable, caps, parts, i);
    DivisionAddsUp(left, usable);
    f := Filled(parts, caps, Division(left, usable));
    next, over := Usable(usable, caps, f), left + Sum(parts) - Sum(f);
    PourGrows(over, next, caps, f, i);
    PourGrows(over, next, caps, f, j);
    RoundIsByWeight(left, usable, caps, parts, i, j);
  }

  /** A round with a weighed bucket in it is by weight. */
  lemma InPlay(left: nat, usable: seq<int>, caps: seq<int>, parts: seq<int>, i: nat)
    requires Ready(left, usable, caps, parts) && i < |caps| && usable[i] > 0
    ensures InRound(usable, caps, parts) == usable && Fits(parts, caps)
  {
    SomeWeight(usable, i);
  }

  lemma {:induction false} PourIsByWeight(left: nat, usable: seq<int>, caps: seq<int>, parts: seq<int>, i: nat, j: nat)
    requires Ready(left, usable, caps, parts) && i < |caps| && j < |caps| && usable[i] > 0 && usable[j] > 0
    requires BothOpen(Pour(left, usable, caps, parts), caps, i, j)
    ensures var r := Pour(left, usable, caps, parts);
            Apart(r[i], r[j], usable[i], usable[j])
            <= Apart(parts[i], parts[j], usable[i], usable[j]) + RoundsLeft(left, usable) * (usable[i] + usable[j])
    decreases if left > 0 then 1 + Live(usable) else 0
  {
    hide Apart, Live, Pour, BothOpen;
    if left == 0 {
      NothingToPour(usable, caps, parts);
    } else {
      var over, next, f := RoundOfTwo(left, usable, caps, parts, i, j);
      PourIsByWeight(over, next, caps, f, i, j);
      OneRoundLess(RoundsLeft(over, next), RoundsLeft(left, usable), usable[i] + usable[j]);
    }
  }

  lemma NothingToPour(usable: seq<int>, caps: seq<int>, parts: seq<int>)
    requires Ready(0, usable, caps, parts)
    ensures Pour(0, usable, caps, parts) == parts
  {
  }

  lemma SomeWeight(usable: seq<int>, i: nat)
    requires i < |usable| && usable[i] > 0 && forall k :: 0 <= k < |usable| ==> usable[k] >= 0
    ensures Sum(usable) != 0
  {
    SumNonNegative(usable);
  }

  lemma OneRoundLess(now: nat, before: nat, w: nat)
    requires now < before
    ensures now * w + w <= before * w
  {
    assert (now + 1) * w == now * w + w;
    AtLeast(before, now + 1, if w > 0 then w else 1);
  }

  /**
   * Whatever other buckets refuse, two that the diner had something of, and that are
   * not emptied, are drawn on by the composition, within a céntimo of each a round.
   */
  lemma NeverMindTheFull(s: State, amount: nat, c: seq<int>, i: nat, j: nat)
    requires 0 < amount <= Outstanding(s) && i <= |s.groups| && j <= |s.groups|
    requires var had := Had(c, LeftIn(s)); had[i] > 0 && had[j] > 0
    ensures |Declare(s, Payment(amount, Some(c))).invoice.groups| == |s.groups|
    ensures var got, left := DeclaredIn(Declare(s, Payment(amount, Some(c))).invoice), LeftIn(s);
            var had := Had(c, left);
            got[i] < left[i] && got[j] < left[j] ==>
              Abs(got[i] * had[j] - got[j] * had[i]) <= (|left| + 1) * (had[i] + had[j])
  {
    hide Declare, Placed, IsAllocation, Sum, WeightsOf, Usable;
    var p, left := Payment(amount, Some(c)), LeftIn(s);
    DeclareBalances(s, p);
    DeclaredIsParts(s, p);
    HadIsUsable(c, left);
    PlacedByWeight(amount, WeightsOf(left, Some(c)), left, Had(c, left), i, j);
  }

  lemma PlacedByWeight(amount: nat, weights: seq<int>, caps: seq<int>, had: seq<int>, i: nat, j: nat)
    requires |weights| == |caps| && 0 < amount <= Sum(caps) && forall k :: 0 <= k < |caps| ==> caps[k] >= 0
    requires had == Usable(weights, caps, Zeros(|caps|)) && i < |caps| && j < |caps| && had[i] > 0 && had[j] > 0
    ensures var got := Placed(amount, weights, caps);
            got[i] < caps[i] && got[j] < caps[j] ==>
              Abs(got[i] * had[j] - got[j] * had[i]) <= (|caps| + 1) * (had[i] + had[j])
  {
    hide IsAllocation, Weights, Usable, Pour, Live;
    StartReady(amount, weights, caps);
    var got := Placed(amount, weights, caps);
    if got[i] < caps[i] && got[j] < caps[j] {
      PourIsByWeight(amount, had, caps, Zeros(|caps|), i, j);
      LiveShrinks(had, had);
      FewEnough(RoundsLeft(amount, had), |caps| + 1, had[i] + had[j]);
    }
  }

  lemma FewEnough(rounds: nat, most: nat, w: nat)
    requires rounds <= most
    ensures rounds * w <= most * w
  {
  }

  /** A composition of nothing that is left is no composition: what is left decides. */
  lemma NothingHadIsProportion(s: State, amount: nat, c: seq<int>, i: nat)
    requires 0 < amount <= Outstanding(s) && i <= |s.groups| && Sum(Had(c, LeftIn(s))) == 0
    ensures |Declare(s, Payment(amount, Some(c))).invoice.groups| == |s.groups|
    ensures var got, left := DeclaredIn(Declare(s, Payment(amount, Some(c))).invoice), LeftIn(s);
            Abs(got[i] * Outstanding(s) - amount * left[i]) < Outstanding(s)
  {
    hide Declare, Placed, IsAllocation, WeightsOf, Usable;
    var p, left := Payment(amount, Some(c)), LeftIn(s);
    DeclareBalances(s, p);
    DeclaredIsParts(s, p);
    HadIsUsable(c, left);
    NobodyWeighed(amount, WeightsOf(left, Some(c)), left);
    ShareOfWhole(amount, left, i);
  }

  lemma NobodyWeighed(amount: nat, weights: seq<int>, caps: seq<int>)
    requires |weights| == |caps| && 0 < amount <= Sum(caps) && forall k :: 0 <= k < |caps| ==> caps[k] >= 0
    requires Sum(Usable(weights, caps, Zeros(|caps|))) == 0
    ensures Weights(caps) && Placed(amount, weights, caps) == Division(amount, caps)
  {
    hide IsAllocation, Usable, Filled;
    var zeros, usable := Zeros(|caps|), Usable(weights, caps, Zeros(|caps|));
    StartReady(amount, weights, caps);
    Round(amount, usable, caps, zeros);
    assert Room(caps, zeros) == caps;
    AllFits(amount, caps);
    DivisionAddsUp(amount, caps);
    PourUnfolds(amount, usable, caps, zeros);
  }

  lemma AllFits(amount: nat, caps: seq<int>)
    requires Weights(caps) && amount <= Sum(caps)
    ensures Filled(Zeros(|caps|), caps, Division(amount, caps)) == Division(amount, caps)
  {
    hide IsAllocation, Weights, Sum;
    DivisionAddsUp(amount, caps);
    forall i | 0 <= i < |caps| ensures 0 <= Division(amount, caps)[i] <= caps[i] {
      NeverAboveWeight(amount, caps, Division(amount, caps), i);
    }
  }

  // ---- Base and tax within a rate ------------------------------------------

  /** What an invoice takes of a rate is base and tax as they are left in it, each to the nearest céntimo. */
  lemma BaseAndTaxInProportion(s: State, p: Payment, i: nat)
    requires p.amount <= Outstanding(s) && i < |s.groups|
    ensures |Declare(s, p).invoice.groups| == |s.groups|
    ensures var g, inv := s.groups[i], Declare(s, p).invoice.groups[i];
            2 * Abs(inv.vat * (g.base + g.vat) - (inv.base + inv.vat) * g.vat) <= g.base + g.vat
  {
    hide Placed, IsAllocation, Sum;
    var parts := PartsOf(s, p);
    assert parts[i] <= Worth(s.groups[i]);
    SliceInProportion(s.groups[i], parts[i]);
  }

  lemma SliceInProportion(g: Group, share: nat)
    requires share <= Worth(g)
    ensures var s := Slice(g, share); 2 * Abs(s.vat * Worth(g) - Worth(s) * g.vat) <= Worth(g)
  {
    hide IsAllocation, Weights;
    if share > 0 && g.base > 0 && g.vat > 0 {
      SliceFits(share, g.base, g.vat);
      TwoWeights(g.base, g.vat);
      NearestOfTwo(share, g.base, g.vat, Division(share, [g.base, g.vat]));
    }
  }
}
