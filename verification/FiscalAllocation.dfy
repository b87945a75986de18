/**
 * One bill declared in several invoices (src/services/fiscalAllocation.js).
 *
 * Each payment takes a slice of every bucket that is still undeclared. The
 * methods are the source's loops; `Declared` is what one payment does, and the
 * lemmas follow any number of payments, in any order and of any size.
 */
module FiscalAllocation {
  import opened Wrappers
  import opened LargestRemainder
  import opened Apportion
  import opened Money
  import BillState

  /** One VAT rate: its base and its tax, both still to be declared. */
  datatype Group = Group(vatBps: nat, base: nat, vat: nat)
  datatype State = State(groups: seq<Group>, service: nat)
  datatype Invoice = Invoice(groups: seq<Group>, service: nat, total: nat)
  datatype PaymentError = Negative | ExceedsOutstanding

  function Worth(g: Group): nat { g.base + g.vat }

  /** One bucket per rate, and the service charge last. */
  ghost function Buckets(groups: seq<Group>, service: nat): (b: seq<int>)
    ensures |b| == |groups| + 1 && b[|groups|] == service
    ensures forall i :: 0 <= i < |groups| ==> b[i] == Worth(groups[i])
  {
    seq(|groups|, i requires 0 <= i < |groups| => Worth(groups[i])) + [service]
  }

  ghost function Outstanding(s: State): int { Sum(Buckets(s.groups, s.service)) }

  // ---- Pouring an amount into buckets that can fill up ---------------------

  /** The weights of the buckets that still have room; the rest are out of the round. */
  function Usable(weights: seq<int>, caps: seq<int>, parts: seq<int>): (u: seq<int>)
    requires |weights| == |caps| == |parts|
    ensures |u| == |caps|
    ensures forall i :: 0 <= i < |u| ==> u[i] == if weights[i] > 0 && parts[i] < caps[i] then weights[i] else 0
  {
    seq(|caps|, i requires 0 <= i < |caps| => if weights[i] > 0 && parts[i] < caps[i] then weights[i] else 0)
  }

  function Room(caps: seq<int>, parts: seq<int>): (r: seq<int>)
    requires |caps| == |parts|
    ensures |r| == |caps| && forall i :: 0 <= i < |r| ==> r[i] == caps[i] - parts[i]
  {
    seq(|caps|, i requires 0 <= i < |caps| => caps[i] - parts[i])
  }

  function Zeros(n: nat): (z: seq<int>)
    ensures |z| == n && forall i :: 0 <= i < n ==> z[i] == 0
  {
    seq(n, _ => 0)
  }

  ghost predicate Fits(parts: seq<int>, caps: seq<int>) {
    |parts| == |caps| && forall i :: 0 <= i < |caps| ==> 0 <= parts[i] <= caps[i]
  }

  function Min(a: int, b: int): int { if a < b then a else b }

  /** What the buckets hold after a round in which each was offered `wanted`. */
  function Filled(was: seq<int>, caps: seq<int>, wanted: seq<int>): (f: seq<int>)
    requires |was| == |caps| == |wanted|
    ensures |f| == |caps| && forall i :: 0 <= i < |f| ==> f[i] == Min(caps[i], was[i] + wanted[i])
  {
    seq(|caps|, i requires 0 <= i < |caps| => Min(caps[i], was[i] + wanted[i]))
  }

  /** How many buckets are still in the round. */
  ghost function Live(u: seq<int>): nat {
    if u == [] then 0 else Live(u[..|u| - 1]) + if u[|u| - 1] > 0 then 1 else 0
  }

  lemma {:induction false} LiveShrinks(u: seq<int>, v: seq<int>)
    requires |u| == |v| && forall i :: 0 <= i < |u| ==> v[i] > 0 ==> u[i] > 0
    ensures Live(v) <= Live(u) <= |u|
    ensures (exists i :: 0 <= i < |u| && u[i] > 0 && v[i] <= 0) ==> Live(v) < Live(u)
  {
    if u != [] {
      LiveShrinks(u[..|u| - 1], v[..|u| - 1]);
    }
  }

  /** Some bucket is offered more than it has room for. */
  ghost predicate Refused(was: seq<int>, caps: seq<int>, wanted: seq<int>)
    requires |was| == |caps| == |wanted|
  {
    exists i :: 0 <= i < |caps| && was[i] + wanted[i] > caps[i]
  }

  /** A round leaves an overflow exactly when some bucket refused part of its offer. */
  lemma {:induction false} RoundFills(was: seq<int>, caps: seq<int>, wanted: seq<int>)
    requires |was| == |caps| == |wanted|
    ensures Sum(Filled(was, caps, wanted)) <= Sum(was) + Sum(wanted)
    ensures Sum(Filled(was, caps, wanted)) < Sum(was) + Sum(wanted) <==> Refused(was, caps, wanted)
  {
    if caps != [] {
      var n := |caps| - 1;
      RoundFills(was[..n], caps[..n], wanted[..n]);
      assert Filled(was, caps, wanted)[..n] == Filled(was[..n], caps[..n], wanted[..n]);
      assert Refused(was, caps, wanted) <==> Refused(was[..n], caps[..n], wanted[..n]) || was[n] + wanted[n] > caps[n];
    }
  }

  /** One round: each bucket takes what it was given, up to its room; the rest overflows. */
  method PourRound(was: seq<int>, caps: seq<int>, wanted: seq<int>) returns (parts: seq<int>, overflow: int)
    requires |was| == |caps| == |wanted|
    ensures parts == Filled(was, caps, wanted)
    ensures overflow == Sum(was) + Sum(wanted) - Sum(parts)
  {
    parts, overflow := [], 0;
    for i := 0 to |caps|
      invariant |parts| == i
      invariant forall k :: 0 <= k < i ==> parts[k] == Min(caps[k], was[k] + wanted[k])
      invariant Sum(parts) + overflow == Sum(was[..i]) + Sum(wanted[..i])
    {
      var room := caps[i] - was[i];
      var give := Min(wanted[i], room);
      SumPush(parts, was[i] + give);
      PrefixSum(was, i);
      PrefixSum(wanted, i);
      parts := parts + [was[i] + give];
      overflow := overflow + (wanted[i] - give);
    }
    assert was[..|was|] == was && wanted[..|wanted|] == wanted;
  }

  lemma PrefixSum(s: seq<int>, i: nat)
    requires i < |s|
    ensures Sum(s[..i + 1]) == Sum(s[..i]) + s[i]
  {
    assert s[..i + 1] == s[..i] + [s[i]];
    SumPush(s[..i], s[i]);
  }

  /** A round may be played: what is left fits, and every bucket still in the round has room. */
  ghost predicate Ready(left: int, usable: seq<int>, caps: seq<int>, parts: seq<int>) {
    && |usable| == |caps|
    && Fits(parts, caps)
    && left >= 0 && Sum(parts) + left <= Sum(caps)
    && forall i :: 0 <= i < |caps| ==> usable[i] == 0 || (usable[i] > 0 && parts[i] < caps[i])
  }

  lemma {:induction false} NoneLive(u: seq<int>)
    requires forall i :: 0 <= i < |u| ==> u[i] >= 0
    ensures Sum(u) >= 0 && (Sum(u) == 0 <==> Live(u) == 0)
    ensures Sum(u) == 0 ==> forall i :: 0 <= i < |u| ==> u[i] == 0
  {
    if u != [] {
      NoneLive(u[..|u| - 1]);
    }
  }

  /** A round of the weighed: it stays within the caps, and if money is left over, fewer buckets play on. */
  lemma RoundStep(left: nat, usable: seq<int>, caps: seq<int>, parts: seq<int>)
    requires Ready(left, usable, caps, parts) && Sum(usable) > 0
    ensures Weights(usable)
    ensures var f := Filled(parts, caps, Division(left, usable));
            Ready(left + Sum(parts) - Sum(f), Usable(usable, caps, f), caps, f)
            && (left + Sum(parts) > Sum(f) ==> Live(Usable(usable, caps, f)) < Live(usable))
            && forall i :: 0 <= i < |caps| && usable[i] == 0 ==> f[i] == parts[i]
  {
    assert Weights(usable);
    var given := Division(left, usable);
    forall i | 0 <= i < |caps| ensures given[i] >= 0 && (usable[i] == 0 ==> given[i] == 0) {
      GivenBounds(left, usable, i);
    }
    var f := Filled(parts, caps, given);
    RoundFills(parts, caps, given);
    LiveShrinks(usable, Usable(usable, caps, f));
    if Sum(f) < left + Sum(parts) {
      var i :| 0 <= i < |caps| && parts[i] + given[i] > caps[i];
      assert usable[i] > 0 && Usable(usable, caps, f)[i] == 0;
    }
  }

  /** Nobody weighed has room: what is left is divided over the room there is, which places all of it. */
  lemma RoomTakesAll(left: nat, caps: seq<int>, parts: seq<int>)
    requires Fits(parts, caps) && 0 < left && Sum(parts) + left <= Sum(caps)
    ensures Weights(Room(caps, parts))
    ensures var f := Filled(parts, caps, Division(left, Room(caps, parts)));
            Fits(f, caps) && Sum(f) == Sum(parts) + left
  {
    SumOfRoom(caps, parts);
    var room := Room(caps, parts);
    var given := Division(left, room);
    forall i | 0 <= i < |caps| ensures 0 <= given[i] <= room[i] {
      NeverAboveWeight(left, room, given, i);
    }
    RoundFills(parts, caps, given);
  }

  lemma {:induction false} SumOfRoom(caps: seq<int>, parts: seq<int>)
    requires |caps| == |parts|
    ensures Sum(Room(caps, parts)) == Sum(caps) - Sum(parts)
  {
    if caps != [] {
      var n := |caps| - 1;
      SumOfRoom(caps[..n], parts[..n]);
      assert Room(caps, parts)[..n] == Room(caps[..n], parts[..n]);
    }
  }

  /** The weights a round divides by: those asked for, or the room there is once none of them has any. */
  ghost function InRound(usable: seq<int>, caps: seq<int>, parts: seq<int>): (w: seq<int>)
    requires |usable| == |caps| == |parts|
    ensures |w| == |caps|
  {
    if Sum(usable) == 0 then Room(caps, parts) else usable
  }

  /** A round divides what is left by weight and cuts each bucket at its cap. */
  ghost function After(left: nat, usable: seq<int>, caps: seq<int>, parts: seq<int>): (f: seq<int>)
    requires |usable| == |caps| == |parts| && Weights(InRound(usable, caps, parts))
  {
    Filled(parts, caps, Division(left, InRound(usable, caps, parts)))
  }

  ghost predicate Progress(usable: seq<int>, over: int, next: seq<int>) {
    && over >= 0
    && (over > 0 ==> Live(next) < Live(usable))
  }

  /** Only a round by weight can leave money over, and then with fewer buckets in play. */
  lemma Round(left: nat, usable: seq<int>, caps: seq<int>, parts: seq<int>)
    requires Ready(left, usable, caps, parts) && left > 0
    ensures Weights(InRound(usable, caps, parts))
    ensures var f := After(left, usable, caps, parts);
            var next, over := Usable(InRound(usable, caps, parts), caps, f), left + Sum(parts) - Sum(f);
            Ready(over, next, caps, f) && Progress(usable, over, next)
  {
    NoneLive(usable);
    if Sum(usable) == 0 {
      RoomTakesAll(left, caps, parts);
    } else {
      RoundStep(left, usable, caps, parts);
    }
  }

  /** The rounds, as a value: whatever one round's buckets refuse goes on to the next. */
  ghost function Pour(left: nat, usable: seq<int>, caps: seq<int>, parts: seq<int>): (r: seq<int>)
    requires Ready(left, usable, caps, parts)
    ensures Fits(r, caps) && Sum(r) == Sum(parts) + left
    decreases if left > 0 then 1 + Live(usable) else 0
  {
    if left == 0 then parts
    else
      Round(left, usable, caps, parts);
      var f := After(left, usable, caps, parts);
      Pour(left + Sum(parts) - Sum(f), Usable(InRound(usable, caps, parts), caps, f), caps, f)
  }

  lemma StartReady(amount: nat, weights: seq<int>, caps: seq<int>)
    requires |weights| == |caps| && amount <= Sum(caps) && forall i :: 0 <= i < |caps| ==> caps[i] >= 0
    ensures Ready(amount, Usable(weights, caps, Zeros(|caps|)), caps, Zeros(|caps|))
    ensures Sum(Zeros(|caps|)) == 0
  {
    SumConstant(Zeros(|caps|), 0);
  }

  /** Where an amount goes when each bucket has a weight and a cap. */
  ghost function Placed(amount: nat, weights: seq<int>, caps: seq<int>): (r: seq<int>)
    requires |weights| == |caps| && amount <= Sum(caps) && forall i :: 0 <= i < |caps| ==> caps[i] >= 0
    ensures Fits(r, caps) && Sum(r) == amount
  {
    StartReady(amount, weights, caps);
    Pour(amount, Usable(weights, caps, Zeros(|caps|)), caps, Zeros(|caps|))
  }

  /** Money reaches a bucket nobody weighed only once every weighed bucket is full. */
  lemma WeighedFirst(amount: nat, weights: seq<int>, caps: seq<int>, i: nat, j: nat)
    requires |weights| == |caps| && amount <= Sum(caps) && forall k :: 0 <= k < |caps| ==> caps[k] >= 0
    requires i < |caps| && j < |caps| && weights[i] <= 0 < weights[j]
    ensures Placed(amount, weights, caps)[i] > 0 ==> Placed(amount, weights, caps)[j] == caps[j]
  {
    StartReady(amount, weights, caps);
    WeighedFirstFrom(amount, Usable(weights, caps, Zeros(|caps|)), caps, Zeros(|caps|), i, j);
  }

  /** Bucket `i` is unweighed and empty, and bucket `j` still takes money or is full. */
  ghost predicate WaitsFor(i: nat, j: nat, usable: seq<int>, caps: seq<int>, parts: seq<int>)
    requires |usable| == |caps| == |parts| && i < |caps| && j < |caps|
  {
    usable[i] == 0 && parts[i] == 0 && (usable[j] > 0 || parts[j] == caps[j])
  }

  lemma StillWaits(left: nat, usable: seq<int>, caps: seq<int>, parts: seq<int>, i: nat, j: nat)
    requires Ready(left, usable, caps, parts) && left > 0 && i < |caps| && j < |caps|
    requires Weights(InRound(usable, caps, parts)) && WaitsFor(i, j, usable, caps, parts)
    ensures var f := After(left, usable, caps, parts);
            Sum(usable) > 0 ==> WaitsFor(i, j, Usable(InRound(usable, caps, parts), caps, f), caps, f)
    ensures Sum(usable) == 0 ==> After(left, usable, caps, parts)[j] == caps[j]
  {
    hide IsAllocation, Weights;
    NoneLive(usable);
    GivenBounds(left, InRound(usable, caps, parts), i);
    GivenBounds(left, InRound(usable, caps, parts), j);
  }

  lemma GivenBounds(total: nat, w: seq<int>, i: nat)
    requires Weights(w) && i < |w|
    ensures |Division(total, w)| == |w| && Division(total, w)[i] >= 0
    ensures w[i] == 0 ==> Division(total, w)[i] == 0
  {
    WithinOneUnit(total, w, Division(total, w), i, Sum(w));
    if w[i] == 0 {
      NoWeightNoPart(total, w, Division(total, w), i);
    }
  }

  lemma PourUnfolds(left: nat, usable: seq<int>, caps: seq<int>, parts: seq<int>)
    requires Ready(left, usable, caps, parts) && left > 0
    ensures Weights(InRound(usable, caps, parts))
    ensures var f := After(left, usable, caps, parts);
            var next, over := Usable(InRound(usable, caps, parts), caps, f), left + Sum(parts) - Sum(f);
            Ready(over, next, caps, f) && Progress(usable, over, next)
            && Pour(left, usable, caps, parts) == Pour(over, next, caps, f)
            && (over == 0 ==> Pour(left, usable, caps, parts) == f)
  {
    hide IsAllocation, Weights, InRound, After, Usable;
    Round(left, usable, caps, parts);
  }

  lemma {:induction false} WeighedFirstFrom(left: nat, usable: seq<int>, caps: seq<int>, parts: seq<int>, i: nat,
                                            j: nat)
    requires Ready(left, usable, caps, parts) && i < |caps| && j < |caps|
    requires WaitsFor(i, j, usable, caps, parts)
    ensures Pour(left, usable, caps, parts)[i] > 0 ==> Pour(left, usable, caps, parts)[j] == caps[j]
    decreases if left > 0 then 1 + Live(usable) else 0
  {
    hide InRound, After, Usable, IsAllocation, Weights;
    if left > 0 {
      NoneLive(usable);
      PourUnfolds(left, usable, caps, parts);
      StillWaits(left, usable, caps, parts, i, j);
      var f := After(left, usable, caps, parts);
      var next := Usable(InRound(usable, caps, parts), caps, f);
      if left + Sum(parts) > Sum(f) {
        WeighedFirstFrom(left + Sum(parts) - Sum(f), next, caps, f, i, j);
      }
    }
  }

  /** The plain division by weight, where it fits, is the answer. */
  lemma PlainWhereItFits(amount: nat, weights: seq<int>, caps: seq<int>)
    requires |weights| == |caps| && 0 < amount <= Sum(caps) && forall k :: 0 <= k < |caps| ==> caps[k] >= 0
    requires Weights(Usable(weights, caps, Zeros(|caps|)))
    requires Fits(Division(amount, Usable(weights, caps, Zeros(|caps|))), caps)
    ensures Placed(amount, weights, caps) == Division(amount, Usable(weights, caps, Zeros(|caps|)))
  {
    StartReady(amount, weights, caps);
    FirstRoundEnds(amount, Usable(weights, caps, Zeros(|caps|)), caps);
  }

  lemma FirstRoundEnds(amount: nat, usable: seq<int>, caps: seq<int>)
    requires Ready(amount, usable, caps, Zeros(|caps|)) && 0 < amount && Weights(usable) && Sum(Zeros(|caps|)) == 0
    requires Fits(Division(amount, usable), caps)
    ensures Pour(amount, usable, caps, Zeros(|caps|)) == Division(amount, usable)
  {
    hide IsAllocation;
    var zeros, given := Zeros(|caps|), Division(amount, usable);
    DivisionAddsUp(amount, usable);
    assert Filled(zeros, caps, given) == given;
    hide Filled;
    PourUnfolds(amount, usable, caps, zeros);
    assert After(amount, usable, caps, zeros) == given;
  }

  lemma DivisionAddsUp(total: nat, w: seq<int>)
    requires Weights(w)
    ensures Sum(Division(total, w)) == total && |Division(total, w)| == |w|
  {
  }

  /** With what is left as its own weight nothing overflows: one round places every céntimo. */
  lemma ProportionalIsPlain(amount: nat, caps: seq<int>)
    requires 0 < amount <= Sum(caps) && forall k :: 0 <= k < |caps| ==> caps[k] >= 0
    ensures Weights(caps) && Placed(amount, caps, caps) == Division(amount, caps)
  {
    assert Usable(caps, caps, Zeros(|caps|)) == caps;
    forall i | 0 <= i < |caps| ensures 0 <= Division(amount, caps)[i] <= caps[i] {
      NeverAboveWeight(amount, caps, Division(amount, caps), i);
    }
    PlainWhereItFits(amount, caps, caps);
  }

  /**
   * `allocateCapped`. The source throws if the rounds outnumber the buckets by
   * more than two, or if nothing has room; neither throw can be reached.
   */
  method AllocateCapped(amount: nat, initialWeights: seq<int>, caps: seq<int>) returns (parts: seq<int>)
    requires |initialWeights| == |caps| && forall i :: 0 <= i < |caps| ==> caps[i] >= 0
    requires amount <= Sum(caps)
    ensures parts == Placed(amount, initialWeights, caps)
  {
    StartReady(amount, initialWeights, caps);
    parts := Zeros(|caps|);
    var remaining: nat := amount;
    var usable := Usable(initialWeights, caps, parts);
    var guard := 0;
    LiveShrinks(usable, usable);
    while remaining > 0
      invariant Ready(remaining, usable, caps, parts)
      invariant Pour(remaining, usable, caps, parts) == Placed(amount, initialWeights, caps)
      invariant remaining > 0 ==> guard + Live(usable) <= |caps|
      decreases if remaining > 0 then 1 + Live(usable) else 0
    {
      guard := guard + 1;
      if guard > |caps| + 2 {
        assert false;
      }
      parts, remaining, usable := PlayRound(remaining, usable, caps, parts);
    }
  }

  /** The loop's body: fall back to the room there is if need be, divide, cut at the caps. */
  method PlayRound(left: nat, usable: seq<int>, caps: seq<int>, was: seq<int>)
    returns (parts: seq<int>, overflow: nat, next: seq<int>)
    requires Ready(left, usable, caps, was) && left > 0
    ensures Ready(overflow, next, caps, parts) && Progress(usable, overflow, next)
    ensures Pour(left, usable, caps, was) == Pour(overflow, next, caps, parts)
  {
    hide IsAllocation;
    Round(left, usable, caps, was);
    var weights := if Sum(usable) == 0 then Room(caps, was) else usable;
    parts, overflow := DivideAndCut(left, weights, caps, was);
    next := Usable(weights, caps, parts);
  }

  method DivideAndCut(left: nat, weights: seq<int>, caps: seq<int>, was: seq<int>)
    returns (parts: seq<int>, overflow: int)
    requires |weights| == |caps| == |was| && Weights(weights)
    ensures parts == Filled(was, caps, Division(left, weights))
    ensures overflow == left + Sum(was) - Sum(parts)
  {
    assert Clamp(weights) == weights;
    var wanted := AmongPositive(left, weights);
    assert Sum(wanted) == left;
    parts, overflow := PourRound(was, caps, wanted);
  }
  // ---- One payment ---------------------------------------------------------

  lemma SliceFits(share: nat, base: nat, vat: nat)
    requires base > 0 && vat > 0 && share <= base + vat
    ensures Weights([base, vat])
    ensures var d := Division(share, [base, vat]);
            |d| == 2 && 0 <= d[0] <= base && 0 <= d[1] <= vat && d[0] + d[1] == share
  {
    TwoWeights(base, vat);
    var d := Division(share, [base, vat]);
    SumOfTwo(d);
    NeverAboveWeight(share, [base, vat], d, 0);
    NeverAboveWeight(share, [base, vat], d, 1);
  }

  lemma SumOfTwo(s: seq<int>)
    requires |s| == 2
    ensures Sum(s) == s[0] + s[1]
  {
    assert s == [s[0]] + [s[1]];
    SumPush([s[0]], s[1]);
    SumPush([], s[0]);
    assert [] + [s[0]] == [s[0]];
  }

  lemma TwoWeights(a: nat, b: nat)
    requires a + b > 0
    ensures Weights([a, b]) && Sum([a, b]) == a + b
  {
    SumOfTwo([a, b]);
  }

  /** What an invoice declares of a group when it takes `share` of it. */
  ghost function Slice(g: Group, share: nat): (s: Group)
    requires share <= Worth(g)
    ensures Worth(s) == share && s.base <= g.base && s.vat <= g.vat && s.vatBps == g.vatBps
  {
    if share == 0 then Group(g.vatBps, 0, 0)
    else if g.base > 0 && g.vat > 0 then
      SliceFits(share, g.base, g.vat);
      var d := Division(share, [g.base, g.vat]);
      Group(g.vatBps, d[0], d[1])
    else if g.vat > 0 then Group(g.vatBps, 0, share)
    else Group(g.vatBps, share, 0)
  }

  function Without(g: Group, s: Group): Group
    requires s.base <= g.base && s.vat <= g.vat
  {
    Group(g.vatBps, g.base - s.base, g.vat - s.vat)
  }

  /** What a diner asks for: an amount, and what they had if that is known. */
  datatype Payment = Payment(amount: nat, composition: Option<seq<int>>)
  datatype Declared = Declared(invoice: Invoice, rest: State)

  /** With no composition, what is left is its own weight; a composition that is too short counts as zeros. */
  function WeightsOf(buckets: seq<int>, composition: Option<seq<int>>): (w: seq<int>)
    ensures |w| == |buckets|
  {
    match composition
    case None => buckets
    case Some(c) => seq(|buckets|, i => if 0 <= i < |c| then c[i] else 0)
  }

  ghost function PartsOf(s: State, p: Payment): (parts: seq<int>)
    requires p.amount <= Outstanding(s)
    ensures Fits(parts, Buckets(s.groups, s.service)) && Sum(parts) == p.amount
  {
    var buckets := Buckets(s.groups, s.service);
    Placed(p.amount, WeightsOf(buckets, p.composition), buckets)
  }

  ghost function Slices(groups: seq<Group>, parts: seq<int>): (r: seq<Group>)
    requires |parts| >= |groups| && forall i :: 0 <= i < |groups| ==> 0 <= parts[i] <= Worth(groups[i])
    ensures |r| == |groups| && forall i :: 0 <= i < |r| ==> r[i] == Slice(groups[i], parts[i])
  {
    seq(|groups|, i requires 0 <= i < |groups| => Slice(groups[i], parts[i]))
  }

  ghost function Remaining(groups: seq<Group>, parts: seq<int>): (r: seq<Group>)
    requires |parts| >= |groups| && forall i :: 0 <= i < |groups| ==> 0 <= parts[i] <= Worth(groups[i])
    ensures |r| == |groups|
    ensures forall i :: 0 <= i < |r| ==> r[i] == Without(groups[i], Slice(groups[i], parts[i]))
  {
    seq(|groups|, i requires 0 <= i < |groups| => Without(groups[i], Slice(groups[i], parts[i])))
  }

  /** The invoice of one payment, and what it leaves to declare. */
  ghost function Declare(s: State, p: Payment): (d: Declared)
    requires p.amount <= Outstanding(s)
  {
    var parts := PartsOf(s, p);
    Declared(Invoice(Slices(s.groups, parts), parts[|s.groups|], p.amount),
             State(Remaining(s.groups, parts), s.service - parts[|s.groups|]))
  }

  /** The books of one payment: every bucket splits in two, and the invoice adds up to what was paid. */
  ghost predicate Balanced(s: State, d: Declared, amount: nat) {
    && |d.invoice.groups| == |d.rest.groups| == |s.groups|
    && (forall i :: 0 <= i < |s.groups| ==> SplitsInTwo(s.groups[i], d.invoice.groups[i], d.rest.groups[i]))
    && d.invoice.service + d.rest.service == s.service
    && d.invoice.total == amount == Sum(Buckets(d.invoice.groups, d.invoice.service))
  }

  predicate SplitsInTwo(g: Group, a: Group, b: Group) {
    a.vatBps == b.vatBps == g.vatBps && a.base + b.base == g.base && a.vat + b.vat == g.vat
  }

  /** What slices are worth, and what the rest is worth, is the parts and the room they leave. */
  lemma SlicesBalance(s: State, parts: seq<int>)
    requires Fits(parts, Buckets(s.groups, s.service))
    ensures Buckets(Slices(s.groups, parts), parts[|s.groups|]) == parts
    ensures Buckets(Remaining(s.groups, parts), s.service - parts[|s.groups|])
         == Room(Buckets(s.groups, s.service), parts)
  {
    var n, buckets := |s.groups|, Buckets(s.groups, s.service);
    forall i | 0 <= i <= n
      ensures Buckets(Slices(s.groups, parts), parts[n])[i] == parts[i]
      ensures Buckets(Remaining(s.groups, parts), s.service - parts[n])[i] == Room(buckets, parts)[i]
    {
    }
  }

  lemma DeclareBalances(s: State, p: Payment)
    requires p.amount <= Outstanding(s)
    ensures Balanced(s, Declare(s, p), p.amount)
    ensures Outstanding(Declare(s, p).rest) == Outstanding(s) - p.amount
  {
    hide Sum, Placed, Slice;
    var parts := PartsOf(s, p);
    SlicesBalance(s, parts);
    SumOfRoom(Buckets(s.groups, s.service), parts);
  }

  method OutstandingOf(s: State) returns (total: nat)
    ensures total == Outstanding(s)
  {
    total := 0;
    ghost var buckets := Buckets(s.groups, s.service);
    for i := 0 to |s.groups|
      invariant total == Sum(buckets[..i])
    {
      PrefixSum(buckets, i);
      total := total + (s.groups[i].base + s.groups[i].vat);
    }
    PrefixSum(buckets, |s.groups|);
    assert buckets[..|buckets|] == buckets;
    total := total + s.service;
  }

  /** Splits one group's part into base and tax. */
  method SplitGroup(g: Group, share: nat) returns (s: Group)
    requires share <= Worth(g)
    ensures s == Slice(g, share)
  {
    var base, vat := 0, 0;
    if share > 0 {
      if g.base > 0 && g.vat > 0 {
        SliceFits(share, g.base, g.vat);
        var d := Allocate(share, [g.base, g.vat]);
        Unique(share, [g.base, g.vat], d.value, Division(share, [g.base, g.vat]));
        base, vat := d.value[0], d.value[1];
      } else if g.vat > 0 {
        vat := share;
      } else {
        base := share;
      }
    }
    s := Group(g.vatBps, base, vat);
  }

  lemma NothingPaid(s: State, composition: Option<seq<int>>)
    requires 0 <= Outstanding(s)
    ensures PartsOf(s, Payment(0, composition)) == Zeros(|s.groups| + 1)
    ensures Declare(s, Payment(0, composition)).rest == s
  {
    var p := Payment(0, composition);
    assert PartsOf(s, p) == Zeros(|s.groups| + 1);
    assert Declare(s, p).rest.groups == s.groups;
  }

  /** `allocatePayment`. */
  method AllocatePayment(s: State, amount: int, composition: Option<seq<int>>)
    returns (r: Result<Declared, PaymentError>)
    ensures amount < 0 ==> r == Failure(Negative)
    ensures amount >= 0 && amount > Outstanding(s) ==> r == Failure(ExceedsOutstanding)
    ensures 0 <= amount <= Outstanding(s) ==> r == Success(Declare(s, Payment(amount, composition)))
  {
    hide Sum, Placed, Slice;
    var outstanding := OutstandingOf(s);
    if amount < 0 { return Failure(Negative); }
    if amount > outstanding { return Failure(ExceedsOutstanding); }
    ghost var d := Declare(s, Payment(amount, composition));
    if amount == 0 {
      NothingPaid(s, composition);
      var empty := seq(|s.groups|, i requires 0 <= i < |s.groups| => Group(s.groups[i].vatBps, 0, 0));
      assert empty == d.invoice.groups;
      return Success(Declared(Invoice(empty, 0, 0), s));
    }
    var buckets := seq(|s.groups|, i requires 0 <= i < |s.groups| => s.groups[i].base + s.groups[i].vat) + [s.service];
    assert buckets == Buckets(s.groups, s.service);
    var parts := AllocateCapped(amount, WeightsOf(buckets, composition), buckets);
    var groups, remaining := SplitGroups(s.groups, parts);
    r := Success(Declared(Invoice(groups, parts[|s.groups|], amount), State(remaining, s.service - parts[|s.groups|])));
  }

  method SplitGroups(groups: seq<Group>, parts: seq<int>) returns (slices: seq<Group>, remaining: seq<Group>)
    requires |parts| >= |groups| && forall i :: 0 <= i < |groups| ==> 0 <= parts[i] <= Worth(groups[i])
    ensures slices == Slices(groups, parts) && remaining == Remaining(groups, parts)
  {
    slices, remaining := [], [];
    for i := 0 to |groups|
      invariant slices == Slices(groups, parts)[..i]
      invariant remaining == Remaining(groups, parts)[..i]
    {
      var slice := SplitGroup(groups[i], parts[i]);
      slices := slices + [slice];
      remaining := remaining + [Without(groups[i], slice)];
    }
  }

  // ---- A whole bill, payment by payment ------------------------------------

  ghost predicate Payable(s: State, ps: seq<Payment>)
    decreases |ps|
  {
    ps == [] || (ps[0].amount <= Outstanding(s) && Payable(Declare(s, ps[0]).rest, ps[1..]))
  }

  ghost function Issued(s: State, ps: seq<Payment>): (r: seq<Invoice>)
    requires Payable(s, ps)
    ensures |r| == |ps|
    decreases |ps|
  {
    if ps == [] then [] else [Declare(s, ps[0]).invoice] + Issued(Declare(s, ps[0]).rest, ps[1..])
  }

  ghost function RestAfter(s: State, ps: seq<Payment>): (r: State)
    requires Payable(s, ps)
    decreases |ps|
  {
    if ps == [] then s else RestAfter(Declare(s, ps[0]).rest, ps[1..])
  }

  ghost function Paid(ps: seq<Payment>): nat {
    if ps == [] then 0 else ps[0].amount + Paid(ps[1..])
  }

  /** Everything the invoices declare of group `i`, added up. */
  ghost function DeclaredOf(invoices: seq<Invoice>, i: nat): (nat, nat)
    requires forall k :: 0 <= k < |invoices| ==> i < |invoices[k].groups|
  {
    if invoices == [] then (0, 0)
    else
      var rest := DeclaredOf(invoices[1..], i);
      (invoices[0].groups[i].base + rest.0, invoices[0].groups[i].vat + rest.1)
  }

  ghost function ServiceOf(invoices: seq<Invoice>): nat {
    if invoices == [] then 0 else invoices[0].service + ServiceOf(invoices[1..])
  }

  ghost predicate Adds(g: Group, declared: (nat, nat), rest: Group) {
    declared.0 + rest.base == g.base && declared.1 + rest.vat == g.vat
  }

  /** After any payments, what was declared and what is left add up to the bill, bucket by bucket. */
  lemma {:induction false} NothingLostOrInvented(s: State, ps: seq<Payment>)
    requires Payable(s, ps)
    ensures forall k :: 0 <= k < |ps| ==> |Issued(s, ps)[k].groups| == |s.groups|
    ensures |RestAfter(s, ps).groups| == |s.groups|
    ensures forall i :: 0 <= i < |s.groups| ==>
              Adds(s.groups[i], DeclaredOf(Issued(s, ps), i), RestAfter(s, ps).groups[i])
    ensures ServiceOf(Issued(s, ps)) + RestAfter(s, ps).service == s.service
    ensures Outstanding(RestAfter(s, ps)) + Paid(ps) == Outstanding(s)
    decreases |ps|
  {
    hide Declare, Outstanding;
    if ps != [] {
      var d := Declare(s, ps[0]);
      DeclareBalances(s, ps[0]);
      NothingLostOrInvented(d.rest, ps[1..]);
      var later := Issued(d.rest, ps[1..]);
      assert Issued(s, ps)[1..] == later;
      forall k | 0 <= k < |ps| ensures |Issued(s, ps)[k].groups| == |s.groups| {
        assert k > 0 ==> Issued(s, ps)[k] == later[k - 1];
      }
      forall i | 0 <= i < |s.groups|
        ensures Adds(s.groups[i], DeclaredOf(Issued(s, ps), i), RestAfter(s, ps).groups[i])
      {
        assert Adds(d.rest.groups[i], DeclaredOf(later, i), RestAfter(s, ps).groups[i]);
        assert SplitsInTwo(s.groups[i], d.invoice.groups[i], d.rest.groups[i]);
      }
    }
  }

  /** Each invoice is worth exactly what its payer paid. */
  lemma {:induction false} EachInvoiceIsItsPayment(s: State, ps: seq<Payment>, k: nat)
    requires Payable(s, ps) && k < |ps|
    ensures var inv := Issued(s, ps)[k];
            inv.total == ps[k].amount == Sum(Buckets(inv.groups, inv.service))
    decreases |ps|
  {
    hide Declare, Outstanding, Sum;
    DeclareBalances(s, ps[0]);
    if k > 0 {
      EachInvoiceIsItsPayment(Declare(s, ps[0]).rest, ps[1..], k - 1);
    }
  }

  /** Once the bill is paid, every rate's base and tax, and the service charge, are declared to the céntimo. */
  lemma FullyPaidIsFullyDeclared(s: State, ps: seq<Payment>)
    requires Payable(s, ps) && Paid(ps) == Outstanding(s)
    ensures forall k :: 0 <= k < |ps| ==> |Issued(s, ps)[k].groups| == |s.groups|
    ensures forall i :: 0 <= i < |s.groups| ==> DeclaredOf(Issued(s, ps), i) == (s.groups[i].base, s.groups[i].vat)
    ensures ServiceOf(Issued(s, ps)) == s.service
  {
    hide Declare, Sum;
    NothingLostOrInvented(s, ps);
    var rest := RestAfter(s, ps);
    SumNonNegative(Buckets(rest.groups, rest.service));
    forall i | 0 <= i < |s.groups|
      ensures DeclaredOf(Issued(s, ps), i) == (s.groups[i].base, s.groups[i].vat)
    {
      assert Buckets(rest.groups, rest.service)[i] == Worth(rest.groups[i]);
      assert Adds(s.groups[i], DeclaredOf(Issued(s, ps), i), rest.groups[i]);
    }
    assert Buckets(rest.groups, rest.service)[|rest.groups|] == rest.service;
  }

  /** Any payments whose sum the bill covers can be declared: no order and no size is refused. */
  lemma {:induction false} CoveredIsPayable(s: State, ps: seq<Payment>)
    ensures Payable(s, ps) <==> Paid(ps) <= Outstanding(s)
    decreases |ps|
  {
    SumNonNegative(Buckets(s.groups, s.service));
    if ps != [] && ps[0].amount <= Outstanding(s) {
      DeclareBalances(s, ps[0]);
      CoveredIsPayable(Declare(s, ps[0]).rest, ps[1..]);
    }
  }
  // ---- How far one invoice's IVA can be from its own rate ------------------

  /** Ten thousand times what a group's tax exceeds its rate on its base. */
  ghost function Excess(g: Group): int { 10000 * g.vat - g.vatBps * g.base }

  /** Each part of a division in two is the exact one, rounded to the nearest unit. */
  lemma NearestOfTwo(share: nat, base: nat, vat: nat, d: seq<int>)
    requires base + vat > 0 && Weights([base, vat]) && IsAllocation(share, [base, vat], d)
    ensures |d| == 2 && d[0] + d[1] == share
    ensures 2 * Abs(d[1] * (base + vat) - share * vat) <= base + vat
  {
    TwoWeights(base, vat);
    var w, whole := [base, vat], base + vat;
    var e := Scaled(share, w);
    ScaledAt(share, w, 0);
    ScaledAt(share, w, 1);
    FloorAt(e, whole, 0);
    FloorAt(e, whole, 1);
    Euclid(e[0], whole);
    Euclid(e[1], whole);
    SumOfTwo(d);
    var q, r := Quotas(e, whole), Remainders(e, whole);
    Distribute(share, base, vat);
    NearestArithmetic(whole, share, share * base, share * vat, q[0], r[0], q[1], r[1], d[0], d[1]);
  }

  lemma NearestArithmetic(whole: nat, share: nat, e0: int, e1: int, q0: int, r0: int, q1: int, r1: int, d0: int,
                          d1: int)
    requires e0 == whole * q0 + r0 && e1 == whole * q1 + r1 && e0 + e1 == share * whole
    requires 0 <= r0 < whole && 0 <= r1 < whole && d0 + d1 == share
    requires d0 == q0 || d0 == q0 + 1
    requires d1 == q1 || d1 == q1 + 1
    requires d1 == q1 + 1 && d0 == q0 ==> r1 > r0
    requires d0 == q0 + 1 && d1 == q1 ==> r0 >= r1
    ensures 2 * Abs(d1 * whole - e1) <= whole
  {
    Distribute(whole, q0, q1);
    Distribute(whole, share, q0 + q1);
    assert whole * (share - (q0 + q1)) == r0 + r1;
    Distribute(whole, q1, 1);
    var left := share - (q0 + q1);
    Cancel(whole, left, 2);
    Cancel(whole, -1, left);
    assert left == 0 || left == 1;
    assert whole * 1 == whole && whole * 0 == 0;
  }

  /** `whole` times the excess of a slice is the group's share of its own excess, and a rounding. */
  lemma ExcessOfSlice(share: int, base: int, vat: int, bps: int, v: int)
    ensures (base + vat) * (10000 * v - bps * (share - v))
         == share * (10000 * vat - bps * base) + (10000 + bps) * (v * (base + vat) - share * vat)
  {
  }

  lemma BoundedExcess(whole: nat, share: nat, k: nat, excess: int, e: int, slice: int)
    requires 0 < whole && share <= whole && 2 * Abs(e) <= whole
    requires whole * slice == share * excess + k * e
    ensures 2 * Abs(slice) <= 2 * Abs(excess) + k
    ensures 2 * Abs(excess - slice) <= 2 * Abs(excess) + k
  {
    AbsProduct(share, excess, whole);
    AbsProduct(whole - share, excess, whole);
    HalfStep(whole, k, e);
    Distribute(whole, excess, slice);
    Distribute(excess, whole, share);
    hide Abs;
    Triangle(share * excess, (whole - share) * excess, k * e, whole * Abs(excess), whole * k);
    Bound(whole, Abs(excess), k);
    Narrow(whole, slice, 2 * Abs(excess) + k);
    Narrow(whole, excess - slice, 2 * Abs(excess) + k);
  }

  lemma Triangle(taken: int, kept: int, rounding: int, x: int, k: int)
    requires Abs(taken) <= x && Abs(kept) <= x && 2 * Abs(rounding) <= k
    ensures 2 * Abs(taken + rounding) <= 2 * x + k
    ensures 2 * Abs(kept - rounding) <= 2 * x + k
  {
  }

  lemma Bound(whole: nat, x: nat, k: nat)
    ensures whole * (2 * x + k) == 2 * (whole * x) + whole * k
  {
  }

  lemma HalfStep(whole: nat, k: nat, e: int)
    requires 2 * Abs(e) <= whole
    ensures 2 * Abs(k * e) <= whole * k
  {
    AbsProduct(k, e, k);
    ScaleLeq(2 * Abs(e), whole, k);
  }

  lemma AbsProduct(a: nat, x: int, b: nat)
    requires a <= b
    ensures Abs(a * x) <= b * Abs(x)
  {
    assert Abs(a * x) == a * Abs(x);
    ScaleLeq(a, b, Abs(x));
  }

  lemma Narrow(whole: nat, x: int, bound: nat)
    requires whole > 0
    ensures 2 * Abs(whole * x) <= whole * bound ==> 2 * Abs(x) <= bound
  {
    assert Abs(whole * x) == whole * Abs(x);
    Cancel(whole, bound, 2 * Abs(x));
    Distribute(whole, Abs(x), Abs(x));
  }

  /** A slice, and what it leaves, stay as close to the rate as the group was, but for half a céntimo and its tax. */
  lemma SliceKeepsRate(g: Group, share: nat)
    requires share <= Worth(g)
    ensures 2 * Abs(Excess(Slice(g, share))) <= 2 * Abs(Excess(g)) + 10000 + g.vatBps
    ensures 2 * Abs(Excess(Without(g, Slice(g, share)))) <= 2 * Abs(Excess(g)) + 10000 + g.vatBps
  {
    var s := Slice(g, share);
    if share > 0 && g.base > 0 && g.vat > 0 {
      SliceFits(share, g.base, g.vat);
      NearestOfTwo(share, g.base, g.vat, Division(share, [g.base, g.vat]));
      hide IsAllocation, Weights;
      ExcessOfSlice(share, g.base, g.vat, g.vatBps, s.vat);
      BoundedExcess(Worth(g), share, 10000 + g.vatBps, Excess(g), s.vat * Worth(g) - share * g.vat, Excess(s));
      ExcessOfRest(g, s);
    } else {
      OneSided(g.vatBps, g.base, s.base, g.vat, s.vat);
    }
  }

  lemma ExcessOfRest(g: Group, s: Group)
    requires s.base <= g.base && s.vat <= g.vat && s.vatBps == g.vatBps
    ensures Excess(Without(g, s)) == Excess(g) - Excess(s)
  {
    Distribute(g.vatBps, g.base, s.base);
  }

  lemma OneSided(bps: nat, base: nat, b: nat, vat: nat, v: nat)
    requires b <= base && v <= vat && ((b == 0 && v == 0) || base == 0 || vat == 0)
    ensures Abs(10000 * v - bps * b) <= Abs(10000 * vat - bps * base)
    ensures Abs(10000 * (vat - v) - bps * (base - b)) <= Abs(10000 * vat - bps * base)
  {
    ScaleLeq(b, base, bps);
    Distribute(bps, base, b);
  }

  /** The drift of the k-th invoice grows by at most half a céntimo and its tax a payment. */
  lemma {:induction false} DriftIsBounded(s: State, ps: seq<Payment>, k: nat, i: nat, bps: nat)
    requires Payable(s, ps) && k < |ps| && i < |s.groups| && s.groups[i].vatBps == bps
    ensures i < |Issued(s, ps)[k].groups| && Issued(s, ps)[k].groups[i].vatBps == bps
    ensures 2 * Abs(Excess(Issued(s, ps)[k].groups[i])) <= 2 * Abs(Excess(s.groups[i])) + (k + 1) * (10000 + bps)
    decreases |ps|
  {
    var d := Declare(s, ps[0]);
    SliceOfDeclare(s, ps[0], i);
    Distribute(10000 + bps, k, 1);
    if k > 0 {
      hide Declare, Outstanding, Excess;
      DriftIsBounded(d.rest, ps[1..], k - 1, i, bps);
      assert Issued(s, ps)[k] == Issued(d.rest, ps[1..])[k - 1];
      DriftStep(10000 + bps, k);
    }
  }

  lemma DriftStep(k: nat, n: nat)
    requires n > 0
    ensures (n - 1 + 1) * k + k == (n + 1) * k
  {
  }

  lemma SliceOfDeclare(s: State, p: Payment, i: nat)
    requires p.amount <= Outstanding(s) && i < |s.groups|
    ensures i < |Declare(s, p).invoice.groups| && i < |Declare(s, p).rest.groups|
    ensures Declare(s, p).invoice.groups[i].vatBps == Declare(s, p).rest.groups[i].vatBps == s.groups[i].vatBps
    ensures 2 * Abs(Excess(Declare(s, p).invoice.groups[i]))
         <= 2 * Abs(Excess(s.groups[i])) + 10000 + s.groups[i].vatBps
    ensures 2 * Abs(Excess(Declare(s, p).rest.groups[i])) <= 2 * Abs(Excess(s.groups[i])) + 10000 + s.groups[i].vatBps
  {
    hide Excess, Sum, Placed, Slice;
    var parts := PartsOf(s, p);
    assert Buckets(s.groups, s.service)[i] == Worth(s.groups[i]);
    SliceKeepsRate(s.groups[i], parts[i]);
  }

  /**
   * The documentation promises that an invoice's IVA is within one céntimo of
   * its rate on its own base. What the code keeps is: within one céntimo on the
   * first invoice, and within k on the k-th (`DriftPastOneCentimo` shows two).
   */
  lemma IvaWithinItsPosition(s: State, ps: seq<Payment>, k: nat, i: nat)
    requires Payable(s, ps) && k < |ps| && i < |s.groups|
    requires s.groups[i].vat == ApplyBps(s.groups[i].base, s.groups[i].vatBps) && s.groups[i].vatBps < 10000
    ensures i < |Issued(s, ps)[k].groups|
    ensures var g := Issued(s, ps)[k].groups[i];
            g.vatBps == s.groups[i].vatBps && Abs(g.vat - ApplyBps(g.base, g.vatBps)) <= k + 1
  {
    hide Payable, Issued, Excess, Abs;
    var bps := s.groups[i].vatBps;
    DriftIsBounded(s, ps, k, i, bps);
    var g := Issued(s, ps)[k].groups[i];
    RoundsBelow(k, bps);
    TaxedIsClose(s.groups[i]);
    TaxedIsClose(g.(vat := ApplyBps(g.base, bps)));
    hide ApplyBps;
    FromExcess(g, ApplyBps(g.base, bps), k, (k + 1) * (10000 + bps), Abs(Excess(s.groups[i])));
  }

  /** A group taxed once, rounding halves up, is half a céntimo off at most. */
  lemma TaxedIsClose(g: Group)
    requires g.vat == ApplyBps(g.base, g.vatBps)
    ensures Abs(Excess(g)) <= 5000
  {
  }

  lemma FromExcess(g: Group, ideal: nat, k: nat, rounds: nat, start: nat)
    requires 2 * Abs(Excess(g)) <= 2 * start + rounds && start <= 5000 && rounds <= 19999 * (k + 1)
    requires Abs(Excess(g.(vat := ideal))) <= 5000
    ensures Abs(g.vat - ideal) <= k + 1
  {
  }

  lemma RoundsBelow(k: nat, bps: nat)
    requires bps < 10000
    ensures (k + 1) * (10000 + bps) <= 19999 * (k + 1)
  {
    ScaleLeq(10000 + bps, 19999, k + 1);
  }
  /** A split whose rounding is under half a unit is the division. */
  lemma DivisionOfTwo(share: nat, base: nat, vat: nat, b: int, v: int)
    requires base > 0 && vat > 0 && b + v == share
    requires 2 * Abs(v * (base + vat) - share * vat) < base + vat
    ensures Weights([base, vat]) && Division(share, [base, vat]) == [b, v]
  {
    TwoWeights(base, vat);
    var d := Division(share, [base, vat]);
    NearestOfTwo(share, base, vat, d);
    SameRounding(base + vat, share * vat, d[1], v);
  }

  lemma SameRounding(whole: int, exact: int, a: int, b: int)
    requires whole > 0 && 2 * Abs(a * whole - exact) <= whole && 2 * Abs(b * whole - exact) < whole
    ensures a == b
  {
    Distribute(whole, a, b);
    Cancel(whole, -1, a - b);
    Cancel(whole, a - b, 1);
  }

  /** A bill with one rate and no service charge declares each payment out of that rate. */
  lemma OneRate(g: Group, amount: nat)
    requires amount <= Worth(g)
    ensures Outstanding(State([g], 0)) == Worth(g)
    ensures Declare(State([g], 0), Payment(amount, None))
         == Declared(Invoice([Slice(g, amount)], 0, amount), State([Without(g, Slice(g, amount))], 0))
  {
    var s, p := State([g], 0), Payment(amount, None);
    SumOfTwo(Buckets(s.groups, s.service));
    var parts := PartsOf(s, p);
    SumOfTwo(parts);
    assert parts[1] <= Buckets(s.groups, s.service)[1];
    assert parts[0] == amount;
    var d := Declare(s, p);
    assert d.invoice.groups == [Slice(g, amount)] && d.rest.groups == [Without(g, Slice(g, amount))];
  }

  /** Eighteen céntimos out of a bill at 16%: sixteen of base and two of tax. */
  lemma EighteenTakesTwo(g: Group)
    requires g.vatBps == 1600 && g.base > 18 && g.vat > 0
    requires 3 * (g.base + g.vat) < 36 * g.vat < 5 * (g.base + g.vat)
    ensures Slice(g, 18) == Group(1600, 16, 2)
  {
    DivisionOfTwo(18, g.base, g.vat, 16, 2);
  }

  /** Three small payments at 16% and then the rest: the last invoice's IVA is two céntimos off its rate. */
  lemma DriftPastOneCentimo() returns (s: State, ps: seq<Payment>)
    ensures |s.groups| == 1 && s.groups[0].vat == ApplyBps(s.groups[0].base, 1600)
    ensures Payable(s, ps) && |ps| == 4 && Paid(ps) == Outstanding(s)
    ensures |Issued(s, ps)[3].groups| == 1 && TwoOff(Issued(s, ps)[3].groups[0])
  {
    hide Declare, Outstanding, Slice;
    var small, last := Payment(18, None), Payment(1106, None);
    var g0, g1, g2, g3 := Group(1600, 1000, 160), Group(1600, 984, 158), Group(1600, 968, 156), Group(1600, 952, 154);
    s, ps := State([g0], 0), [small, small, small, last];
    EighteenTakesTwo(g0);
    OneRate(g0, 18);
    EighteenTakesTwo(g1);
    OneRate(g1, 18);
    EighteenTakesTwo(g2);
    OneRate(g2, 18);
    OneRate(g3, 1106);
    assert Slice(g3, 1106) == g3;
    assert ps[1..] == [small, small, last] && ps[1..][1..] == [small, last] && ps[1..][1..][1..] == [last];
    assert [last][1..] == [];
    assert Payable(State([Without(g3, g3)], 0), []);
    assert Payable(State([g3], 0), [last]) && Issued(State([g3], 0), [last])[0].groups == [g3];
    assert Payable(State([g2], 0), [small, last]) && Issued(State([g2], 0), [small, last])[1].groups == [g3];
    assert Payable(State([g1], 0), ps[1..]) && Issued(State([g1], 0), ps[1..])[2].groups == [g3];
    assert Payable(State([g0], 0), ps) && Issued(State([g0], 0), ps)[3].groups == [g3];
    assert TwoOff(g3);
    assert Paid([]) == 0 && Paid([last]) == 1106 && Paid([small, last]) == 1124;
    assert Paid(ps[1..]) == 1142 && Paid(ps) == 1160;
  }

  ghost predicate TwoOff(g: Group) {
    g.vatBps == 1600 && Abs(g.vat - ApplyBps(g.base, 1600)) == 2
  }

  // ---- The drift has no ceiling --------------------------------------------

  /** A bill of a thousand céntimos times `m` at 16%, after `j` payments of eighteen. */
  ghost function AfterSmall(m: nat, j: nat): Group
    requires j <= 2 * m
  {
    Group(1600, 1000 * m - 16 * j, 160 * m - 2 * j)
  }

  /** From there on: the rest of the two payments of eighteen for each thousand, and then everything left. */
  ghost function SmallAndLast(m: nat, j: nat): seq<Payment>
    requires j <= 2 * m
    decreases 2 * m - j
  {
    if j == 2 * m then [Payment(1124 * m, None)] else [Payment(18, None)] + SmallAndLast(m, j + 1)
  }

  lemma SmallStep(m: nat, j: nat)
    requires j < 2 * m
    ensures var s := State([AfterSmall(m, j)], 0);
            && 18 <= Outstanding(s) == Worth(AfterSmall(m, j))
            && Declare(s, Payment(18, None)).rest == State([AfterSmall(m, j + 1)], 0)
  {
    hide Declare, Outstanding, Slice;
    EighteenTakesTwo(AfterSmall(m, j));
    OneRate(AfterSmall(m, j), 18);
  }

  lemma LastStep(m: nat)
    ensures var g := AfterSmall(m, 2 * m); var s := State([g], 0);
            && Outstanding(s) == 1124 * m
            && Declare(s, Payment(1124 * m, None)).invoice.groups == [g]
  {
    hide Declare, Outstanding;
    OneRate(AfterSmall(m, 2 * m), 1124 * m);
  }

  lemma {:induction false} SmallPaymentsDrift(m: nat, j: nat)
    requires j <= 2 * m
    ensures var s, ps := State([AfterSmall(m, j)], 0), SmallAndLast(m, j);
            && Payable(s, ps) && |ps| == 2 * m - j + 1 && Paid(ps) == Outstanding(s)
            && Issued(s, ps)[2 * m - j].groups == [AfterSmall(m, 2 * m)]
    decreases 2 * m - j
  {
    hide Declare, Outstanding;
    var s, ps := State([AfterSmall(m, j)], 0), SmallAndLast(m, j);
    if j == 2 * m {
      LastStep(m);
      assert ps[1..] == [];
    } else {
      SmallStep(m, j);
      SmallPaymentsDrift(m, j + 1);
      assert ps[1..] == SmallAndLast(m, j + 1);
      DeclareBalances(s, ps[0]);
    }
  }

  /**
   * However many céntimos one asks for, some paid bill has an invoice whose IVA is
   * that far off its rate: at position 2m + 1 it can be m céntimos.
   */
  lemma DriftHasNoCeiling(m: nat) returns (s: State, ps: seq<Payment>)
    ensures |s.groups| == 1 && s.groups[0].vat == ApplyBps(s.groups[0].base, s.groups[0].vatBps)
    ensures Payable(s, ps) && |ps| == 2 * m + 1 && Paid(ps) == Outstanding(s)
    ensures |Issued(s, ps)[2 * m].groups| == 1
    ensures var g := Issued(s, ps)[2 * m].groups[0]; Abs(g.vat - ApplyBps(g.base, g.vatBps)) >= m
  {
    hide Payable, Issued, Paid, Outstanding, ApplyBps, Abs, AfterSmall, SmallAndLast;
    s, ps := State([AfterSmall(m, 0)], 0), SmallAndLast(m, 0);
    SmallPaymentsDrift(m, 0);
    TaxedAtFirst(m);
    OffAtLast(m);
  }

  lemma TaxedAtFirst(m: nat)
    ensures AfterSmall(m, 0) == Group(1600, 1000 * m, 160 * m) && ApplyBps(1000 * m, 1600) == 160 * m
  {
    var r := ApplyBps(1000 * m, 1600);
    hide ApplyBps;
    assert (1000 * m) * 1600 == 1600000 * m;
  }

  lemma OffAtLast(m: nat)
    ensures AfterSmall(m, 2 * m) == Group(1600, 968 * m, 156 * m) && Abs(156 * m - ApplyBps(968 * m, 1600)) >= m
  {
    var r := ApplyBps(968 * m, 1600);
    hide ApplyBps;
    assert (968 * m) * 1600 == 1548800 * m;
  }

  // ---- What a bill has to declare ------------------------------------------

  predicate Increasing(groups: seq<Group>) {
    forall i, j :: 0 <= i < j < |groups| ==> groups[i].vatBps < groups[j].vatBps
  }

  /** One group a rate that some line has, in order of rate, taxed once on its whole base. */
  ghost predicate GroupedByRate(lines: seq<BillState.Line>, groups: seq<Group>) {
    && Increasing(groups)
    && (forall i :: 0 <= i < |groups| ==>
          && groups[i].base == BillState.BaseAt(lines, groups[i].vatBps)
          && groups[i].vat == ApplyBps(groups[i].base, groups[i].vatBps))
    && (forall rate :: HasRate(groups, rate) <==> LineAt(lines, rate))
  }

  ghost predicate HasRate(groups: seq<Group>, rate: nat) {
    exists i :: 0 <= i < |groups| && groups[i].vatBps == rate
  }

  ghost predicate LineAt(lines: seq<BillState.Line>, rate: nat) {
    exists k :: 0 <= k < |lines| && lines[k].vatBps == rate
  }

  /** Puts a group of a new rate where the order wants it. */
  method InsertByRate(groups: seq<Group>, g: Group) returns (r: seq<Group>, ghost at: nat)
    requires Increasing(groups) && !HasRate(groups, g.vatBps)
    ensures Increasing(r)
    ensures at <= |groups| && r == groups[..at] + [g] + groups[at..]
  {
    var i := |groups|;
    while i > 0 && groups[i - 1].vatBps > g.vatBps
      invariant 0 <= i <= |groups|
      invariant forall k :: i <= k < |groups| ==> groups[k].vatBps > g.vatBps
    {
      i := i - 1;
    }
    assert i > 0 ==> groups[i - 1].vatBps != g.vatBps;
    r, at := groups[..i] + [g] + groups[i..], i;
  }

  /** Every line's subtotal, added up by rate in the order the rates first appear. */
  method BasesByRate(lines: seq<BillState.Line>) returns (order: seq<nat>, bases: map<nat, nat>)
    ensures forall i, j :: 0 <= i < j < |order| ==> order[i] != order[j]
    ensures forall rate :: rate in order <==> rate in bases
    ensures forall rate :: rate in bases <==> LineAt(lines, rate)
    ensures forall rate :: rate in bases ==> bases[rate] == BillState.BaseAt(lines, rate)
  {
    order, bases := [], map[];
    for i := 0 to |lines|
      invariant forall i, j :: 0 <= i < j < |order| ==> order[i] != order[j]
      invariant forall rate :: rate in order <==> rate in bases
      invariant forall rate :: rate in bases <==> LineAt(lines[..i], rate)
      invariant forall rate :: rate in bases ==> bases[rate] == BillState.BaseAt(lines[..i], rate)
      invariant forall rate :: rate !in bases ==> BillState.BaseAt(lines[..i], rate) == 0
    {
      assert lines[..i + 1][..i] == lines[..i];
      LineAtPush(lines, i);
      var rate := lines[i].vatBps;
      if rate !in bases {
        order := order + [rate];
        bases := bases[rate := 0];
      }
      bases := bases[rate := bases[rate] + lines[i].subtotal];
    }
    assert lines[..|lines|] == lines;
  }

  lemma LineAtPush(lines: seq<BillState.Line>, i: nat)
    requires i < |lines|
    ensures forall rate :: LineAt(lines[..i + 1], rate) <==> LineAt(lines[..i], rate) || lines[i].vatBps == rate
  {
    forall rate ensures LineAt(lines[..i + 1], rate) <==> LineAt(lines[..i], rate) || lines[i].vatBps == rate {
      if lines[i].vatBps == rate {
        assert lines[..i + 1][i].vatBps == rate;
      } else if LineAt(lines[..i], rate) {
        var k :| 0 <= k < i && lines[..i][k].vatBps == rate;
        assert lines[..i + 1][k].vatBps == rate;
      }
    }
  }

  function GroupOf(bases: map<nat, nat>, rate: nat): Group
    requires rate in bases
  {
    Group(rate, bases[rate], ApplyBps(bases[rate], rate))
  }

  /** The groups so far: each of a rate in `seen`, each rate in `seen` once. */
  ghost predicate GroupsFor(bases: map<nat, nat>, seen: seq<nat>, groups: seq<Group>) {
    && Increasing(groups)
    && (forall rate :: HasRate(groups, rate) <==> rate in seen)
    && (forall i :: 0 <= i < |groups| ==> groups[i].vatBps in bases && groups[i] == GroupOf(bases, groups[i].vatBps))
  }

  /** `stateFromLines`. */
  method StateFromLines(lines: seq<BillState.Line>, service: nat) returns (s: State)
    ensures s.service == service && GroupedByRate(lines, s.groups)
  {
    var order, bases := BasesByRate(lines);
    var groups: seq<Group> := [];
    for i := 0 to |order|
      invariant GroupsFor(bases, order[..i], groups)
    {
      assert order[i] !in order[..i];
      var was := groups;
      ghost var at;
      groups, at := InsertByRate(was, GroupOf(bases, order[i]));
      assert order[..i + 1] == order[..i] + [order[i]];
      GroupInserted(bases, order[..i], order[i], was, at, groups);
    }
    assert order[..|order|] == order;
    s := State(groups, service);
  }

  lemma GroupInserted(bases: map<nat, nat>, seen: seq<nat>, rate: nat, was: seq<Group>, at: nat, groups: seq<Group>)
    requires GroupsFor(bases, seen, was) && rate in bases && Increasing(groups)
    requires at <= |was| && groups == was[..at] + [GroupOf(bases, rate)] + was[at..]
    ensures GroupsFor(bases, seen + [rate], groups)
  {
    forall r ensures HasRate(groups, r) <==> r in seen + [rate] {
      assert HasRate(was, r) <==> r in seen;
      InsertedRates(was, at, GroupOf(bases, rate), groups, r);
    }
  }

  lemma InsertedRates(was: seq<Group>, i: nat, g: Group, groups: seq<Group>, rate: nat)
    requires i <= |was| && groups == was[..i] + [g] + was[i..]
    ensures HasRate(groups, rate) <==> HasRate(was, rate) || rate == g.vatBps
  {
    assert groups[i] == g;
    if HasRate(was, rate) {
      var k :| 0 <= k < |was| && was[k].vatBps == rate;
      assert groups[if k < i then k else k + 1] == was[k];
    }
    if HasRate(groups, rate) && rate != g.vatBps {
      var k :| 0 <= k < |groups| && groups[k].vatBps == rate;
      assert was[if k < i then k else k - 1] == groups[k];
    }
  }
}
