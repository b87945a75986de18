/**
 * Who owes what on a bill, exactly (src/services/splitEngine.js).
 *
 * The methods follow the engine's loops; each is tied to a ghost function built
 * from `Division`, and the lemmas at the end say what those functions promise:
 * the parts are the whole, and nobody is more than three céntimos per seat away
 * from the exact rational share.
 */
module SplitEngine {
  import opened Wrappers
  import opened LargestRemainder
  import opened Apportion

  type PersonId = string
  type ItemId = string

  /** Units of a line; the table and the request schema both keep it positive. */
  type UnitCount = n: int | n > 0 witness 1

  datatype Item = Item(id: ItemId, subtotal: int, quantity: UnitCount)
  datatype Claim = Claim(itemId: ItemId, quantity: Option<UnitCount>, people: seq<PersonId>)
  datatype Participant = Participant(id: PersonId, amount: Option<int>)
  datatype Mode = Full | Equal | Items | Custom
  datatype Request = Request(mode: Mode, participants: seq<Participant>, claims: seq<Claim>)

  datatype SplitError =
    | ParticipantsInvalid
    | NothingOutstanding
    | NotItemised
    | ClaimUnknown
    | ClaimsIncomplete
    | AmountMismatch

  /** `allocateWithZeros`: divides among those with a positive weight and gives the rest nothing. */
  method AllocateWithZeros(total: nat, weights: seq<int>) returns (r: Result<seq<int>, SplitError>)
    ensures Sum(Clamp(weights)) == 0 && total > 0 ==> r == Failure(ParticipantsInvalid)
    ensures Sum(Clamp(weights)) == 0 && total == 0 ==> r == Success(seq(|weights|, _ => 0))
    ensures Sum(Clamp(weights)) > 0 ==> r == Success(Division(total, Clamp(weights)))
    ensures Sum(Clamp(weights)) >= 0
  {
    var contributing, kept := Contributing(weights);
    SumNonNegative(Clamp(weights));
    if contributing == [] {
      if total > 0 { return Failure(ParticipantsInvalid); }
      return Success(seq(|weights|, _ => 0));
    }
    var parts := AmongPositive(total, weights);
    return Success(parts);
  }

  // ---- What each person owes, as a function -------------------------------

  /** Component-wise sum: what two stages together put on each participant. */
  ghost function Plus(a: seq<int>, b: seq<int>): (c: seq<int>)
    requires |a| == |b|
    ensures |c| == |a| && forall i :: 0 <= i < |a| ==> c[i] == a[i] + b[i]
  {
    seq(|a|, i requires 0 <= i < |a| => a[i] + b[i])
  }

  ghost function Zeros(n: nat): (z: seq<int>)
    ensures |z| == n && forall i :: 0 <= i < n ==> z[i] == 0
  {
    seq(n, _ => 0)
  }

  lemma {:induction false} SumPlus(a: seq<int>, b: seq<int>)
    requires |a| == |b|
    ensures Sum(Plus(a, b)) == Sum(a) + Sum(b)
  {
    if a != [] {
      var n := |a| - 1;
      assert Plus(a, b)[..n] == Plus(a[..n], b[..n]);
      SumPlus(a[..n], b[..n]);
    }
  }

  ghost function Ones(n: nat): (o: seq<int>)
    ensures |o| == n && forall i :: 0 <= i < n ==> o[i] == 1
  {
    seq(n, _ => 1)
  }

  /** `money` divided by `w`, or nothing where there is nothing to divide by. */
  ghost function Share(money: int, w: seq<int>): (parts: seq<int>)
    ensures |parts| == |w|
  {
    if money >= 0 && Sum(Clamp(w)) > 0 then
      assert Weights(Clamp(w));
      Division(money, Clamp(w))
    else Zeros(|w|)
  }

  function ClaimsOn(claims: seq<Claim>, item: ItemId): seq<Claim> {
    if claims == [] then []
    else
      var last := claims[|claims| - 1];
      ClaimsOn(claims[..|claims| - 1], item) + if last.itemId == item && last.people != [] then [last] else []
  }

  function UnitsOf(c: Claim, item: Item): UnitCount {
    if c.quantity.None? then item.quantity else c.quantity.value
  }

  ghost function Units(cs: seq<Claim>, item: Item): (u: seq<int>)
    ensures |u| == |cs| && forall i :: 0 <= i < |cs| ==> u[i] == UnitsOf(cs[i], item)
  {
    seq(|cs|, i requires 0 <= i < |cs| => UnitsOf(cs[i], item))
  }

  function Subtotals(items: seq<Item>): (s: seq<int>)
    ensures |s| == |items| && forall i :: 0 <= i < |items| ==> s[i] == items[i].subtotal
  {
    seq(|items|, i requires 0 <= i < |items| => items[i].subtotal)
  }

  /** Seat by seat, money lands on the person sitting there. */
  ghost function SeatsPay(ps: seq<PersonId>, people: seq<PersonId>, money: seq<int>): (v: seq<int>)
    requires |money| == |people|
    ensures |v| == |ps|
  {
    if people == [] then Zeros(|ps|)
    else
      var n := |people| - 1;
      Plus(SeatsPay(ps, people[..n], money[..n]),
           seq(|ps|, i requires 0 <= i < |ps| => if ps[i] == people[n] then money[n] else 0))
  }

  /** Claim by claim on one line. */
  ghost function LinePays(ps: seq<PersonId>, cs: seq<Claim>, money: seq<int>): (v: seq<int>)
    requires |money| == |cs|
    ensures |v| == |ps|
  {
    if cs == [] then Zeros(|ps|)
    else
      var n := |cs| - 1;
      Plus(LinePays(ps, cs[..n], money[..n]),
           SeatsPay(ps, cs[n].people, Share(money[n], Ones(|cs[n].people|))))
  }

  /** Line by line: what each participant owes once `perLine` is known. */
  ghost function LinesPay(ps: seq<PersonId>, items: seq<Item>, claims: seq<Claim>, perLine: seq<int>): (v: seq<int>)
    requires |perLine| == |items|
    ensures |v| == |ps|
  {
    if items == [] then Zeros(|ps|)
    else
      var n := |items| - 1;
      var cs := ClaimsOn(claims, items[n].id);
      Plus(LinesPay(ps, items[..n], claims, perLine[..n]),
           LinePays(ps, cs, Share(perLine[n], Units(cs, items[n]))))
  }

  /** The ITEMS split: balance over lines, line over claims by units, claim over people. */
  ghost function ItemsSplit(outstanding: int, ps: seq<PersonId>, items: seq<Item>, claims: seq<Claim>): (v: seq<int>)
    ensures |v| == |ps|
  {
    LinesPay(ps, items, claims, Share(outstanding, Subtotals(items)))
  }

  // ---- When an ITEMS split is refused -------------------------------------

  predicate ClaimsKnown(ps: seq<PersonId>, items: seq<Item>, claims: seq<Claim>) {
    forall c :: c in claims ==>
      && (exists i :: 0 <= i < |items| && items[i].id == c.itemId)
      && (forall p :: p in c.people ==> p in ps)
  }

  predicate AllClaimed(items: seq<Item>, claims: seq<Claim>) {
    forall i :: 0 <= i < |items| ==> ClaimsOn(claims, items[i].id) != []
  }

  /** The units claimed on a line are the units on it. */
  ghost predicate UnitsMatch(item: Item, claims: seq<Claim>) {
    Sum(Units(ClaimsOn(claims, item.id), item)) == item.quantity
  }

  ghost predicate Divisible(outstanding: int, ps: seq<PersonId>, items: seq<Item>, claims: seq<Claim>) {
    && items != []
    && ClaimsKnown(ps, items, claims)
    && AllClaimed(items, claims)
    && Sum(Clamp(Subtotals(items))) > 0
    && (forall i :: 0 <= i < |items| ==> UnitsMatch(items[i], claims))
  }

  // ---- The parts are the whole --------------------------------------------

  predicate Distinct(ps: seq<PersonId>) {
    forall i, j :: 0 <= i < j < |ps| ==> ps[i] != ps[j]
  }

  lemma {:induction false} ZerosSum(n: nat)
    ensures Sum(Zeros(n)) == 0
  {
    if n > 0 {
      assert Zeros(n)[..n - 1] == Zeros(n - 1);
      ZerosSum(n - 1);
    }
  }

  lemma {:induction false} OneSeat(ps: seq<PersonId>, person: PersonId, money: int, v: seq<int>)
    requires Distinct(ps) && |v| == |ps|
    requires forall i :: 0 <= i < |ps| ==> v[i] == if ps[i] == person then money else 0
    ensures Sum(v) == if person in ps then money else 0
  {
    if ps != [] {
      var n := |ps| - 1;
      OneSeat(ps[..n], person, money, v[..n]);
      assert ps == ps[..n] + [ps[n]];
    }
  }

  lemma {:induction false} SeatsPayAll(ps: seq<PersonId>, people: seq<PersonId>, money: seq<int>)
    requires Distinct(ps) && |money| == |people| && forall p :: p in people ==> p in ps
    ensures Sum(SeatsPay(ps, people, money)) == Sum(money)
  {
    if people == [] {
      ZerosSum(|ps|);
    } else {
      var n := |people| - 1;
      SeatsPayAll(ps, people[..n], money[..n]);
      var seat := seq(|ps|, i requires 0 <= i < |ps| => if ps[i] == people[n] then money[n] else 0);
      OneSeat(ps, people[n], money[n], seat);
      SumPlus(SeatsPay(ps, people[..n], money[..n]), seat);
    }
  }

  lemma ShareIsWhole(money: nat, w: seq<int>)
    requires Sum(Clamp(w)) > 0
    ensures Sum(Share(money, w)) == money
    ensures forall i :: 0 <= i < |w| ==> 0 <= Share(money, w)[i]
  {
    forall i | 0 <= i < |w| ensures 0 <= Share(money, w)[i] {
      WithinOneUnit(money, Clamp(w), Share(money, w), i, Sum(Clamp(w)));
    }
  }

  lemma OnesSum(n: nat)
    ensures Sum(Clamp(Ones(n))) == n
  {
    SumConstant(Clamp(Ones(n)), 1);
  }

  lemma {:induction false} LinePaysAll(ps: seq<PersonId>, cs: seq<Claim>, money: seq<int>)
    requires Distinct(ps) && |money| == |cs|
    requires forall c :: 0 <= c < |cs| ==> cs[c].people != [] && forall p :: p in cs[c].people ==> p in ps
    requires forall c :: 0 <= c < |cs| ==> 0 <= money[c]
    ensures Sum(LinePays(ps, cs, money)) == Sum(money)
  {
    if cs == [] {
      ZerosSum(|ps|);
    } else {
      var n := |cs| - 1;
      LinePaysAll(ps, cs[..n], money[..n]);
      var people := cs[n].people;
      var seats := Share(money[n], Ones(|people|));
      OnesSum(|people|);
      ShareIsWhole(money[n], Ones(|people|));
      SeatsPayAll(ps, people, seats);
      SumPlus(LinePays(ps, cs[..n], money[..n]), SeatsPay(ps, people, seats));
    }
  }

  lemma {:induction false} ClaimsOnFacts(claims: seq<Claim>, item: ItemId)
    ensures forall c :: c in ClaimsOn(claims, item) <==> c in claims && c.itemId == item && c.people != []
  {
    if claims != [] {
      ClaimsOnFacts(claims[..|claims| - 1], item);
    }
  }

  lemma {:induction false} LinesPayAll(ps: seq<PersonId>, items: seq<Item>, claims: seq<Claim>, perLine: seq<int>)
    requires Distinct(ps) && |perLine| == |items|
    requires forall c :: c in claims ==> forall p :: p in c.people ==> p in ps
    requires forall i :: 0 <= i < |items| ==> 0 <= perLine[i]
    requires forall i :: 0 <= i < |items| ==> Sum(Clamp(Units(ClaimsOn(claims, items[i].id), items[i]))) > 0
    ensures Sum(LinesPay(ps, items, claims, perLine)) == Sum(perLine)
  {
    if items == [] {
      ZerosSum(|ps|);
    } else {
      var n := |items| - 1;
      LinesPayAll(ps, items[..n], claims, perLine[..n]);
      var cs := ClaimsOn(claims, items[n].id);
      ClaimsOnFacts(claims, items[n].id);
      var perClaim := Share(perLine[n], Units(cs, items[n]));
      ShareIsWhole(perLine[n], Units(cs, items[n]));
      LinePaysAll(ps, cs, perClaim);
      SumPlus(LinesPay(ps, items[..n], claims, perLine[..n]), LinePays(ps, cs, perClaim));
    }
  }

  lemma UnitsPositive(cs: seq<Claim>, item: Item)
    ensures Clamp(Units(cs, item)) == Units(cs, item)
    ensures cs != [] ==> Sum(Units(cs, item)) > 0
  {
    if cs != [] {
      SumPositive(Units(cs, item));
    }
  }

  /** Every céntimo of the balance is owed by somebody, and by nobody twice. */
  lemma ItemsSplitIsExact(outstanding: nat, ps: seq<PersonId>, items: seq<Item>, claims: seq<Claim>)
    requires Distinct(ps) && Divisible(outstanding, ps, items, claims)
    ensures Sum(ItemsSplit(outstanding, ps, items, claims)) == outstanding
  {
    var perLine := Share(outstanding, Subtotals(items));
    ShareIsWhole(outstanding, Subtotals(items));
    forall i | 0 <= i < |items|
      ensures Sum(Clamp(Units(ClaimsOn(claims, items[i].id), items[i]))) > 0
    {
      UnitsPositive(ClaimsOn(claims, items[i].id), items[i]);
    }
    LinesPayAll(ps, items, claims, perLine);
  }

  // ---- How far from the exact rational share ------------------------------

  /** Within three céntimos for each seat taken, and exactly nothing without a seat. */
  ghost predicate Near(actual: int, exact: real, seats: nat) {
    if seats == 0 then actual == 0 && exact == 0.0
    else exact - 3.0 * seats as real < actual as real < exact + 3.0 * seats as real
  }

  ghost function SeatsTaken(p: PersonId, people: seq<PersonId>): nat {
    if people == [] then 0
    else SeatsTaken(p, people[..|people| - 1]) + if people[|people| - 1] == p then 1 else 0
  }

  ghost function ExactSeats(p: PersonId, people: seq<PersonId>, perSeat: real): real {
    if people == [] then 0.0
    else ExactSeats(p, people[..|people| - 1], perSeat) + if people[|people| - 1] == p then perSeat else 0.0
  }

  ghost function LineSeats(p: PersonId, cs: seq<Claim>): nat {
    if cs == [] then 0 else LineSeats(p, cs[..|cs| - 1]) + SeatsTaken(p, cs[|cs| - 1].people)
  }

  /** Each claim's people pay its exact price per seat. */
  ghost function ExactLine(p: PersonId, cs: seq<Claim>, perSeat: seq<real>): real
    requires |perSeat| == |cs|
  {
    if cs == [] then 0.0
    else
      var n := |cs| - 1;
      ExactLine(p, cs[..n], perSeat[..n]) + ExactSeats(p, cs[n].people, perSeat[n])
  }

  /** A line's exact money over its claims by units, then over the people on each, evenly. */
  ghost function SeatPrices(cs: seq<Claim>, item: Item, line: real): (prices: seq<real>)
    ensures |prices| == |cs|
    ensures forall c :: 0 <= c < |cs| && cs[c].people != [] ==> prices[c] == SeatPrice(cs[c], item, line)
  {
    seq(|cs|, c requires 0 <= c < |cs| => if cs[c].people == [] then 0.0 else SeatPrice(cs[c], item, line))
  }

  ghost function SeatPrice(c: Claim, item: Item, line: real): real
    requires c.people != []
  {
    Portion(Portion(line, UnitsOf(c, item), item.quantity), 1, |c.people|)
  }

  ghost function Portion(money: real, part: int, whole: int): real
    requires whole > 0
  {
    money * (part as real) / (whole as real)
  }

  ghost function SeatsOf(p: PersonId, items: seq<Item>, claims: seq<Claim>): nat {
    if items == [] then 0
    else SeatsOf(p, items[..|items| - 1], claims) + LineSeats(p, ClaimsOn(claims, items[|items| - 1].id))
  }

  ghost function ExactItem(p: PersonId, cs: seq<Claim>, item: Item, line: real): real {
    ExactLine(p, cs, SeatPrices(cs, item, line))
  }

  /** What `p` would owe if céntimos could be divided: the balance by subtotal, units and heads. */
  ghost function ExactShare(p: PersonId, items: seq<Item>, claims: seq<Claim>, outstanding: real, subtotal: int): real
    requires subtotal > 0
  {
    if items == [] then 0.0
    else
      var item := items[|items| - 1];
      ExactShare(p, items[..|items| - 1], claims, outstanding, subtotal)
        + ExactItem(p, ClaimsOn(claims, item.id), item, Portion(outstanding, Positive(item.subtotal), subtotal))
  }

  ghost predicate Within(actual: int, exact: real, bound: real) {
    exact - bound < actual as real < exact + bound
  }

  /** Integer products carry over to the reals. */
  lemma {:induction false} ProductInReals(a: int, b: nat)
    ensures (a * b) as real == a as real * b as real
  {
    if b > 0 {
      ProductInReals(a, b - 1);
      Distribute(a, b, 1);
      RealStep(a as real, b as real, (b - 1) as real, (a * (b - 1)) as real);
    }
  }

  lemma RealStep(a: real, b: real, c: real, product: real)
    requires b == c + 1.0 && product == a * c
    ensures product + a == a * b
  {
  }

  lemma Quotient(part: real, a: real, b: real, whole: real)
    requires whole > 0.0 && a * b - whole < part * whole < a * b + whole
    ensures a * b / whole - 1.0 < part < a * b / whole + 1.0
  {
    var exact := a * b;
    var ratio := exact / whole;
    assert ratio * whole == exact;
    Separated(part, ratio + 1.0, whole);
    Separated(ratio - 1.0, part, whole);
  }

  lemma Separated(a: real, b: real, w: real)
    requires w > 0.0 && a * w < b * w
    ensures a < b
  {
  }

  lemma ShareNear(money: nat, w: seq<int>, i: nat, whole: int)
    requires i < |w| && whole == Sum(Clamp(w)) && whole > 0
    ensures Within(Share(money, w)[i], Portion(money as real, Positive(w[i]), whole), 1.0)
    ensures 0 <= Share(money, w)[i]
  {
    WithinOneUnit(money, Clamp(w), Share(money, w), i, whole);
    QuotientOf(Share(money, w)[i], money, Positive(w[i]), whole);
  }

  lemma QuotientOf(part: int, money: nat, weight: nat, whole: int)
    requires whole > 0 && money * weight - whole < part * whole < money * weight + whole
    ensures Within(part, Portion(money as real, weight, whole), 1.0)
  {
    ProductInReals(money, weight);
    ProductInReals(part, whole);
    var m, w, d := money as real, weight as real, whole as real;
    Quotient(part as real, m, w, d);
    assert Portion(m, weight, whole) == m * w / d;
  }

  /** A part of something known to within `b` is known to within `b` times the part. */
  lemma PortionNear(a: real, b: real, part: int, whole: int, bound: real)
    requires 0 <= part <= whole && whole > 0 && bound > 0.0
    requires b - bound < a < b + bound
    ensures Portion(b, part, whole) - bound < Portion(a, part, whole) < Portion(b, part, whole) + bound
  {
    var f := part as real / whole as real;
    Fraction(part, whole);
    assert Portion(a, part, whole) == a * f && Portion(b, part, whole) == b * f;
    ScaleGap(a - b, f, bound);
    assert a * f - b * f == (a - b) * f;
  }

  lemma Fraction(part: int, whole: int)
    requires 0 <= part <= whole && whole > 0
    ensures 0.0 <= part as real / whole as real <= 1.0
  {
  }

  lemma ScaleGap(d: real, f: real, bound: real)
    requires 0.0 <= f <= 1.0 && -bound < d < bound
    ensures -bound < d * f < bound
  {
    if d >= 0.0 {
      assert d * f <= d;
    } else {
      assert d * f >= d;
    }
  }

  lemma {:induction false} SeatsNear(ps: seq<PersonId>, j: nat, people: seq<PersonId>, money: seq<int>, perSeat: real)
    requires j < |ps| && |money| == |people|
    requires forall k :: 0 <= k < |people| ==> Within(money[k], perSeat, 3.0)
    ensures Near(SeatsPay(ps, people, money)[j], ExactSeats(ps[j], people, perSeat), SeatsTaken(ps[j], people))
  {
    if people != [] {
      var n := |people| - 1;
      SeatsNear(ps, j, people[..n], money[..n], perSeat);
    }
  }

  lemma NearPlus(a: int, x: real, s: nat, b: int, y: real, t: nat)
    requires Near(a, x, s) && Near(b, y, t)
    ensures Near(a + b, x + y, s + t)
  {
  }

  ghost predicate SeatsWithin(people: seq<PersonId>, money: int, perSeat: real) {
    forall k :: 0 <= k < |people| ==> Within(Share(money, Ones(|people|))[k], perSeat, 3.0)
  }

  lemma {:induction false} LineNear(ps: seq<PersonId>, j: nat, cs: seq<Claim>, money: seq<int>, perSeat: seq<real>)
    requires j < |ps| && |money| == |cs| == |perSeat|
    requires forall c :: 0 <= c < |cs| ==> SeatsWithin(cs[c].people, money[c], perSeat[c])
    ensures Near(LinePays(ps, cs, money)[j], ExactLine(ps[j], cs, perSeat), LineSeats(ps[j], cs))
  {
    if cs != [] {
      var n := |cs| - 1;
      LineNear(ps, j, cs[..n], money[..n], perSeat[..n]);
      var people := cs[n].people;
      SeatsNear(ps, j, people, Share(money[n], Ones(|people|)), perSeat[n]);
    }
  }

  /** One claim: its money is within two céntimos, so each seat on it is within three. */
  lemma SeatNear(c: Claim, item: Item, money: nat, line: real, k: nat)
    requires k < |c.people| && Within(money, Portion(line, UnitsOf(c, item), item.quantity), 2.0)
    ensures Within(Share(money, Ones(|c.people|))[k], SeatPrice(c, item, line), 3.0)
  {
    var n := |c.people|;
    OnesSum(n);
    ShareNear(money, Ones(n), k, n);
    PortionNear(money as real, Portion(line, UnitsOf(c, item), item.quantity), 1, n, 2.0);
  }

  /** The claims on a line share out its money to within two céntimos each. */
  lemma ClaimsNear(cs: seq<Claim>, item: Item, money: nat, line: real, c: nat)
    requires c < |cs| && Within(money, line, 1.0) && Sum(Units(cs, item)) == item.quantity
    ensures Share(money, Units(cs, item))[c] >= 0
    ensures Within(Share(money, Units(cs, item))[c], Portion(line, UnitsOf(cs[c], item), item.quantity), 2.0)
  {
    UnitsPositive(cs, item);
    SumNonNegative(Units(cs, item));
    ShareNear(money, Units(cs, item), c, item.quantity);
    PortionNear(money as real, line, UnitsOf(cs[c], item), item.quantity, 1.0);
  }

  lemma {:induction false} LinesNear(ps: seq<PersonId>, j: nat, items: seq<Item>, claims: seq<Claim>,
                                     perLine: seq<int>, outstanding: real, subtotal: int)
    requires j < |ps| && |perLine| == |items| && subtotal > 0
    requires forall i :: 0 <= i < |items| ==> UnitsMatch(items[i], claims) && perLine[i] >= 0
    requires forall i :: 0 <= i < |items| ==>
      Within(perLine[i], Portion(outstanding, Positive(items[i].subtotal), subtotal), 1.0)
    ensures Near(LinesPay(ps, items, claims, perLine)[j],
                 ExactShare(ps[j], items, claims, outstanding, subtotal), SeatsOf(ps[j], items, claims))
  {
    if items != [] {
      var n := |items| - 1;
      LinesNear(ps, j, items[..n], claims, perLine[..n], outstanding, subtotal);
      var item, cs := items[n], ClaimsOn(claims, items[n].id);
      var line := Portion(outstanding, Positive(item.subtotal), subtotal);
      var money := Share(perLine[n], Units(cs, item));
      ItemNear(ps, j, cs, item, perLine[n], line, money);
      ClaimsOnFacts(claims, item.id);
      NearPlus(LinesPay(ps, items[..n], claims, perLine[..n])[j],
               ExactShare(ps[j], items[..n], claims, outstanding, subtotal), SeatsOf(ps[j], items[..n], claims),
               LinePays(ps, cs, money)[j], ExactItem(ps[j], cs, item, line), LineSeats(ps[j], cs));
    }
  }

  lemma ItemNear(ps: seq<PersonId>, j: nat, cs: seq<Claim>, item: Item, paid: nat, line: real, money: seq<int>)
    requires j < |ps| && Sum(Units(cs, item)) == item.quantity && Within(paid, line, 1.0)
    requires money == Share(paid, Units(cs, item))
    ensures Near(LinePays(ps, cs, money)[j], ExactItem(ps[j], cs, item, line), LineSeats(ps[j], cs))
  {
    var prices := SeatPrices(cs, item, line);
    forall c | 0 <= c < |cs| ensures SeatsWithin(cs[c].people, money[c], prices[c]) {
      ClaimsNear(cs, item, paid, line, c);
      forall k | 0 <= k < |cs[c].people|
        ensures Within(Share(money[c], Ones(|cs[c].people|))[k], prices[c], 3.0)
      {
        SeatNear(cs[c], item, money[c], line, k);
      }
    }
    LineNear(ps, j, cs, money, prices);
  }

  /** Three roundings cost a participant less than three céntimos for each seat they take. */
  lemma ItemsSplitIsFair(outstanding: nat, ps: seq<PersonId>, items: seq<Item>, claims: seq<Claim>, j: nat)
    requires j < |ps| && Divisible(outstanding, ps, items, claims)
    ensures Near(ItemsSplit(outstanding, ps, items, claims)[j],
                 ExactShare(ps[j], items, claims, outstanding as real, Sum(Clamp(Subtotals(items)))),
                 SeatsOf(ps[j], items, claims))
  {
    var perLine, subtotal := Share(outstanding, Subtotals(items)), Sum(Clamp(Subtotals(items)));
    forall i | 0 <= i < |items|
      ensures perLine[i] >= 0
        && Within(perLine[i], Portion(outstanding as real, Positive(items[i].subtotal), subtotal), 1.0)
    {
      ShareNear(outstanding, Subtotals(items), i, subtotal);
    }
    LinesNear(ps, j, items, claims, perLine, outstanding as real, subtotal);
  }

  // ---- The engine's loops --------------------------------------------------

  /** The running totals, in the order of the participants. */
  ghost function Totals(ps: seq<PersonId>, owed: map<PersonId, int>): (v: seq<int>)
    requires forall p :: p in ps ==> p in owed
    ensures |v| == |ps|
  {
    seq(|ps|, i requires 0 <= i < |ps| => owed[ps[i]])
  }

  method CreditSeats(ghost ps: seq<PersonId>, was: map<PersonId, int>, people: seq<PersonId>, shares: seq<int>)
    returns (owed: map<PersonId, int>)
    requires |shares| == |people| && (forall p :: p in ps ==> p in was) && forall p :: p in people ==> p in was
    ensures owed.Keys == was.Keys
    ensures Totals(ps, owed) == Plus(Totals(ps, was), SeatsPay(ps, people, shares))
  {
    owed := was;
    for k := 0 to |people|
      invariant owed.Keys == was.Keys
      invariant Totals(ps, owed) == Plus(Totals(ps, was), SeatsPay(ps, people[..k], shares[..k]))
    {
      ghost var before := Totals(ps, owed);
      var p := people[k];
      owed := owed[p := owed[p] + shares[k]];
      assert people[..k + 1][..k] == people[..k] && shares[..k + 1][..k] == shares[..k];
      assert Totals(ps, owed) == Plus(before,
        seq(|ps|, i requires 0 <= i < |ps| => if ps[i] == p then shares[k] else 0));
    }
    assert people[..|people|] == people && shares[..|people|] == shares;
  }

  /** One claim: its money divided evenly between the people on it. */
  method CreditClaim(ghost ps: seq<PersonId>, was: map<PersonId, int>, people: seq<PersonId>, money: nat)
    returns (owed: map<PersonId, int>)
    requires people != [] && (forall p :: p in ps ==> p in was) && forall p :: p in people ==> p in was
    ensures owed.Keys == was.Keys
    ensures Totals(ps, owed) == Plus(Totals(ps, was), SeatsPay(ps, people, Share(money, Ones(|people|))))
  {
    var evenly := seq(|people|, _ => 1);
    OnesSum(|people|);
    assert evenly == Ones(|people|);
    var shares := AllocateWithZeros(money, evenly);
    owed := CreditSeats(ps, was, people, shares.value);
  }

  lemma PlusAssociates(a: seq<int>, b: seq<int>, c: seq<int>)
    requires |a| == |b| == |c|
    ensures Plus(Plus(a, b), c) == Plus(a, Plus(b, c))
  {
  }

  lemma LinePaysStep(ps: seq<PersonId>, cs: seq<Claim>, money: seq<int>, c: nat)
    requires |money| == |cs| && c < |cs|
    ensures LinePays(ps, cs[..c + 1], money[..c + 1])
         == Plus(LinePays(ps, cs[..c], money[..c]),
                 SeatsPay(ps, cs[c].people, Share(money[c], Ones(|cs[c].people|))))
  {
    assert cs[..c + 1][..c] == cs[..c] && money[..c + 1][..c] == money[..c];
  }

  method CreditLine(ghost ps: seq<PersonId>, was: map<PersonId, int>, cs: seq<Claim>, perClaim: seq<int>)
    returns (owed: map<PersonId, int>)
    requires |perClaim| == |cs| && forall p :: p in ps ==> p in was
    requires forall c :: 0 <= c < |cs| ==> perClaim[c] >= 0 && cs[c].people != []
    requires forall c, p :: 0 <= c < |cs| && p in cs[c].people ==> p in was
    ensures owed.Keys == was.Keys
    ensures Totals(ps, owed) == Plus(Totals(ps, was), LinePays(ps, cs, perClaim))
  {
    owed := was;
    ghost var start, paid := Totals(ps, was), Zeros(|ps|);
    for c := 0 to |cs|
      invariant owed.Keys == was.Keys && |paid| == |start|
      invariant paid == LinePays(ps, cs[..c], perClaim[..c])
      invariant Totals(ps, owed) == Plus(start, paid)
    {
      owed := CreditClaim(ps, owed, cs[c].people, perClaim[c]);
      LinePaysStep(ps, cs, perClaim, c);
      ghost var more := SeatsPay(ps, cs[c].people, Share(perClaim[c], Ones(|cs[c].people|)));
      PlusAssociates(start, paid, more);
      paid := Plus(paid, more);
    }
    assert cs[..|cs|] == cs && perClaim[..|cs|] == perClaim;
  }

  /** Groups the claims by line, keeping every one: keying by line would keep only the last. */
  method GroupByItem(items: seq<Item>, claims: seq<Claim>) returns (byItem: map<ItemId, seq<Claim>>)
    requires forall c :: c in claims ==> exists i :: 0 <= i < |items| && items[i].id == c.itemId
    ensures forall i :: 0 <= i < |items| ==> items[i].id in byItem
    ensures forall i :: 0 <= i < |items| ==> byItem[items[i].id] == ClaimsOn(claims, items[i].id)
  {
    byItem := map i | 0 <= i < |items| :: items[i].id := [];
    for k := 0 to |claims|
      invariant forall i :: 0 <= i < |items| ==> items[i].id in byItem
      invariant forall i :: 0 <= i < |items| ==> byItem[items[i].id] == ClaimsOn(claims[..k], items[i].id)
    {
      var claim := claims[k];
      assert claim in claims;
      assert claims[..k + 1][..k] == claims[..k];
      if claim.people != [] {
        byItem := byItem[claim.itemId := byItem[claim.itemId] + [claim]];
      }
    }
    assert claims[..|claims|] == claims;
  }

  method SumUnits(cs: seq<Claim>, item: Item) returns (units: seq<int>, total: int)
    ensures units == Units(cs, item) && total == Sum(units)
  {
    units, total := [], 0;
    ghost var all := Units(cs, item);
    for c := 0 to |cs|
      invariant units == all[..c] && total == Sum(units)
    {
      assert all[..c + 1] == all[..c] + [UnitsOf(cs[c], item)];
      SumPush(units, UnitsOf(cs[c], item));
      units := units + [UnitsOf(cs[c], item)];
      total := total + UnitsOf(cs[c], item);
    }
  }

  ghost function ItemsOutcome(outstanding: nat, ps: seq<PersonId>, items: seq<Item>, claims: seq<Claim>)
    : (r: Result<seq<int>, SplitError>)
    ensures r.Success? && Distinct(ps) ==> |r.value| == |ps| && Sum(r.value) == outstanding
  {
    if items == [] then Failure(NotItemised)
    else if !ClaimsKnown(ps, items, claims) then Failure(ClaimUnknown)
    else if !AllClaimed(items, claims) then Failure(ClaimsIncomplete)
    else if Sum(Clamp(Subtotals(items))) <= 0 then Failure(ParticipantsInvalid)
    else if exists i :: 0 <= i < |items| && !UnitsMatch(items[i], claims) then Failure(ClaimsIncomplete)
    else
      assert Distinct(ps) ==> Sum(ItemsSplit(outstanding, ps, items, claims)) == outstanding by {
        if Distinct(ps) { ItemsSplitIsExact(outstanding, ps, items, claims); }
      }
      Success(ItemsSplit(outstanding, ps, items, claims))
  }

  /** `allocateByItems`. */
  method AllocateByItems(outstanding: nat, ps: seq<PersonId>, items: seq<Item>, claims: seq<Claim>)
    returns (r: Result<seq<int>, SplitError>)
    requires outstanding > 0
    ensures r == ItemsOutcome(outstanding, ps, items, claims)
  {
    if items == [] { return Failure(NotItemised); }
    if !ClaimsKnown(ps, items, claims) { return Failure(ClaimUnknown); }
    if !AllClaimed(items, claims) { return Failure(ClaimsIncomplete); }
    var weighed := AllocateWithZeros(outstanding, Subtotals(items));
    if weighed.Failure? { return Failure(weighed.error); }
    var perLine := weighed.value;
    ShareIsWhole(outstanding, Subtotals(items));
    var owed := CreditLines(ps, items, claims, perLine);
    if owed.None? { return Failure(ClaimsIncomplete); }
    var amounts := Listed(ps, owed.value);
    return Success(amounts);
  }

  method Listed(ps: seq<PersonId>, owed: map<PersonId, int>) returns (amounts: seq<int>)
    requires forall p :: p in ps ==> p in owed
    ensures amounts == Totals(ps, owed)
  {
    amounts := [];
    for i := 0 to |ps|
      invariant amounts == Totals(ps, owed)[..i]
    {
      amounts := amounts + [owed[ps[i]]];
    }
  }

  lemma LinesPayStep(ps: seq<PersonId>, items: seq<Item>, claims: seq<Claim>, perLine: seq<int>, i: nat)
    requires |perLine| == |items| && i < |items|
    ensures LinesPay(ps, items[..i + 1], claims, perLine[..i + 1])
         == Plus(LinesPay(ps, items[..i], claims, perLine[..i]),
                 LinePays(ps, ClaimsOn(claims, items[i].id),
                          Share(perLine[i], Units(ClaimsOn(claims, items[i].id), items[i]))))
  {
    assert items[..i + 1][..i] == items[..i] && perLine[..i + 1][..i] == perLine[..i];
  }

  ghost predicate MatchUpTo(items: seq<Item>, claims: seq<Claim>, n: nat)
    requires n <= |items|
  {
    forall i :: 0 <= i < n ==> UnitsMatch(items[i], claims)
  }

  lemma MatchNext(items: seq<Item>, claims: seq<Claim>, n: nat)
    requires n < |items| && MatchUpTo(items, claims, n)
    ensures MatchUpTo(items, claims, n + 1) == UnitsMatch(items[n], claims)
  {
  }

  /** Each line's money to the people on it; none when a line's units do not add up. */
  method CreditLines(ps: seq<PersonId>, items: seq<Item>, claims: seq<Claim>, perLine: seq<int>)
    returns (result: Option<map<PersonId, int>>)
    requires |perLine| == |items| && forall i :: 0 <= i < |items| ==> perLine[i] >= 0
    requires ClaimsKnown(ps, items, claims) && AllClaimed(items, claims)
    ensures result.None? <==> exists i :: 0 <= i < |items| && !UnitsMatch(items[i], claims)
    ensures result.Some? ==>
      && (forall p :: p in ps ==> p in result.value)
      && Totals(ps, result.value) == LinesPay(ps, items, claims, perLine)
  {
    var byItem := GroupByItem(items, claims);
    var owed: map<PersonId, int> := map p | p in ps :: 0;
    ghost var paid := Zeros(|ps|);
    for i := 0 to |items|
      invariant forall p :: p in ps <==> p in owed
      invariant MatchUpTo(items, claims, i)
      invariant paid == LinesPay(ps, items[..i], claims, perLine[..i])
      invariant Totals(ps, owed) == paid
    {
      var item, cs := items[i], byItem[items[i].id];
      var units, claimed := SumUnits(cs, item);
      MatchNext(items, claims, i);
      if claimed != item.quantity { return None; }
      owed := CreditItem(ps, owed, claims, item, cs, units, perLine[i]);
      LinesPayStep(ps, items, claims, perLine, i);
      paid := Plus(paid, LinePays(ps, cs, Share(perLine[i], units)));
    }
    assert items[..|items|] == items && perLine[..|items|] == perLine;
    return Some(owed);
  }

  method CreditItem(ghost ps: seq<PersonId>, was: map<PersonId, int>, ghost claims: seq<Claim>, ghost item: Item,
                    cs: seq<Claim>, units: seq<int>, money: nat)
    returns (owed: map<PersonId, int>)
    requires forall p :: p in ps <==> p in was
    requires cs == ClaimsOn(claims, item.id) && units == Units(cs, item) && cs != []
    requires forall c, p :: c in claims && p in c.people ==> p in ps
    ensures owed.Keys == was.Keys
    ensures Totals(ps, owed) == Plus(Totals(ps, was), LinePays(ps, cs, Share(money, units)))
  {
    ClaimsOnFacts(claims, item.id);
    UnitsPositive(cs, item);
    var perClaim := AllocateWithZeros(money, units);
    ShareIsWhole(money, units);
    forall c | 0 <= c < |cs| ensures cs[c].people != [] && forall p :: p in cs[c].people ==> p in was {
      assert cs[c] in cs && cs[c] in claims;
    }
    owed := CreditLine(ps, was, cs, perClaim.value);
  }

  function Ids(ps: seq<Participant>): (ids: seq<PersonId>)
    ensures |ids| == |ps| && forall i :: 0 <= i < |ps| ==> ids[i] == ps[i].id
  {
    seq(|ps|, i requires 0 <= i < |ps| => ps[i].id)
  }

  predicate DistinctIds(ps: seq<Participant>) {
    Distinct(Ids(ps))
  }

  function Stated(p: Participant): int { if p.amount.None? then 0 else p.amount.value }

  ghost function StatedAmounts(ps: seq<Participant>): (v: seq<int>)
    ensures |v| == |ps| && forall i :: 0 <= i < |ps| ==> v[i] == Stated(ps[i])
  {
    seq(|ps|, i requires 0 <= i < |ps| => Stated(ps[i]))
  }

  /** Whether the first `n` stated amounts are all owed rather than owing. */
  ghost predicate NoneNegative(ps: seq<Participant>, n: nat)
    requires n <= |ps|
  {
    n == 0 || (NoneNegative(ps, n - 1) && Stated(ps[n - 1]) >= 0)
  }

  lemma {:induction false} OneNegative(ps: seq<Participant>, n: nat, i: nat)
    requires i < n <= |ps| && Stated(ps[i]) < 0
    ensures !NoneNegative(ps, n)
  {
    if i < n - 1 {
      OneNegative(ps, n - 1, i);
    }
  }

  ghost function CustomOutcome(outstanding: nat, ps: seq<Participant>): (r: Result<seq<int>, SplitError>)
    ensures r.Success? ==> |r.value| == |ps| && Sum(r.value) == outstanding
  {
    if !NoneNegative(ps, |ps|) then Failure(ParticipantsInvalid)
    else if Sum(StatedAmounts(ps)) != outstanding then Failure(AmountMismatch)
    else Success(StatedAmounts(ps))
  }

  /** `allocateCustom`: the client's own amounts, refused rather than rounded into shape. */
  method AllocateCustom(outstanding: nat, ps: seq<Participant>) returns (r: Result<seq<int>, SplitError>)
    ensures r == CustomOutcome(outstanding, ps)
  {
    var amounts, submitted := [], 0;
    for i := 0 to |ps|
      invariant amounts == StatedAmounts(ps)[..i] && submitted == Sum(amounts)
      invariant NoneNegative(ps, i)
    {
      if Stated(ps[i]) < 0 {
        OneNegative(ps, |ps|, i);
        return Failure(ParticipantsInvalid);
      }
      SumPush(amounts, Stated(ps[i]));
      amounts := amounts + [Stated(ps[i])];
      submitted := submitted + Stated(ps[i]);
    }
    assert amounts == StatedAmounts(ps);
    if submitted != outstanding { return Failure(AmountMismatch); }
    return Success(amounts);
  }

  lemma SumOfOne(x: int)
    ensures Sum([x]) == x
  {
    assert [] + [x] == [x];
    SumPush([], x);
  }

  lemma EvenSplitIsExact(outstanding: nat, n: nat)
    requires n > 0
    ensures Sum(Share(outstanding, Ones(n))) == outstanding
  {
    OnesSum(n);
    ShareIsWhole(outstanding, Ones(n));
  }

  /** What each mode makes of a positive balance: it is handed out exactly, one amount a head. */
  ghost function ModeOutcome(outstanding: nat, items: seq<Item>, request: Request): (r: Result<seq<int>, SplitError>)
    requires request.participants != [] && DistinctIds(request.participants)
    ensures r.Success? ==> |r.value| == |request.participants| && Sum(r.value) == outstanding
  {
    var ps := request.participants;
    match request.mode
    case Full => SumOfOne(outstanding); if |ps| != 1 then Failure(ParticipantsInvalid) else Success([outstanding])
    case Equal => EvenSplitIsExact(outstanding, |ps|); Success(Share(outstanding, Ones(|ps|)))
    case Items => ItemsOutcome(outstanding, Ids(ps), items, request.claims)
    case Custom => CustomOutcome(outstanding, ps)
  }

  /** An accepted split of any mode adds up to what is left to pay, and only an unpaid balance is split. */
  ghost function PreviewOutcome(due: int, paid: int, items: seq<Item>, request: Request)
    : (r: Result<seq<int>, SplitError>)
    requires request.participants != []
    ensures r.Success? ==>
      |r.value| == |request.participants| && Sum(r.value) == due - paid && due > paid
  {
    if !DistinctIds(request.participants) then Failure(ParticipantsInvalid)
    else if due <= paid then Failure(NothingOutstanding)
    else ModeOutcome(due - paid, items, request)
  }

  /** `preview`. The request schema guarantees at least one participant. */
  method Preview(due: int, paid: int, items: seq<Item>, request: Request) returns (r: Result<seq<int>, SplitError>)
    requires request.participants != []
    ensures r == PreviewOutcome(due, paid, items, request)
  {
    hide ModeOutcome;
    if !DistinctIds(request.participants) { return Failure(ParticipantsInvalid); }
    var outstanding := due - paid;
    if outstanding <= 0 { return Failure(NothingOutstanding); }
    r := Divide(outstanding, items, request);
    assert r == PreviewOutcome(due, paid, items, request);
  }

  method Divide(outstanding: nat, items: seq<Item>, request: Request)
    returns (r: Result<seq<int>, SplitError>)
    requires outstanding > 0 && request.participants != [] && DistinctIds(request.participants)
    ensures r == ModeOutcome(outstanding, items, request)
  {
    match request.mode {
      case Full =>
        if |request.participants| != 1 { return Failure(ParticipantsInvalid); }
        return Success([outstanding]);
      case Equal => r := AllocateEvenly(outstanding, |request.participants|);
      case Items => r := AllocateByItems(outstanding, Ids(request.participants), items, request.claims);
      case Custom => r := AllocateCustom(outstanding, request.participants);
    }
  }

  method AllocateEvenly(outstanding: nat, n: nat) returns (r: Result<seq<int>, SplitError>)
    requires n > 0
    ensures r == Success(Share(outstanding, Ones(n)))
  {
    var ones := seq(n, _ => 1);
    OnesSum(n);
    assert ones == Ones(n) == Clamp(Ones(n));
    var even := Allocate(outstanding, ones);
    Unique(outstanding, ones, even.value, Division(outstanding, ones));
    return Success(even.value);
  }

  // ---- Nobody is owed ------------------------------------------------------

  predicate NonNegative(v: seq<int>) { forall i :: 0 <= i < |v| ==> v[i] >= 0 }

  lemma ShareNonNegative(money: int, w: seq<int>)
    ensures NonNegative(Share(money, w))
  {
    if money >= 0 && Sum(Clamp(w)) > 0 {
      forall i | 0 <= i < |w| ensures Share(money, w)[i] >= 0 {
        WithinOneUnit(money, Clamp(w), Division(money, Clamp(w)), i, Sum(Clamp(w)));
      }
    }
  }

  lemma {:induction false} SeatsPayNonNegative(ps: seq<PersonId>, people: seq<PersonId>, money: seq<int>)
    requires |money| == |people| && NonNegative(money)
    ensures NonNegative(SeatsPay(ps, people, money))
  {
    if people != [] {
      SeatsPayNonNegative(ps, people[..|people| - 1], money[..|people| - 1]);
    }
  }

  lemma {:induction false} LinePaysNonNegative(ps: seq<PersonId>, cs: seq<Claim>, money: seq<int>)
    requires |money| == |cs|
    ensures NonNegative(LinePays(ps, cs, money))
  {
    if cs != [] {
      var n := |cs| - 1;
      LinePaysNonNegative(ps, cs[..n], money[..n]);
      ShareNonNegative(money[n], Ones(|cs[n].people|));
      SeatsPayNonNegative(ps, cs[n].people, Share(money[n], Ones(|cs[n].people|)));
    }
  }

  lemma {:induction false} LinesPayNonNegative(ps: seq<PersonId>, items: seq<Item>, claims: seq<Claim>,
                                               perLine: seq<int>)
    requires |perLine| == |items|
    ensures NonNegative(LinesPay(ps, items, claims, perLine))
  {
    if items != [] {
      var n := |items| - 1;
      LinesPayNonNegative(ps, items[..n], claims, perLine[..n]);
      LinePaysNonNegative(ps, ClaimsOn(claims, items[n].id),
                          Share(perLine[n], Units(ClaimsOn(claims, items[n].id), items[n])));
    }
  }

  lemma {:induction false} StatedNonNegative(ps: seq<Participant>, n: nat)
    requires n <= |ps| && NoneNegative(ps, n)
    ensures forall i :: 0 <= i < n ==> Stated(ps[i]) >= 0
  {
    if n > 0 {
      StatedNonNegative(ps, n - 1);
    }
  }

  /** Whatever the mode, an accepted split asks nobody for less than nothing. */
  lemma PreviewIsNonNegative(due: int, paid: int, items: seq<Item>, request: Request)
    requires request.participants != [] && PreviewOutcome(due, paid, items, request).Success?
    ensures NonNegative(PreviewOutcome(due, paid, items, request).value)
  {
    var ps := request.participants;
    hide ItemsOutcome, CustomOutcome;
    match request.mode {
      case Full =>
      case Equal => ShareNonNegative(due - paid, Ones(|ps|));
      case Items => ItemsNonNegative(due - paid, Ids(ps), items, request.claims);
      case Custom => CustomNonNegative(due - paid, ps);
    }
  }

  lemma ItemsNonNegative(outstanding: nat, ps: seq<PersonId>, items: seq<Item>, claims: seq<Claim>)
    requires ItemsOutcome(outstanding, ps, items, claims).Success?
    ensures NonNegative(ItemsOutcome(outstanding, ps, items, claims).value)
  {
    LinesPayNonNegative(ps, items, claims, Share(outstanding, Subtotals(items)));
  }

  lemma CustomNonNegative(outstanding: nat, ps: seq<Participant>)
    requires CustomOutcome(outstanding, ps).Success?
    ensures NonNegative(CustomOutcome(outstanding, ps).value)
  {
    StatedNonNegative(ps, |ps|);
  }

  /** EQUAL shares differ by at most one céntimo, the earlier participants taking the odd ones. */
  lemma EqualSharesAreEven(outstanding: nat, n: nat, i: nat, j: nat)
    requires i < j < n
    ensures var v := Share(outstanding, Ones(n)); v[j] <= v[i] <= v[j] + 1
  {
    OnesSum(n);
    assert Clamp(Ones(n)) == Ones(n);
    OrderPreserving(outstanding, Ones(n), Share(outstanding, Ones(n)), i, j);
  }
}
