/**
 * What a preview answers, mode by mode, in terms of the bill and the request alone
 * (`preview` in src/services/splitEngine.js).
 */
module SplitPreview {
  import opened Wrappers
  import opened LargestRemainder
  import opened Apportion
  import opened SplitEngine

  /** The same participant named twice. */
  predicate NamesTwice(ps: seq<Participant>) { exists i, j :: 0 <= i < j < |ps| && ps[i].id == ps[j].id }

  lemma DistinctMeansOnce(ps: seq<Participant>)
    ensures DistinctIds(ps) <==> !NamesTwice(ps)
  {
    var ids := Ids(ps);
    assert forall i :: 0 <= i < |ps| ==> ids[i] == ps[i].id;
  }

  // ---- What an accepted preview hands out ----------------------------------

  /** FULL: one participant owes the balance. */
  lemma FullIsTheBalance(due: int, paid: int, items: seq<Item>, request: Request)
    requires request.participants != [] && request.mode == Full
    requires PreviewOutcome(due, paid, items, request).Success?
    ensures |request.participants| == 1 && PreviewOutcome(due, paid, items, request).value == [due - paid]
  {
  }

  /** EQUAL: nobody owes more than a céntimo above another, and the odd céntimos fall to the first. */
  lemma EqualIsEven(due: int, paid: int, items: seq<Item>, request: Request, i: nat, j: nat)
    requires request.participants != [] && request.mode == Equal
    requires PreviewOutcome(due, paid, items, request).Success? && i < j < |request.participants|
    ensures var v := PreviewOutcome(due, paid, items, request).value;
            Sum(v) == due - paid && v[j] <= v[i] <= v[j] + 1
  {
    hide Share;
    EqualSharesAreEven(due - paid, |request.participants|, i, j);
  }

  /** CUSTOM: everyone owes what they said, and nothing where they said nothing. */
  lemma CustomIsAsStated(due: int, paid: int, items: seq<Item>, request: Request, i: nat)
    requires request.participants != [] && request.mode == Custom
    requires PreviewOutcome(due, paid, items, request).Success? && i < |request.participants|
    ensures var said := request.participants[i].amount;
            PreviewOutcome(due, paid, items, request).value[i] == (if said.Some? then said.value else 0)
  {
  }

  /** ITEMS: everyone owes their exact share by subtotal, units and heads, within three céntimos a seat. */
  lemma ItemsIsFair(due: int, paid: int, items: seq<Item>, request: Request, j: nat)
    requires request.participants != [] && request.mode == Items
    requires PreviewOutcome(due, paid, items, request).Success? && j < |request.participants|
    ensures items != [] && Sum(Clamp(Subtotals(items))) > 0
    ensures var p := request.participants[j].id;
            Near(PreviewOutcome(due, paid, items, request).value[j],
                 ExactShare(p, items, request.claims, (due - paid) as real, Sum(Clamp(Subtotals(items)))),
                 SeatsOf(p, items, request.claims))
  {
    hide ItemsSplit, Near, ExactShare, SeatsOf, AllClaimed, ClaimsKnown, UnitsMatch;
    ItemsSplitIsFair(due - paid, Ids(request.participants), items, request.claims, j);
  }

  // ---- What is refused, and with what --------------------------------------

  predicate UnknownClaim(items: seq<Item>, ps: seq<Participant>, c: Claim) {
    || (forall i :: 0 <= i < |items| ==> items[i].id != c.itemId)
    || (exists p :: p in c.people && forall j :: 0 <= j < |ps| ==> ps[j].id != p)
  }

  predicate NobodyClaims(claims: seq<Claim>, item: Item) {
    forall c :: c in claims && c.itemId == item.id ==> c.people == []
  }

  /** The units of a line that somebody claims; a claim that states none is of the whole line. */
  function ClaimedUnits(claims: seq<Claim>, item: Item): nat {
    if claims == [] then 0
    else
      var c := claims[|claims| - 1];
      ClaimedUnits(claims[..|claims| - 1], item)
        + if c.itemId == item.id && c.people != [] then if c.quantity.None? then item.quantity else c.quantity.value
          else 0
  }

  lemma UnknownMeansNotKnown(items: seq<Item>, ps: seq<Participant>, claims: seq<Claim>)
    ensures ClaimsKnown(Ids(ps), items, claims) <==> forall c :: c in claims ==> !UnknownClaim(items, ps, c)
  {
    var ids := Ids(ps);
    forall c | c in claims
      ensures !UnknownClaim(items, ps, c) <==>
                (exists i :: 0 <= i < |items| && items[i].id == c.itemId) && forall p :: p in c.people ==> p in ids
    {
      forall p | p in c.people ensures p in ids <==> !(forall j :: 0 <= j < |ps| ==> ps[j].id != p) {
        assert p in ids ==> exists j :: 0 <= j < |ids| && ids[j] == p && ps[j].id == p;
        assert forall j :: 0 <= j < |ps| ==> ids[j] == ps[j].id && ids[j] in ids;
      }
    }
  }

  lemma ClaimedMeansSomebody(items: seq<Item>, claims: seq<Claim>)
    ensures AllClaimed(items, claims) <==> forall i :: 0 <= i < |items| ==> !NobodyClaims(claims, items[i])
  {
    forall i | 0 <= i < |items| ensures ClaimsOn(claims, items[i].id) != [] <==> !NobodyClaims(claims, items[i]) {
      var on := ClaimsOn(claims, items[i].id);
      ClaimsOnFacts(claims, items[i].id);
      if on != [] {
        assert on[0] in on;
      }
    }
  }

  lemma {:induction false} UnitsAreClaimed(claims: seq<Claim>, item: Item)
    ensures Sum(Units(ClaimsOn(claims, item.id), item)) == ClaimedUnits(claims, item)
  {
    if claims != [] {
      var n := |claims| - 1;
      var before, on := ClaimsOn(claims[..n], item.id), ClaimsOn(claims, item.id);
      UnitsAreClaimed(claims[..n], item);
      if on != before {
        assert on == before + [claims[n]];
        assert Units(on, item) == Units(before, item) + [UnitsOf(claims[n], item)];
        SumPush(Units(before, item), UnitsOf(claims[n], item));
      }
    }
  }

  lemma PricelessMeansNoWeight(items: seq<Item>)
    ensures Sum(Clamp(Subtotals(items))) <= 0 <==> forall i :: 0 <= i < |items| ==> items[i].subtotal <= 0
  {
    var w := Clamp(Subtotals(items));
    SumNonNegative(w);
    if forall i :: 0 <= i < |items| ==> items[i].subtotal <= 0 {
      SumConstant(w, 0);
    } else {
      var i :| 0 <= i < |items| && items[i].subtotal > 0;
      assert w[i] > 0;
    }
  }

  /** Why an ITEMS split of a positive balance is refused, in the order in which the reasons are looked for. */
  ghost function ItemsRefusal(items: seq<Item>, ps: seq<Participant>, claims: seq<Claim>): Option<SplitError> {
    if items == [] then Some(NotItemised)
    else if exists c :: c in claims && UnknownClaim(items, ps, c) then Some(ClaimUnknown)
    else if exists i :: 0 <= i < |items| && NobodyClaims(claims, items[i]) then Some(ClaimsIncomplete)
    else if forall i :: 0 <= i < |items| ==> items[i].subtotal <= 0 then Some(ParticipantsInvalid)
    else if exists i :: 0 <= i < |items| && ClaimedUnits(claims, items[i]) != items[i].quantity then
      Some(ClaimsIncomplete)
    else None
  }

  function Said(p: Participant): int { if p.amount.Some? then p.amount.value else 0 }

  /** What the participants say they will pay, added up. */
  function SaidTogether(ps: seq<Participant>): int {
    if ps == [] then 0 else SaidTogether(ps[..|ps| - 1]) + Said(ps[|ps| - 1])
  }

  ghost function Refusal(due: int, paid: int, items: seq<Item>, request: Request): Option<SplitError> {
    var ps := request.participants;
    if NamesTwice(ps) then Some(ParticipantsInvalid)
    else if due <= paid then Some(NothingOutstanding)
    else
      match request.mode
      case Full => if |ps| != 1 then Some(ParticipantsInvalid) else None
      case Equal => None
      case Items => ItemsRefusal(items, ps, request.claims)
      case Custom =>
        if exists i :: 0 <= i < |ps| && Said(ps[i]) < 0 then Some(ParticipantsInvalid)
        else if SaidTogether(ps) != due - paid then Some(AmountMismatch)
        else None
  }

  lemma {:induction false} SaidIsStated(ps: seq<Participant>)
    ensures Sum(StatedAmounts(ps)) == SaidTogether(ps)
  {
    if ps != [] {
      var n := |ps| - 1;
      SaidIsStated(ps[..n]);
      assert StatedAmounts(ps) == StatedAmounts(ps[..n]) + [Stated(ps[n])];
      SumPush(StatedAmounts(ps[..n]), Stated(ps[n]));
    }
  }

  lemma {:induction false} NoneNegativeMeans(ps: seq<Participant>, n: nat)
    requires n <= |ps|
    ensures NoneNegative(ps, n) <==> forall i :: 0 <= i < n ==> Said(ps[i]) >= 0
  {
    if n > 0 {
      NoneNegativeMeans(ps, n - 1);
    }
  }

  lemma CustomRefusals(outstanding: nat, ps: seq<Participant>)
    ensures CustomOutcome(outstanding, ps) ==
              if exists i :: 0 <= i < |ps| && Said(ps[i]) < 0 then Failure(ParticipantsInvalid)
              else if SaidTogether(ps) != outstanding then Failure(AmountMismatch)
              else Success(StatedAmounts(ps))
  {
    NoneNegativeMeans(ps, |ps|);
    SaidIsStated(ps);
  }

  lemma ItemsRefusals(outstanding: nat, items: seq<Item>, ps: seq<Participant>, claims: seq<Claim>)
    ensures var why := ItemsRefusal(items, ps, claims);
            if why.Some? then ItemsOutcome(outstanding, Ids(ps), items, claims) == Failure(why.value)
            else ItemsOutcome(outstanding, Ids(ps), items, claims).Success?
  {
    hide ClaimsKnown, AllClaimed, UnknownClaim, NobodyClaims, ItemsSplit;
    UnknownMeansNotKnown(items, ps, claims);
    ClaimedMeansSomebody(items, claims);
    PricelessMeansNoWeight(items);
    forall i | 0 <= i < |items|
      ensures UnitsMatch(items[i], claims) <==> ClaimedUnits(claims, items[i]) == items[i].quantity
    {
      UnitsAreClaimed(claims, items[i]);
    }
    hide UnitsMatch, ClaimedUnits;
  }

  /** A preview is refused for the first of these reasons that holds, and is accepted when none does. */
  lemma RefusedExactlyFor(due: int, paid: int, items: seq<Item>, request: Request)
    requires request.participants != []
    ensures var r, why := PreviewOutcome(due, paid, items, request), Refusal(due, paid, items, request);
            if why.Some? then r == Failure(why.value) else r.Success?
  {
    hide NamesTwice, ItemsOutcome, CustomOutcome, ItemsRefusal, Share;
    DistinctMeansOnce(request.participants);
    if due > paid {
      ItemsRefusals(due - paid, items, request.participants, request.claims);
      CustomRefusals(due - paid, request.participants);
    }
  }
}
