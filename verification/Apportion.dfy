/**
 * Dividing only among those with a positive weight.
 *
 * Both callers of the allocator hold the weightless entries out, divide among
 * the rest, and put the parts back where they came from. `PickIsAllocation`
 * shows that this is the same division as keeping them in at weight zero.
 */
module Apportion {
  import opened LargestRemainder

  function Positive(x: int): nat { if x > 0 then x else 0 }

  /** Weights as the engine counts them: what is not positive contributes nothing. */
  function Clamp(w: seq<int>): (c: seq<int>)
    ensures |c| == |w| && forall i :: 0 <= i < |w| ==> c[i] == Positive(w[i])
  {
    seq(|w|, i requires 0 <= i < |w| => Positive(w[i]))
  }

  /** The entries of `s` whose weight is positive, in order. */
  ghost function Pick(w: seq<int>, s: seq<int>): seq<int>
    requires |s| == |w|
  {
    if w == [] then []
    else
      var n := |w| - 1;
      Pick(w[..n], s[..n]) + if w[n] > 0 then [s[n]] else []
  }

  /** The positions `Pick` keeps. */
  ghost function Kept(w: seq<int>): seq<nat> {
    if w == [] then []
    else
      var n := |w| - 1;
      Kept(w[..n]) + if w[n] > 0 then [n] else []
  }

  lemma {:induction false} PickByPosition(w: seq<int>, s: seq<int>)
    requires |s| == |w|
    ensures |Pick(w, s)| == |Kept(w)|
    ensures forall i :: 0 <= i < |Kept(w)| ==>
      Kept(w)[i] < |w| && w[Kept(w)[i]] > 0 && Pick(w, s)[i] == s[Kept(w)[i]]
    ensures forall i, j :: 0 <= i < j < |Kept(w)| ==> Kept(w)[i] < Kept(w)[j]
  {
    if w != [] {
      PickByPosition(w[..|w| - 1], s[..|w| - 1]);
    }
  }

  lemma {:induction false} SumOfPick(w: seq<int>, s: seq<int>)
    requires |s| == |w| && forall i :: 0 <= i < |w| && w[i] <= 0 ==> s[i] == 0
    ensures Sum(Pick(w, s)) == Sum(s)
  {
    if w != [] {
      var n := |w| - 1;
      SumOfPick(w[..n], s[..n]);
      if w[n] > 0 {
        SumPush(Pick(w[..n], s[..n]), s[n]);
      } else {
        assert Pick(w, s) == Pick(w[..n], s[..n]);
      }
    }
  }

  lemma TopsUpAtPositions(total: int, q: seq<int>, r: seq<int>, parts: seq<int>, k: seq<nat>,
                          q': seq<int>, r': seq<int>, parts': seq<int>)
    requires TopsUp(total, q, r, parts)
    requires |q'| == |r'| == |parts'| == |k| && Sum(parts') == total
    requires forall i :: 0 <= i < |k| ==> k[i] < |q|
    requires forall i, j :: 0 <= i < j < |k| ==> k[i] < k[j]
    requires forall i :: 0 <= i < |k| ==> q'[i] == q[k[i]] && r'[i] == r[k[i]] && parts'[i] == parts[k[i]]
    ensures TopsUp(total, q', r', parts')
  {
    forall i, j | 0 <= i < |q'| && 0 <= j < |q'| && parts'[i] == q'[i] + 1 && parts'[j] == q'[j]
      ensures Before(r', i, j)
    {
      assert Before(r, k[i], k[j]);
    }
  }

  /** Leaving the weightless out of a division does not change anyone else's part. */
  lemma PickIsAllocation(total: nat, w: seq<int>, parts: seq<int>)
    requires Weights(Clamp(w)) && IsAllocation(total, Clamp(w), parts)
    ensures Weights(Pick(w, Clamp(w))) && IsAllocation(total, Pick(w, Clamp(w)), Pick(w, parts))
    ensures forall i :: 0 <= i < |w| && w[i] <= 0 ==> parts[i] == 0
  {
    var c, k := Clamp(w), Kept(w);
    forall i | 0 <= i < |w| && w[i] <= 0 ensures parts[i] == 0 {
      NoWeightNoPart(total, c, parts, i);
    }
    SumOfPick(w, c);
    SumOfPick(w, parts);
    PickByPosition(w, c);
    PickByPosition(w, parts);
    var cw := Pick(w, c);
    assert Weights(cw);
    forall i | 0 <= i < |k|
      ensures Quotas(Scaled(total, cw), Sum(cw))[i] == Quotas(Scaled(total, c), Sum(c))[k[i]]
      ensures Remainders(Scaled(total, cw), Sum(cw))[i] == Remainders(Scaled(total, c), Sum(c))[k[i]]
    {
      SameFloor(total, cw, i, c, k[i]);
    }
    TopsUpAtPositions(total, Quotas(Scaled(total, c), Sum(c)), Remainders(Scaled(total, c), Sum(c)), parts, k,
                      Quotas(Scaled(total, cw), Sum(cw)), Remainders(Scaled(total, cw), Sum(cw)), Pick(w, parts));
  }

  /** Puts the parts back at the positions they were picked from. */
  method Scatter(weights: seq<int>, positions: seq<nat>, parts: seq<int>, ghost whole: seq<int>)
    returns (result: seq<int>)
    requires positions == Kept(weights) && |whole| == |weights| && parts == Pick(weights, whole)
    requires forall i :: 0 <= i < |weights| && weights[i] <= 0 ==> whole[i] == 0
    ensures result == whole
  {
    PickByPosition(weights, whole);
    result := seq(|weights|, _ => 0);
    for i := 0 to |positions|
      invariant |result| == |weights|
      invariant forall k :: 0 <= k < i ==> result[positions[k]] == whole[positions[k]]
      invariant forall k :: 0 <= k < |result| ==> result[k] == 0 || result[k] == whole[k]
    {
      result := result[positions[i] := parts[i]];
    }
    forall k | 0 <= k < |result| ensures result[k] == whole[k] {
      if weights[k] > 0 {
        KeptAll(weights, k);
      }
    }
  }

  /** Holds the entries without a positive weight out of the division. */
  method Contributing(weights: seq<int>) returns (contributing: seq<nat>, kept: seq<int>)
    ensures contributing == Kept(weights) && kept == Pick(weights, Clamp(weights))
    ensures |kept| == |contributing| && forall i :: 0 <= i < |kept| ==> kept[i] > 0
    ensures Sum(kept) == Sum(Clamp(weights)) && (kept != [] ==> Sum(kept) > 0)
  {
    ghost var c := Clamp(weights);
    contributing, kept := [], [];
    for i := 0 to |weights|
      invariant contributing == Kept(weights[..i]) && kept == Pick(weights[..i], c[..i])
    {
      assert weights[..i + 1][..i] == weights[..i] && c[..i + 1][..i] == c[..i];
      if weights[i] > 0 {
        contributing := contributing + [i];
        kept := kept + [weights[i]];
      }
    }
    assert weights[..|weights|] == weights && c[..|weights|] == c;
    SumOfPick(weights, c);
    PickByPosition(weights, c);
    if kept != [] {
      SumPositive(kept);
    }
  }

  /** Holds out the weightless, divides, and puts everything back in place. */
  method AmongPositive(total: nat, weights: seq<int>) returns (result: seq<int>)
    requires Sum(Clamp(weights)) > 0
    ensures result == Division(total, Clamp(weights))
  {
    var contributing, kept := Contributing(weights);
    ghost var whole := Division(total, Clamp(weights));
    var placed := Allocate(total, kept);
    PickIsAllocation(total, weights, whole);
    Unique(total, kept, placed.value, Pick(weights, whole));
    result := Scatter(weights, contributing, placed.value, whole);
  }

  lemma SumPositive(s: seq<int>)
    requires s != [] && forall i :: 0 <= i < |s| ==> s[i] > 0
    ensures Sum(s) > 0
  {
    SumNonNegative(s);
    assert s[0] > 0;
  }

  lemma {:induction false} KeptAll(w: seq<int>, k: nat)
    requires k < |w| && w[k] > 0
    ensures exists j :: 0 <= j < |Kept(w)| && Kept(w)[j] == k
  {
    var n := |w| - 1;
    if k == n {
      assert Kept(w)[|Kept(w)| - 1] == k;
    } else {
      KeptAll(w[..n], k);
      var j :| 0 <= j < |Kept(w[..n])| && Kept(w[..n])[j] == k;
      assert Kept(w)[j] == k;
    }
  }
}
