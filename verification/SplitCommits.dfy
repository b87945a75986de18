/**
 * What each COMMIT writes, and why the tables stay sound under it.
 */
module SplitCommits {
  import opened Wrappers
  import LargestRemainder
  import SplitEngine
  import opened SplitState
  import opened SplitSafety

  // ---- Sums ----------------------------------------------------------------

  lemma SettledPush(payments: seq<Payment>, payment: Payment, x: nat)
    ensures Settled(payments + [payment], x) == Settled(payments, x) + Counts(payment, x)
  {
    assert (payments + [payment])[..|payments|] == payments;
  }

  lemma {:induction false} SettledUpdate(payments: seq<Payment>, i: nat, payment: Payment, x: nat)
    requires i < |payments|
    ensures Settled(payments[i := payment], x) == Settled(payments, x) - Counts(payments[i], x) + Counts(payment, x)
  {
    var n := |payments| - 1;
    if i < n {
      assert payments[i := payment][..n] == payments[..n][i := payment];
      SettledUpdate(payments[..n], i, payment, x);
    } else {
      assert payments[i := payment][..n] == payments[..n];
    }
  }

  lemma {:induction false} UnknownIsUnsettled(payments: seq<Payment>, x: nat)
    requires forall i :: 0 <= i < |payments| ==> payments[i].share != Some(x)
    ensures Settled(payments, x) == 0
  {
    if payments != [] {
      UnknownIsUnsettled(payments[..|payments| - 1], x);
    }
  }

  lemma {:induction false} PaidIntoSame(was: map<nat, Share>, now: map<nat, Share>, members: seq<nat>)
    requires forall i :: 0 <= i < |members| ==>
               members[i] in was && members[i] in now && now[members[i]].paid == was[members[i]].paid
    ensures PaidInto(now, members) == PaidInto(was, members)
  {
    if members != [] {
      PaidIntoSame(was, now, members[..|members| - 1]);
    }
  }

  lemma {:induction false} NothingPaidInto(shares: map<nat, Share>, members: seq<nat>)
    requires forall i :: 0 <= i < |members| ==> members[i] in shares && shares[members[i]].paid == 0
    ensures PaidInto(shares, members) == 0
  {
    if members != [] {
      NothingPaidInto(shares, members[..|members| - 1]);
    }
  }

  lemma {:induction false} PaidIntoCredit(shares: map<nat, Share>, x: nat, amount: nat, members: seq<nat>)
    requires x in shares && forall i, j :: 0 <= i < j < |members| ==> members[i] != members[j]
    ensures PaidInto(Credit(shares, x, amount), members)
         == PaidInto(shares, members) + if x in members then amount else 0
  {
    if members != [] {
      var n := |members| - 1;
      PaidIntoCredit(shares, x, amount, members[..n]);
      assert members == members[..n] + [members[n]];
    }
  }

  // ---- Rows that were there ------------------------------------------------

  lemma NonePendingStays(d: Tables, e: Tables, l: Locks, p: nat, mine: Proc, n: nat, members: seq<nat>)
    requires Moves(d, e, l, p, mine) && n <= |d.payments| && !AnyPending(d.payments[..n], members)
    ensures !AnyPending(e.payments[..n], members)
  {
    forall i | 0 <= i < n ensures !NamesOne(e.payments[..n][i], members) {
      assert PaymentMoves(d, e, l, p, i);
      assert !NamesOne(d.payments[..n][i], members);
    }
  }

  /** Whatever commits, a split keeps its terms and its engine-made amounts. */
  lemma SplitStays(d: Tables, e: Tables, l: Locks, p: nat, mine: Proc, k: nat)
    requires Moves(d, e, l, p, mine) && k in d.splits && SplitOk(d, k)
    ensures k in e.splits && SplitOk(e, k)
  {
    assert SplitMoves(d, e, l, p, k);
    var members := d.splits[k].members;
    forall i | 0 <= i < |members| ensures ShareMoves(d, e, l, p, members[i]) {
    }
    assert Amounts(e.shares, members) == Amounts(d.shares, members);
    if e.splits[k].status == VOID {
      assert d.payments[..|d.payments|] == d.payments;
      NonePendingStays(d, e, l, p, mine, e.splits[k].voidedAt, members);
    }
  }

  /** What a live split needs of a commit: no edit of its bill, and its shares credited as its bill is. */
  predicate Balanced(d: Tables, e: Tables, k: nat)
    requires k in d.splits
  {
    var b := d.splits[k].bill;
    && b in d.bills && b in e.bills && e.bills[b].edits == d.bills[b].edits
    && PaidInto(e.shares, d.splits[k].members) - PaidInto(d.shares, d.splits[k].members)
       == e.bills[b].shared - d.bills[b].shared
  }

  lemma LiveStaysCurrent(d: Tables, e: Tables, l: Locks, p: nat, mine: Proc, k: nat)
    requires Moves(d, e, l, p, mine) && k in d.splits && LiveOk(d, k)
    requires k in e.splits && (e.splits[k].status == ACTIVE ==> Balanced(d, e, k))
    ensures LiveOk(e, k)
  {
    assert SplitMoves(d, e, l, p, k);
    if e.splits[k].status == ACTIVE {
      assert BillMoves(d, e, l, p, d.splits[k].bill);
    }
  }

  /** All that is left to show of a commit, once it is known to move only what it has locked. */
  ghost predicate Fresh(d: Tables, e: Tables) {
    && (forall k :: k in d.splits && k in e.splits && e.splits[k].status == ACTIVE ==> Balanced(d, e, k))
    && (forall k :: k in e.splits && k !in d.splits ==> SplitOk(e, k) && LiveOk(e, k))
    && (forall x :: x in e.shares ==> ShareOk(e, x))
    && (forall i :: 0 <= i < |e.payments| ==> PaymentOk(e, e.payments[i]))
    && (forall b :: b in e.bills ==> Paid(e.bills[b]) <= e.bills[b].due)
  }

  lemma TablesStayOk(d: Tables, e: Tables, l: Locks, p: nat, mine: Proc)
    requires TablesOk(d) && Moves(d, e, l, p, mine) && Fresh(d, e)
    ensures TablesOk(e)
  {
    forall k | k in e.splits ensures SplitOk(e, k) && LiveOk(e, k) {
      if k in d.splits {
        assert SplitOk(d, k) && LiveOk(d, k);
        SplitStays(d, e, l, p, mine, k);
        LiveStaysCurrent(d, e, l, p, mine, k);
      }
    }
  }

  // ---- Money that arrives --------------------------------------------------

  /** The ledger with one more settled payment in it. */
  ghost predicate Recorded(d: Tables, l: Locks, p: nat, payments: seq<Payment>, x: Option<nat>, amount: nat) {
    && |d.payments| <= |payments|
    && (forall i :: 0 <= i < |payments| ==> PaymentOk(d, payments[i]))
    && (forall i :: 0 <= i < |d.payments| ==>
          payments[i] == d.payments[i] || (Has(l.payments, i, p) && payments[i].status != PENDING))
    && (forall i :: |d.payments| <= i < |payments| ==> payments[i].status != PENDING)
    && (forall y: nat :: Settled(payments, y) == Settled(d.payments, y) + if x == Some(y) then amount else 0)
  }

  lemma ReceiptMoves(d: Tables, l: Locks, p: nat, mine: Proc, payments: seq<Payment>, b: nat, x: Option<nat>,
                     amount: nat)
    requires MayReceive(d, l, p, b, x, amount) && Recorded(d, l, p, payments, x, amount)
    ensures Moves(d, Receive(d, payments, b, x, amount), l, p, mine)
  {
    hide ShareMoves, BillMoves, MayReceive;
    ReceiptMovesBills(d, l, p, payments, b, x, amount);
    ReceiptMovesShares(d, l, p, payments, b, x, amount);
  }

  lemma ReceiptMovesBills(d: Tables, l: Locks, p: nat, payments: seq<Payment>, b: nat, x: Option<nat>, amount: nat)
    requires MayReceive(d, l, p, b, x, amount)
    ensures forall c :: c in d.bills ==> BillMoves(d, Receive(d, payments, b, x, amount), l, p, c)
  {
  }

  lemma ReceiptMovesShares(d: Tables, l: Locks, p: nat, payments: seq<Payment>, b: nat, x: Option<nat>, amount: nat)
    requires MayReceive(d, l, p, b, x, amount)
    ensures forall y :: y in d.shares ==> ShareMoves(d, Receive(d, payments, b, x, amount), l, p, y)
    ensures Receive(d, payments, b, x, amount).shares.Keys == d.shares.Keys
  {
  }

  lemma ReceiptOnShare(d: Tables, l: Locks, p: nat, payments: seq<Payment>, b: nat, x: Option<nat>, amount: nat, y: nat)
    requires MayReceive(d, l, p, b, x, amount) && Recorded(d, l, p, payments, x, amount) && y in d.shares
    requires ShareOk(d, y)
    ensures ShareOk(Receive(d, payments, b, x, amount), y)
  {
    hide Settled;
  }

  lemma ReceiptIsBalanced(d: Tables, l: Locks, p: nat, payments: seq<Payment>, b: nat, x: Option<nat>, amount: nat,
                          k: nat)
    requires TablesOk(d) && OneLive(d) && MayReceive(d, l, p, b, x, amount)
    requires k in d.splits && d.splits[k].status == ACTIVE
    ensures Balanced(d, Receive(d, payments, b, x, amount), k)
  {
    assert SplitOk(d, k) && LiveOk(d, k) && IsLive(d, k, d.splits[k].bill);
    var members := d.splits[k].members;
    if x.Some? {
      assert ShareOk(d, x.value);
      PaidIntoCredit(d.shares, x.value, amount, members);
      assert x.value in members <==> d.shares[x.value].split == k;
    }
  }

  lemma ReceiptIsSound(d: Tables, l: Locks, p: nat, mine: Proc, payments: seq<Payment>, b: nat, x: Option<nat>,
                       amount: nat)
    requires TablesOk(d) && OneLive(d) && MayReceive(d, l, p, b, x, amount) && Recorded(d, l, p, payments, x, amount)
    ensures var e := Receive(d, payments, b, x, amount); TablesOk(e) && OneLive(e) && Moves(d, e, l, p, mine)
  {
    hide Balanced, ShareOk, Recorded, MayReceive, TablesOk, OneLive, Moves;
    var e := Receive(d, payments, b, x, amount);
    ReceiptMoves(d, l, p, mine, payments, b, x, amount);
    forall k | k in d.splits && d.splits[k].status == ACTIVE ensures Balanced(d, e, k) {
      ReceiptIsBalanced(d, l, p, payments, b, x, amount, k);
    }
    ReceiptKeepsRows(d, l, p, payments, b, x, amount);
    forall y | y in e.shares ensures ShareOk(e, y) {
      KnownShare(d, y);
      ReceiptOnShare(d, l, p, payments, b, x, amount, y);
    }
    TablesStayOk(d, e, l, p, mine);
  }

  lemma ReceiptKeepsRows(d: Tables, l: Locks, p: nat, payments: seq<Payment>, b: nat, x: Option<nat>, amount: nat)
    requires TablesOk(d) && OneLive(d) && MayReceive(d, l, p, b, x, amount) && Recorded(d, l, p, payments, x, amount)
    ensures var e := Receive(d, payments, b, x, amount);
            && OneLive(e) && e.splits == d.splits && e.shares.Keys == d.shares.Keys
            && (forall i :: 0 <= i < |e.payments| ==> PaymentOk(e, e.payments[i]))
            && (forall c :: c in e.bills ==> Paid(e.bills[c]) <= e.bills[c].due)
  {
    hide Settled;
    var e := Receive(d, payments, b, x, amount);
    assert e.bills.Keys == d.bills.Keys;
    assert forall k: nat, c: nat :: IsLive(e, k, c) ==> IsLive(d, k, c);
  }

  lemma RecordIsReceipt(d: Tables, l: Locks, p: nat, payment: Payment)
    requires TablesOk(d) && PaymentOk(d, payment) && payment.status == SUCCEEDED
    ensures Recorded(d, l, p, d.payments + [payment], payment.share, payment.amount)
  {
    forall y: nat
      ensures Settled(d.payments + [payment], y)
           == Settled(d.payments, y) + if payment.share == Some(y) then payment.amount else 0
    {
      SettledPush(d.payments, payment, y);
    }
  }

  lemma SettlingIsReceipt(d: Tables, l: Locks, p: nat, i: nat, x: Option<nat>)
    requires TablesOk(d) && i < |d.payments| && Has(l.payments, i, p) && d.payments[i].status == PENDING
    requires x.Some? ==> x == d.payments[i].share
    ensures Recorded(d, l, p, d.payments[i := d.payments[i].(status := SUCCEEDED, share := x)], x, d.payments[i].amount)
  {
    hide SplitOk, LiveOk, ShareOk, Settled;
    var now := d.payments[i].(status := SUCCEEDED, share := x);
    assert PaymentOk(d, d.payments[i]);
    forall y: nat
      ensures Settled(d.payments[i := now], y) == Settled(d.payments, y) + if x == Some(y) then now.amount else 0
    {
      SettledUpdate(d.payments, i, now, y);
    }
  }

  // ---- The other commits ---------------------------------------------------

  /** A claim declared, or one that failed: nothing is settled by either. */
  lemma NothingSettled(d: Tables, l: Locks, p: nat, mine: Proc, payments: seq<Payment>)
    requires TablesOk(d) && OneLive(d) && Moves(d, d.(payments := payments), l, p, mine)
    requires forall i :: 0 <= i < |payments| ==> PaymentOk(d, payments[i])
    requires forall y: nat :: Settled(payments, y) == Settled(d.payments, y)
    ensures TablesOk(d.(payments := payments)) && OneLive(d.(payments := payments))
  {
    hide Moves, EngineMade, AllThere, NonePendingBefore, Settled;
    var e := d.(payments := payments);
    forall k | k in d.splits && e.splits[k].status == ACTIVE ensures Balanced(d, e, k) {
      assert LiveOk(d, k);
    }
    forall y | y in e.shares ensures ShareOk(e, y) {
      assert ShareOk(d, y);
    }
    assert forall k: nat, c: nat :: IsLive(e, k, c) ==> IsLive(d, k, c);
    TablesStayOk(d, e, l, p, mine);
  }

  lemma DeclareIsSound(d: Tables, l: Locks, p: nat, mine: Proc, payment: Payment)
    requires TablesOk(d) && OneLive(d) && PaymentOk(d, payment) && payment.status == PENDING
    requires payment.share.Some? ==> Has(l.shareKeys, p, payment.share.value)
    ensures var e := d.(payments := d.payments + [payment]); TablesOk(e) && OneLive(e) && Moves(d, e, l, p, mine)
  {
    forall y: nat ensures Settled(d.payments + [payment], y) == Settled(d.payments, y) {
      SettledPush(d.payments, payment, y);
    }
    DeclareMoves(d, l, p, mine, payment);
    NothingSettled(d, l, p, mine, d.payments + [payment]);
  }

  lemma DeclareMoves(d: Tables, l: Locks, p: nat, mine: Proc, payment: Payment)
    requires payment.status == PENDING && (payment.share.Some? ==> Has(l.shareKeys, p, payment.share.value))
    ensures Moves(d, d.(payments := d.payments + [payment]), l, p, mine)
  {
  }

  lemma FailIsSound(d: Tables, l: Locks, p: nat, mine: Proc, i: nat)
    requires TablesOk(d) && OneLive(d) && i < |d.payments| && Has(l.payments, i, p) && d.payments[i].status == PENDING
    ensures var e := d.(payments := d.payments[i := d.payments[i].(status := FAILED)]);
            TablesOk(e) && OneLive(e) && Moves(d, e, l, p, mine)
  {
    var now := d.payments[i].(status := FAILED);
    forall y: nat ensures Settled(d.payments[i := now], y) == Settled(d.payments, y) {
      SettledUpdate(d.payments, i, now, y);
    }
    FailMoves(d, l, p, mine, i);
    assert PaymentOk(d, d.payments[i]);
    NothingSettled(d, l, p, mine, d.payments[i := now]);
  }

  lemma FailMoves(d: Tables, l: Locks, p: nat, mine: Proc, i: nat)
    requires i < |d.payments| && Has(l.payments, i, p)
    ensures Moves(d, d.(payments := d.payments[i := d.payments[i].(status := FAILED)]), l, p, mine)
  {
  }

  lemma RetireMoves(d: Tables, l: Locks, p: nat, mine: Proc, q: Request, b: nat, due: nat, live: Option<nat>)
    requires EffectOk(d, l, p, q, Retire(b, due, live))
    ensures Moves(d, Apply(d, Retire(b, due, live)), l, p, mine)
  {
    hide BillMoves, SplitMoves, IsLive, FoundLive;
    var e := Apply(d, Retire(b, due, live));
    EditMovesBills(d, l, p, b, due, e);
    RetireMovesSplits(d, l, p, q, b, due, live, e);
  }

  lemma EditMovesBills(d: Tables, l: Locks, p: nat, b: nat, due: nat, e: Tables)
    requires b in d.bills && Has(l.bills, b, p) && e.bills == d.bills[b := Edited(d.bills[b], due)]
    ensures forall c :: c in d.bills ==> BillMoves(d, e, l, p, c)
  {
  }

  lemma RetireMovesSplits(d: Tables, l: Locks, p: nat, q: Request, b: nat, due: nat, live: Option<nat>, e: Tables)
    requires EffectOk(d, l, p, q, Retire(b, due, live)) && e == Apply(d, Retire(b, due, live))
    ensures e.splits.Keys == d.splits.Keys && forall k :: k in d.splits ==> SplitMoves(d, e, l, p, k)
  {
    hide FoundLive;
  }

  /** An edit that changes the total leaves no live split on it, and one that does not leaves the split alone. */
  lemma RetireIsSound(d: Tables, l: Locks, p: nat, mine: Proc, q: Request, b: nat, due: nat, live: Option<nat>)
    requires TablesOk(d) && OneLive(d) && EffectOk(d, l, p, q, Retire(b, due, live))
    ensures var e := Apply(d, Retire(b, due, live)); TablesOk(e) && OneLive(e) && Moves(d, e, l, p, mine)
  {
    hide Moves, EngineMade, AllThere, NonePendingBefore, Settled, PaidInto, Since;
    var e := Apply(d, Retire(b, due, live));
    RetireMoves(d, l, p, mine, q, b, due, live);
    forall k | k in d.splits && e.splits[k].status == ACTIVE ensures Balanced(d, e, k) {
      assert LiveOk(d, k) && IsLive(d, k, d.splits[k].bill);
    }
    forall y | y in e.shares ensures ShareOk(e, y) {
      assert ShareOk(d, y);
    }
    assert forall k: nat, c: nat :: IsLive(e, k, c) ==> IsLive(d, k, c);
    RetireKeepsRows(d, l, p, q, b, due, live);
    TablesStayOk(d, e, l, p, mine);
  }

  lemma RetireKeepsRows(d: Tables, l: Locks, p: nat, q: Request, b: nat, due: nat, live: Option<nat>)
    requires TablesOk(d) && EffectOk(d, l, p, q, Retire(b, due, live))
    ensures var e := Apply(d, Retire(b, due, live));
            && (forall i :: 0 <= i < |e.payments| ==> PaymentOk(e, e.payments[i]))
            && (forall c :: c in e.bills ==> Paid(e.bills[c]) <= e.bills[c].due)
            && e.splits.Keys == d.splits.Keys
  {
    hide SplitOk, LiveOk, ShareOk;
    var e := Apply(d, Retire(b, due, live));
    forall i | 0 <= i < |e.payments| ensures PaymentOk(e, e.payments[i]) {
      assert PaymentOk(d, d.payments[i]);
    }
  }

  lemma ReadyIsSound(d: Tables, l: Locks, procs: map<nat, Proc>, p: nat, q: Request, effect: Effect)
    requires TablesOk(d) && OneLive(d) && EffectOk(d, l, p, q, effect)
    ensures Sound(d, l, procs, p, Ready(q, effect), Commit(Apply(d, effect)))
  {
    hide TablesOk, OneLive, Moves, PaymentOk, MayReceive, Recorded;
    var mine := Ready(q, effect);
    match effect {
      case Record(payment) =>
        if payment.status == SUCCEEDED {
          RecordIsReceipt(d, l, p, payment);
          ReceiptIsSound(d, l, p, mine, d.payments + [payment], payment.bill, payment.share, payment.amount);
        } else {
          DeclareIsSound(d, l, p, mine, payment);
        }
      case Settle(i, credited) =>
        var was := d.payments[i];
        var x := if credited then was.share else None;
        SettlingIsReceipt(d, l, p, i, x);
        ReceiptIsSound(d, l, p, mine, d.payments[i := was.(status := SUCCEEDED, share := x)], was.bill, x, was.amount);
      case Fail(i) => FailIsSound(d, l, p, mine, i);
      case Retire(b, due, live) => RetireIsSound(d, l, p, mine, q, b, due, live);
    }
  }

  // ---- Voiding and agreeing ------------------------------------------------

  lemma VoidMoves(d: Tables, l: Locks, p: nat, q: Request, prior: Option<nat>, e: Tables)
    requires (q.Agree? || q.Discard?) && MayVoid(d, l, p, q, prior) && e.payments == d.payments
    requires forall k :: k in d.splits ==> k in e.splits && e.splits[k] == Void(d, prior)[k]
    ensures forall k :: k in d.splits ==> SplitMoves(d, e, l, p, k)
    ensures forall k: nat, c: nat :: k in d.splits && IsLive(e, k, c) ==> IsLive(d, k, c) && prior != Some(k)
  {
    hide HoldsMembers, AnyPending;
  }

  /** The split being voided has had nothing, so a void one holds nothing. */
  lemma VoidShareOk(d: Tables, l: Locks, p: nat, q: Request, prior: Option<nat>, e: Tables, x: nat)
    requires (q.Agree? || q.Discard?) && MayVoid(d, l, p, q, prior) && TablesOk(d) && x in d.shares
    requires forall k :: k in d.splits ==> k in e.splits && e.splits[k] == Void(d, prior)[k]
    requires x in e.shares && e.shares[x] == d.shares[x] && e.payments == d.payments
    ensures ShareOk(e, x)
  {
    hide SplitOk, LiveOk, AnyPending, Settled;
    assert ShareOk(d, x);
    if prior == Some(d.shares[x].split) {
      var members := d.splits[prior.value].members;
      var i :| 0 <= i < |members| && members[i] == x;
      assert d.shares[members[i]].paid == 0;
    }
  }

  lemma DiscardIsSound(d: Tables, l: Locks, procs: map<nat, Proc>, p: nat, q: Request, plan: Option<Plan>,
                       prior: Option<nat>)
    requires TablesOk(d) && OneLive(d) && q.Discard? && MayVoid(d, l, p, q, prior)
    ensures Sound(d, l, procs, p, Clear(q, plan, prior), Commit(d.(splits := Void(d, prior))))
  {
    hide MayVoid, SplitMoves, EngineMade, AllThere, NonePendingBefore, ShareOk, Since;
    var e := d.(splits := Void(d, prior));
    VoidMoves(d, l, p, q, prior, e);
    forall k | k in d.splits && e.splits[k].status == ACTIVE ensures Balanced(d, e, k) {
      assert LiveOk(d, k) && IsLive(e, k, d.splits[k].bill) && IsLive(d, k, d.splits[k].bill);
    }
    forall y | y in e.shares ensures ShareOk(e, y) {
      VoidShareOk(d, l, p, q, prior, e, y);
    }
    StandingStill(d, e, l, p, Clear(q, plan, prior));
    PaymentsStayOk(d, e);
    TablesStayOk(d, e, l, p, Clear(q, plan, prior));
  }

  lemma PaymentsStayOk(d: Tables, e: Tables)
    requires TablesOk(d) && e.payments == d.payments && e.bills == d.bills
    requires forall x :: x in d.shares ==> x in e.shares
    ensures forall i :: 0 <= i < |e.payments| ==> PaymentOk(e, e.payments[i])
    ensures forall b :: b in e.bills ==> Paid(e.bills[b]) <= e.bills[b].due
  {
    hide SplitOk, LiveOk, ShareOk;
    forall i | 0 <= i < |e.payments| ensures PaymentOk(e, e.payments[i]) {
      assert PaymentOk(d, d.payments[i]);
    }
  }

  /** A commit that touches splits, and adds shares, and nothing else. */
  lemma StandingStill(d: Tables, e: Tables, l: Locks, p: nat, mine: Proc)
    requires e.payments == d.payments && e.bills == d.bills && NewRows(d, e, mine)
    requires forall k :: k in d.splits ==> SplitMoves(d, e, l, p, k)
    requires forall x :: x in d.shares ==> x in e.shares && e.shares[x] == d.shares[x]
    requires forall i :: 0 <= i < |d.payments| ==> d.payments[i] == e.payments[i]
    ensures Moves(d, e, l, p, mine)
  {
    hide SplitMoves, NewRows;
  }

  lemma WithSharesStep(shares: map<nat, Share>, id: nat, ids: seq<nat>, amounts: seq<int>, n: nat)
    requires |ids| == |amounts| == n + 1
    ensures WithShares(shares, id, ids, amounts)
         == WithShares(shares, id, ids[..n], amounts[..n])[ids[n] := Share(id, amounts[n], 0)]
    ensures forall x :: x in ids <==> x in ids[..n] || x == ids[n]
  {
    assert ids == ids[..n] + [ids[n]];
  }

  lemma {:induction false} NewShares(shares: map<nat, Share>, id: nat, ids: seq<nat>, amounts: seq<int>)
    requires |ids| == |amounts| && forall i, j :: 0 <= i < j < |ids| ==> ids[i] != ids[j]
    ensures var now := WithShares(shares, id, ids, amounts);
            && (forall x :: x in now <==> x in shares || x in ids)
            && (forall i :: 0 <= i < |ids| ==> now[ids[i]] == Share(id, amounts[i], 0))
            && (forall x :: x in shares && x !in ids ==> now[x] == shares[x])
  {
    if ids != [] {
      var n := |ids| - 1;
      var was, now := WithShares(shares, id, ids[..n], amounts[..n]), WithShares(shares, id, ids, amounts);
      NewShares(shares, id, ids[..n], amounts[..n]);
      WithSharesStep(shares, id, ids, amounts, n);
      forall i | 0 <= i < n ensures now[ids[i]] == Share(id, amounts[i], 0) {
        assert ids[i] == ids[..n][i] && ids[i] != ids[n] && now[ids[i]] == was[ids[i]];
      }
    }
  }

  /** The deferred sum constraint never refuses what the engine makes. */
  lemma EngineAddsUp(d: Tables, q: Request, plan: Plan)
    requires q.Agree? && PlanOk(d, q, plan)
    ensures AddsUp(plan)
  {
    SplitEngine.PreviewIsNonNegative(plan.read.due, Paid(plan.read), q.ask.items, q.ask.request);
  }

  /** The rows of an agreement. */
  lemma AgreedRows(d: Tables, q: Request, plan: Plan, prior: Option<nat>, at: Bill, id: nat, ids: seq<nat>)
    requires q.Agree? && AddsUp(plan) && |ids| == |plan.amounts| && Unused(d, id, ids)
    ensures var e := Agreed(d, q, plan, prior, at, id, ids);
            && e.bills == d.bills && e.payments == d.payments
            && e.splits == Void(d, prior)[id := Split(q.bill, plan.read.due - Paid(plan.read), ACTIVE, ids, plan.read,
                                                      at, q.ask, 0)]
            && (forall k :: k in e.splits <==> k in d.splits || k == id)
            && (forall k :: k in d.splits ==> e.splits[k] == Void(d, prior)[k])
            && (forall x :: x in e.shares <==> x in d.shares || x in ids)
            && (forall i :: 0 <= i < |ids| ==> e.shares[ids[i]] == Share(id, plan.amounts[i], 0))
            && (forall x :: x in d.shares ==> e.shares[x] == d.shares[x])
  {
    NewShares(d.shares, id, ids, plan.amounts);
    assert forall x :: x in d.shares ==> x !in ids;
  }

  lemma NewSplitOk(d: Tables, q: Request, plan: Plan, prior: Option<nat>, at: Bill, id: nat, ids: seq<nat>)
    requires q.Agree? && AddsUp(plan) && |ids| == |plan.amounts| && Unused(d, id, ids)
    requires PlanOk(d, q, plan) && d.bills[q.bill] == at
    ensures var e := Agreed(d, q, plan, prior, at, id, ids); id in e.splits && SplitOk(e, id) && LiveOk(e, id)
  {
    hide AddsUp, Agreed, Void;
    var e := Agreed(d, q, plan, prior, at, id, ids);
    AgreedRows(d, q, plan, prior, at, id, ids);
    NothingPaidInto(e.shares, ids);
    assert Amounts(e.shares, ids) == plan.amounts;
  }

  lemma NewShareOk(d: Tables, q: Request, plan: Plan, prior: Option<nat>, at: Bill, id: nat, ids: seq<nat>, i: nat)
    requires q.Agree? && AddsUp(plan) && |ids| == |plan.amounts| && Unused(d, id, ids) && TablesOk(d) && i < |ids|
    ensures var e := Agreed(d, q, plan, prior, at, id, ids); ids[i] in e.shares && ShareOk(e, ids[i])
  {
    hide SplitOk, LiveOk, ShareOk, Agreed, Void;
    AgreedRows(d, q, plan, prior, at, id, ids);
    forall j | 0 <= j < |d.payments| ensures d.payments[j].share != Some(ids[i]) {
      assert PaymentOk(d, d.payments[j]);
    }
    UnknownIsUnsettled(d.payments, ids[i]);
    ShareIsOk(Agreed(d, q, plan, prior, at, id, ids), ids[i]);
  }

  lemma ShareIsOk(e: Tables, x: nat)
    requires x in e.shares && e.shares[x].paid == 0 == Settled(e.payments, x) && e.shares[x].amount >= 0
    requires e.shares[x].split in e.splits && x in e.splits[e.shares[x].split].members
    ensures ShareOk(e, x)
  {
  }

  lemma AgreedMoves(d: Tables, l: Locks, p: nat, mine: Proc)
    requires mine.Inserted? && mine.q.Agree? && mine.plan.Some? && AddsUp(mine.plan.value)
    requires |mine.ids| == |mine.plan.value.amounts| && Unused(d, mine.id, mine.ids)
    requires MayVoid(d, l, p, mine.q, mine.prior)
    ensures Moves(d, Agreed(d, mine.q, mine.plan.value, mine.prior, mine.at, mine.id, mine.ids), l, p, mine)
  {
    hide MayVoid, AddsUp, Agreed, Void, SplitMoves, Moves;
    AgreedRows(d, mine.q, mine.plan.value, mine.prior, mine.at, mine.id, mine.ids);
    var e := Agreed(d, mine.q, mine.plan.value, mine.prior, mine.at, mine.id, mine.ids);
    VoidMoves(d, l, p, mine.q, mine.prior, e);
    StandingStill(d, e, l, p, mine);
  }

  /** The plans that were there are none the wiser. */
  lemma AgreedIsBalanced(d: Tables, e: Tables, k: nat)
    requires TablesOk(d) && e.bills == d.bills && k in d.splits && d.splits[k].status == ACTIVE
    requires forall x :: x in d.shares ==> x in e.shares && e.shares[x] == d.shares[x]
    ensures Balanced(d, e, k)
  {
    hide EngineMade, NonePendingBefore, ShareOk, Since;
    assert SplitOk(d, k) && LiveOk(d, k);
    PaidIntoSame(d.shares, e.shares, d.splits[k].members);
  }

  lemma AgreedKeepsTables(d: Tables, l: Locks, p: nat, mine: Proc)
    requires TablesOk(d) && mine.Inserted? && mine.q.Agree? && PlannerOk(d, l, p, mine)
    requires AddsUp(mine.plan.value)
    ensures TablesOk(Agreed(d, mine.q, mine.plan.value, mine.prior, mine.at, mine.id, mine.ids))
  {
    hide TablesOk, MayVoid, AddsUp, Agreed, Void, SplitMoves, Moves, ShareOk, SplitOk, LiveOk, Balanced, Unused, PlanOk,
         FoundLive, PaymentOk;
    var q, plan, prior, at, id, ids := mine.q, mine.plan.value, mine.prior, mine.at, mine.id, mine.ids;
    var e := Agreed(d, q, plan, prior, at, id, ids);
    AgreedMoves(d, l, p, mine);
    AgreedRows(d, q, plan, prior, at, id, ids);
    NewSplitOk(d, q, plan, prior, at, id, ids);
    VoidMoves(d, l, p, q, prior, e);
    forall k | k in d.splits && e.splits[k].status == ACTIVE ensures Balanced(d, e, k) {
      assert IsLive(e, k, e.splits[k].bill) && IsLive(d, k, e.splits[k].bill);
      AgreedIsBalanced(d, e, k);
    }
    forall x | x in e.shares ensures ShareOk(e, x) {
      if x in d.shares {
        VoidShareOk(d, l, p, q, prior, e, x);
      } else {
        var i :| 0 <= i < |ids| && ids[i] == x;
        NewShareOk(d, q, plan, prior, at, id, ids, i);
      }
    }
    PaymentsStayOk(d, e);
    TablesStayOk(d, e, l, p, mine);
  }

  lemma AgreedIsAlone(d: Tables, l: Locks, p: nat, mine: Proc)
    requires OneLive(d) && mine.Inserted? && mine.q.Agree? && PlannerOk(d, l, p, mine)
    requires AddsUp(mine.plan.value)
    ensures OneLive(Agreed(d, mine.q, mine.plan.value, mine.prior, mine.at, mine.id, mine.ids))
  {
    hide MayVoid, AddsUp, Agreed, Void, SplitMoves, PlanOk;
    var q, plan, prior, at, id, ids := mine.q, mine.plan.value, mine.prior, mine.at, mine.id, mine.ids;
    var e := Agreed(d, q, plan, prior, at, id, ids);
    AgreedRows(d, q, plan, prior, at, id, ids);
    VoidMoves(d, l, p, q, prior, e);
    assert forall k: nat, c: nat :: IsLive(e, k, c) ==>
        (k == id && c == q.bill) || (IsLive(d, k, c) && prior != Some(k));
  }

  lemma AgreeIsSound(d: Tables, l: Locks, procs: map<nat, Proc>, p: nat, mine: Proc)
    requires TablesOk(d) && OneLive(d) && mine.Inserted? && mine.q.Agree? && PlannerOk(d, l, p, mine)
    ensures var move := CommitSplit(d, mine.q, mine.plan, mine.prior, mine.at, mine.id, mine.ids);
            move.Commit? && Sound(d, l, procs, p, mine, move)
  {
    hide TablesOk, OneLive, MayVoid, AddsUp, Agreed, Moves, PlanOk;
    EngineAddsUp(d, mine.q, mine.plan.value);
    AgreedMoves(d, l, p, mine);
    AgreedKeepsTables(d, l, p, mine);
    AgreedIsAlone(d, l, p, mine);
  }
}
