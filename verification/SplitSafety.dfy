/**
 * What every interleaving of agreeing, voiding, editing and paying keeps.
 */
module SplitSafety {
  import opened Wrappers
  import LargestRemainder
  import SplitEngine
  import opened SplitState

  /** The locks the source takes. */
  const AsBuilt: Rules := Rules(true, true)

  // ---- The tables ----------------------------------------------------------

  /** Money settled against a share, by the ledger. */
  function Settled(payments: seq<Payment>, x: nat): nat {
    if payments == [] then 0 else Settled(payments[..|payments| - 1], x) + Counts(payments[|payments| - 1], x)
  }

  function Counts(payment: Payment, x: nat): nat {
    if payment.status == SUCCEEDED && payment.share == Some(x) then payment.amount else 0
  }

  predicate AllThere(shares: map<nat, Share>, k: nat, members: seq<nat>) {
    && (forall i :: 0 <= i < |members| ==> members[i] in shares && shares[members[i]].split == k)
    && (forall i, j :: 0 <= i < j < |members| ==> members[i] != members[j])
  }

  function Amounts(shares: map<nat, Share>, members: seq<nat>): seq<int>
    requires forall i :: 0 <= i < |members| ==> members[i] in shares
  {
    seq(|members|, i requires 0 <= i < |members| => shares[members[i]].amount)
  }

  /** What the shares of a split have been paid together. */
  function PaidInto(shares: map<nat, Share>, members: seq<nat>): nat {
    if members == [] then 0
    else
      var n := |members| - 1;
      PaidInto(shares, members[..n]) + if members[n] in shares then shares[members[n]].paid else 0
  }

  /** What may become of an open bill's row: money comes in, totals are edited, and both are counted. */
  predicate Since(was: Bill, now: Bill) {
    && was.edits <= now.edits && was.receipts <= now.receipts
    && was.direct <= now.direct && was.shared <= now.shared
    && (was.edits == now.edits ==> was.due == now.due)
    && (was.receipts == now.receipts <==> Paid(was) == Paid(now))
  }

  /** The shares are the engine's own division of what was outstanding when the bill was read. */
  ghost predicate EngineMade(d: Tables, split: Split)
    requires forall i :: 0 <= i < |split.members| ==> split.members[i] in d.shares
  {
    && split.ask.request.participants != []
    && SplitEngine.PreviewOutcome(split.readAt.due, Paid(split.readAt), split.ask.items, split.ask.request)
       == Success(Amounts(d.shares, split.members))
    && split.basis == split.readAt.due - Paid(split.readAt)
  }

  /** Whatever was pending when the split was voided named none of its shares. */
  predicate NonePendingBefore(d: Tables, split: Split) {
    && split.voidedAt <= |d.payments|
    && !AnyPending(d.payments[..split.voidedAt], split.members)
  }

  ghost predicate SplitOk(d: Tables, k: nat)
    requires k in d.splits
  {
    var split := d.splits[k];
    && AllThere(d.shares, k, split.members)
    && EngineMade(d, split)
    && Since(split.readAt, split.insertedAt)
    && (split.status == VOID ==> NonePendingBefore(d, split))
  }

  predicate ShareOk(d: Tables, x: nat)
    requires x in d.shares
  {
    var share := d.shares[x];
    && share.paid <= share.amount && share.paid == Settled(d.payments, x)
    && share.split in d.splits && x in d.splits[share.split].members
    && (d.splits[share.split].status == VOID ==> share.paid == 0)
  }

  /** A live split was inserted on the bill's present total, and has had whatever came through shares since. */
  predicate LiveOk(d: Tables, k: nat)
    requires k in d.splits
  {
    var split := d.splits[k];
    split.status == ACTIVE ==>
      && split.bill in d.bills
      && Since(split.insertedAt, d.bills[split.bill])
      && split.insertedAt.edits == d.bills[split.bill].edits
      && PaidInto(d.shares, split.members) == d.bills[split.bill].shared - split.insertedAt.shared
  }

  ghost predicate TablesOk(d: Tables) {
    && (forall k :: k in d.splits ==> SplitOk(d, k) && LiveOk(d, k))
    && (forall x :: x in d.shares ==> ShareOk(d, x))
    && (forall i :: 0 <= i < |d.payments| ==> PaymentOk(d, d.payments[i]))
    && (forall b :: b in d.bills ==> Paid(d.bills[b]) <= d.bills[b].due)
  }

  predicate PaymentOk(d: Tables, payment: Payment) {
    payment.amount > 0 && payment.bill in d.bills && (payment.share.Some? ==> payment.share.value in d.shares)
  }

  ghost predicate OneLive(d: Tables) {
    forall j: nat, k: nat, b: nat :: IsLive(d, j, b) && IsLive(d, k, b) ==> j == k
  }

  // ---- Locks ---------------------------------------------------------------

  predicate Has(locks: map<nat, nat>, k: nat, p: nat) { k in locks && locks[k] == p }

  /** FOR UPDATE and FOR KEY SHARE exclude each other. */
  predicate Exclude(l: Locks) {
    && (forall p :: p in l.shareKeys ==> Free(l.shares, l.shareKeys[p], p))
    && (forall p :: p in l.billKeys ==> Free(l.bills, l.billKeys[p], p))
  }

  predicate Keeps(was: map<nat, nat>, now: map<nat, nat>, p: nat) {
    forall k :: k in was && was[k] != p ==> k in now && now[k] == was[k]
  }

  predicate KeepsKeys(was: map<nat, nat>, now: map<nat, nat>, p: nat) {
    forall o :: o in was && o != p ==> o in now && now[o] == was[o]
  }

  /** `p` took or gave up locks of its own only. */
  predicate Kept(l: Locks, m: Locks, p: nat) {
    && Keeps(l.bills, m.bills, p) && Keeps(l.splits, m.splits, p) && Keeps(l.payments, m.payments, p)
    && Keeps(l.shares, m.shares, p) && KeepsKeys(l.shareKeys, m.shareKeys, p) && KeepsKeys(l.billKeys, m.billKeys, p)
  }

  // ---- What each transaction may rely on -----------------------------------

  predicate HoldsPayment(d: Tables, l: Locks, p: nat, q: Request) {
    && (q.Confirm? || q.Reject?)
    && q.payment < |d.payments| && Has(l.payments, q.payment, p) && d.payments[q.payment].status == PENDING
  }

  /** The bill a request is about, and its amount, are what they were. */
  predicate Concerns(d: Tables, l: Locks, p: nat, q: Request, b: nat) {
    match q
    case Pay(c, _, amount) => c == b && amount > 0
    case Declare(c, _, amount) => c == b && amount > 0
    case EditLines(c, _) => c == b
    case Confirm(i, _) => HoldsPayment(d, l, p, q) && d.payments[i].bill == b
    case _ => false
  }

  predicate HoldsBill(d: Tables, l: Locks, p: nat, q: Request, b: nat) {
    Concerns(d, l, p, q, b) && Has(l.bills, b, p) && b in d.bills && Fits(d, q, d.bills[b])
  }

  /** Settling transaction `p` is about to credit share `x`, and nobody can void its split meanwhile. */
  predicate Settling(d: Tables, l: Locks, p: nat, q: Request, b: nat, x: nat) {
    && HoldsBill(d, l, p, q, b) && (q.Pay? || q.Confirm?)
    && ShareOf(d, q) == Some(x) && x in d.shares
    && (q.Pay? ==> Has(l.shareKeys, p, x))
  }

  predicate OnLiveSplit(d: Tables, x: nat, b: nat) { x in d.shares && IsLive(d, d.shares[x].split, b) }

  /** Everything a receipt needs at COMMIT. */
  predicate MayReceive(d: Tables, l: Locks, p: nat, b: nat, x: Option<nat>, amount: nat) {
    && Has(l.bills, b, p) && b in d.bills && amount > 0 && Paid(d.bills[b]) + amount <= d.bills[b].due
    && (x.Some? ==>
          && OnLiveSplit(d, x.value, b) && Has(l.shares, x.value, p)
          && d.shares[x.value].paid + amount <= d.shares[x.value].amount)
  }

  ghost predicate FoundLive(d: Tables, b: nat, live: Option<nat>) {
    forall k: nat :: IsLive(d, k, b) ==> live == Some(k)
  }

  ghost predicate EffectOk(d: Tables, l: Locks, p: nat, q: Request, e: Effect) {
    match e
    case Record(payment) =>
      && PaymentOk(d, payment)
      && payment.status != FAILED
      && (payment.status == SUCCEEDED ==> MayReceive(d, l, p, payment.bill, payment.share, payment.amount))
      && (payment.status == PENDING && payment.share.Some? ==> Has(l.shareKeys, p, payment.share.value))
    case Settle(i, credited) =>
      && HoldsPayment(d, l, p, q) && q.payment == i
      && MayReceive(d, l, p, d.payments[i].bill, if credited then d.payments[i].share else None, d.payments[i].amount)
      && (credited ==> d.payments[i].share.Some?)
    case Fail(i) => HoldsPayment(d, l, p, q) && q.payment == i
    case Retire(b, due, live) =>
      && Has(l.bills, b, p) && b in d.bills && Paid(d.bills[b]) <= due
      && (live.Some? ==> IsLive(d, live.value, b) && Has(l.splits, live.value, p))
      && (due != d.bills[b].due ==> FoundLive(d, b, live))
      && (due == d.bills[b].due ==> live == None)
  }

  /** A plan is the engine's, of a bill that has only moved on since. */
  ghost predicate PlanOk(d: Tables, q: Request, plan: Plan)
    requires q.Agree?
  {
    && q.bill in d.bills && Since(plan.read, d.bills[q.bill])
    && q.ask.request.participants != []
    && SplitEngine.PreviewOutcome(plan.read.due, Paid(plan.read), q.ask.items, q.ask.request) == Success(plan.amounts)
  }

  ghost predicate Planning(d: Tables, q: Request, plan: Option<Plan>) {
    q.Discard? || (q.Agree? && plan.Some? && PlanOk(d, q, plan.value))
  }

  predicate HoldsSplit(d: Tables, l: Locks, p: nat, q: Request, k: nat)
    requires q.Agree? || q.Discard?
  {
    Has(l.splits, k, p) && IsLive(d, k, q.bill)
  }

  predicate HoldsMembers(d: Tables, l: Locks, p: nat, members: seq<nat>) {
    forall i :: 0 <= i < |members| ==>
      Has(l.shares, members[i], p) && members[i] in d.shares && d.shares[members[i]].paid == 0
  }

  /** The split this transaction is about to void is locked whole, unpaid, and nothing is on its way to it. */
  predicate MayVoid(d: Tables, l: Locks, p: nat, q: Request, prior: Option<nat>)
    requires q.Agree? || q.Discard?
  {
    prior.Some? ==>
      && HoldsSplit(d, l, p, q, prior.value)
      && HoldsMembers(d, l, p, d.splits[prior.value].members)
      && !AnyPending(d.payments, d.splits[prior.value].members)
  }

  ghost predicate MayAgree(d: Tables, l: Locks, p: nat, q: Request, prior: Option<nat>, at: Bill, id: nat,
                           ids: seq<nat>)
    requires q.Agree?
  {
    && Unused(d, id, ids)
    && Has(l.billKeys, p, q.bill) && q.bill in d.bills && d.bills[q.bill] == at
    && FoundLive(d, q.bill, prior)
  }

  /** The ones about to touch money. */
  predicate OnMoney(at: Proc) {
    || at.WantsPayment? || at.WantsBill? || at.HasBill? || at.Crediting?
    || at.WantsShare? || at.Marking? || at.Ready? || at.Done?
  }

  predicate WantsShareOk(d: Tables, l: Locks, p: nat, q: Request, b: nat, x: nat, seen: Option<Split>) {
    && Settling(d, l, p, q, b, x)
    && (seen.Some? && seen.value.bill == b && seen.value.status == ACTIVE ==> OnLiveSplit(d, x, b))
  }

  ghost predicate MarkingOk(d: Tables, l: Locks, p: nat, q: Request, b: nat, live: Option<nat>) {
    q.EditLines? && HoldsBill(d, l, p, q, b) && q.due != d.bills[b].due && FoundLive(d, b, live)
  }

  ghost predicate PayerOk(d: Tables, l: Locks, p: nat, at: Proc)
    requires OnMoney(at)
  {
    match at
    case WantsPayment(q) => q.Confirm? || q.Reject?
    case WantsBill(q, b) => Concerns(d, l, p, q, b)
    case HasBill(q, b) => HoldsBill(d, l, p, q, b)
    case Crediting(q, b) => ShareOf(d, q).Some? && Settling(d, l, p, q, b, ShareOf(d, q).value)
    case WantsShare(q, b, x, seen) => WantsShareOk(d, l, p, q, b, x, seen)
    case Marking(q, b, live) => MarkingOk(d, l, p, q, b, live)
    case Ready(q, effect) => EffectOk(d, l, p, q, effect)
    case Done(_, _) => true
  }

  ghost predicate PlannerOk(d: Tables, l: Locks, p: nat, at: Proc)
    requires !OnMoney(at)
  {
    match at
    case ReadsBill(q) => q.Agree?
    case Seeks(q, plan) => q.Agree? && Planning(d, q, plan)
    case WantsSplit(q, plan, _) => Planning(d, q, plan)
    case HasSplit(q, plan, k) => Planning(d, q, plan) && HoldsSplit(d, l, p, q, k)
    case Summed(q, plan, k) =>
      Planning(d, q, plan) && HoldsSplit(d, l, p, q, k) && HoldsMembers(d, l, p, d.splits[k].members)
    case Clear(q, plan, prior) => Planning(d, q, plan) && MayVoid(d, l, p, q, prior)
    case Inserted(q, plan, prior, at, id, ids) =>
      && q.Agree? && Planning(d, q, plan) && |ids| == |plan.value.amounts|
      && MayVoid(d, l, p, q, prior) && MayAgree(d, l, p, q, prior, at, id, ids)
  }

  ghost predicate ProcOk(d: Tables, l: Locks, p: nat, at: Proc) {
    if OnMoney(at) then PayerOk(d, l, p, at) else PlannerOk(d, l, p, at)
  }

  /** Pending inserts are of different rows, and of splits of different bills. */
  predicate AllApart(procs: map<nat, Proc>) {
    forall p, o :: p in procs && o in procs && p != o && procs[p].Inserted? && procs[p].q.Agree? ==>
      Apart(procs[o], procs[p].q.bill, procs[p].id, procs[p].ids)
  }

  ghost predicate Inv(s: State) {
    && TablesOk(s.tables) && OneLive(s.tables) && Exclude(s.locks) && AllApart(s.procs)
    && forall p :: p in s.procs ==> ProcOk(s.tables, s.locks, p, s.procs[p])
  }

  // ---- What one commit leaves the others -----------------------------------

  predicate SameTerms(was: Split, now: Split) {
    && now.bill == was.bill && now.basis == was.basis && now.members == was.members
    && now.readAt == was.readAt && now.insertedAt == was.insertedAt && now.ask == was.ask
  }

  /** What `p` may do to a split that is there: retire it with its bill locked, or void it with all of it locked. */
  predicate SplitMoves(d: Tables, e: Tables, l: Locks, p: nat, k: nat)
    requires k in d.splits
  {
    && k in e.splits && SameTerms(d.splits[k], e.splits[k])
    && (e.splits[k] == d.splits[k]
        || (d.splits[k].status == ACTIVE && Has(l.splits, k, p)
            && (if e.splits[k].status == STALE then Has(l.bills, d.splits[k].bill, p)
                else
                  && e.splits[k].status == VOID && e.splits[k].voidedAt == |d.payments| && e.payments == d.payments
                  && HoldsMembers(d, l, p, d.splits[k].members) && !AnyPending(d.payments, d.splits[k].members))))
  }

  /** The split of this share governs its bill. */
  predicate Accepts(d: Tables, x: nat) {
    x in d.shares && d.shares[x].split in d.splits && d.splits[d.shares[x].split].status == ACTIVE
  }

  /** Only a share that is locked, and of a live split, is credited. */
  predicate ShareMoves(d: Tables, e: Tables, l: Locks, p: nat, x: nat)
    requires x in d.shares
  {
    && x in e.shares && e.shares[x].split == d.shares[x].split && e.shares[x].amount == d.shares[x].amount
    && d.shares[x].paid <= e.shares[x].paid
    && (e.shares[x] == d.shares[x] || (Has(l.shares, x, p) && Accepts(d, x)))
  }

  predicate PaymentMoves(d: Tables, e: Tables, l: Locks, p: nat, i: nat) {
    && i < |e.payments|
    && (if i < |d.payments| then
          e.payments[i] == d.payments[i] || (Has(l.payments, i, p) && e.payments[i].status != PENDING)
        else NamesShare(e.payments[i]) ==> Has(l.shareKeys, p, e.payments[i].share.value))
  }

  predicate NamesShare(payment: Payment) { payment.status == PENDING && payment.share.Some? }

  predicate BillMoves(d: Tables, e: Tables, l: Locks, p: nat, b: nat)
    requires b in d.bills
  {
    && b in e.bills && Since(d.bills[b], e.bills[b])
    && (e.bills[b].due == d.bills[b].due ==> e.bills[b].edits == d.bills[b].edits)
    && (e.bills[b] == d.bills[b] || Has(l.bills, b, p))
  }

  /** New rows are those `p` had pending. */
  predicate NewRows(d: Tables, e: Tables, mine: Proc) {
    && (forall k :: k in e.splits && k !in d.splits ==>
          mine.Inserted? && mine.q.Agree? && k == mine.id && e.splits[k].bill == mine.q.bill)
    && (forall x :: x in e.shares && x !in d.shares ==> mine.Inserted? && x in mine.ids)
  }

  ghost predicate Moves(d: Tables, e: Tables, l: Locks, p: nat, mine: Proc) {
    && (forall b :: b in d.bills ==> BillMoves(d, e, l, p, b))
    && (forall k :: k in d.splits ==> SplitMoves(d, e, l, p, k))
    && (forall x :: x in d.shares ==> ShareMoves(d, e, l, p, x))
    && NewRows(d, e, mine)
    && |d.payments| <= |e.payments|
    && (forall i :: 0 <= i < |e.payments| ==> PaymentMoves(d, e, l, p, i))
  }

  lemma ClaimHeld(d: Tables, e: Tables, l: Locks, p: nat, mine: Proc, o: nat, q: Request)
    requires Moves(d, e, l, p, mine) && o != p && HoldsPayment(d, l, o, q)
    ensures HoldsPayment(e, l, o, q) && e.payments[q.payment] == d.payments[q.payment]
  {
    assert PaymentMoves(d, e, l, p, q.payment);
  }

  lemma BillHeld(d: Tables, e: Tables, l: Locks, p: nat, mine: Proc, o: nat, q: Request, b: nat)
    requires Moves(d, e, l, p, mine) && o != p
    ensures Concerns(d, l, o, q, b) ==>
              Concerns(e, l, o, q, b) && AmountOf(e, q) == AmountOf(d, q) && ShareOf(e, q) == ShareOf(d, q)
    ensures HoldsBill(d, l, o, q, b) ==> HoldsBill(e, l, o, q, b) && e.bills[b] == d.bills[b]
  {
    if q.Confirm? && HoldsPayment(d, l, o, q) {
      ClaimHeld(d, e, l, p, mine, o, q);
    }
    if b in d.bills {
      assert BillMoves(d, e, l, p, b);
    }
  }

  /**
   * The heart of it: a share somebody is settling stays on a live split. An edit
   * would need the bill's lock. A voiding would need the share's lock, which a
   * payment's key keeps from it, and no pending claim on the share, where a
   * confirmation has one.
   */
  lemma LiveStays(d: Tables, e: Tables, l: Locks, p: nat, mine: Proc, o: nat, q: Request, b: nat, x: nat)
    requires Moves(d, e, l, p, mine) && Exclude(l) && o != p && (forall y :: y in d.shares ==> ShareOk(d, y))
    requires Settling(d, l, o, q, b, x) && OnLiveSplit(d, x, b)
    ensures OnLiveSplit(e, x, b)
  {
    var k := d.shares[x].split;
    assert ShareOk(d, x);
    CannotVoidUnder(d, l, p, o, q, b, x, d.splits[k].members);
    assert SplitMoves(d, e, l, p, k) && ShareMoves(d, e, l, p, x);
  }

  /** Of two transactions only one has a share: the one settling it, or the one voiding its split. */
  lemma CannotVoidUnder(d: Tables, l: Locks, p: nat, o: nat, q: Request, b: nat, x: nat, members: seq<nat>)
    requires Exclude(l) && o != p && Settling(d, l, o, q, b, x) && x in members
    ensures !HoldsMembers(d, l, p, members) || AnyPending(d.payments, members)
  {
    var i :| 0 <= i < |members| && members[i] == x;
    if q.Confirm? {
      assert NamesOne(d.payments[q.payment], members);
    } else {
      assert !Has(l.shares, members[i], p);
    }
  }

  lemma SettlingHeld(d: Tables, e: Tables, l: Locks, p: nat, mine: Proc, o: nat, q: Request, b: nat, x: nat)
    requires Moves(d, e, l, p, mine) && o != p && Settling(d, l, o, q, b, x)
    ensures Settling(e, l, o, q, b, x)
  {
    BillHeld(d, e, l, p, mine, o, q, b);
    assert ShareMoves(d, e, l, p, x);
  }

  lemma ReceiptHeld(d: Tables, e: Tables, l: Locks, p: nat, mine: Proc, o: nat, b: nat, x: Option<nat>, amount: nat)
    requires Moves(d, e, l, p, mine) && o != p && MayReceive(d, l, o, b, x, amount)
    requires forall y :: y in d.shares ==> ShareOk(d, y)
    ensures MayReceive(e, l, o, b, x, amount)
  {
    assert BillMoves(d, e, l, p, b);
    if x.Some? {
      assert ShareOk(d, x.value);
      assert ShareMoves(d, e, l, p, x.value) && SplitMoves(d, e, l, p, d.shares[x.value].split);
    }
  }

  lemma SplitHeld(d: Tables, e: Tables, l: Locks, p: nat, mine: Proc, o: nat, k: nat, b: nat)
    requires Moves(d, e, l, p, mine) && o != p && IsLive(d, k, b) && Has(l.splits, k, o)
    ensures IsLive(e, k, b) && e.splits[k].members == d.splits[k].members
  {
    assert SplitMoves(d, e, l, p, k);
  }

  /** What was live on a bill that somebody else has, or has the key of, is all that is live there now. */
  lemma FoundLiveHeld(d: Tables, e: Tables, l: Locks, p: nat, mine: Proc, b: nat, live: Option<nat>)
    requires Moves(d, e, l, p, mine) && FoundLive(d, b, live)
    requires mine.Inserted? && mine.q.Agree? ==> mine.q.bill != b
    ensures FoundLive(e, b, live)
  {
    forall k: nat | IsLive(e, k, b) ensures live == Some(k) {
      if k in d.splits {
        assert SplitMoves(d, e, l, p, k);
        assert IsLive(d, k, b);
      }
    }
  }

  lemma MembersHeld(d: Tables, e: Tables, l: Locks, p: nat, mine: Proc, o: nat, members: seq<nat>)
    requires Moves(d, e, l, p, mine) && o != p && HoldsMembers(d, l, o, members)
    ensures HoldsMembers(e, l, o, members)
  {
    forall i | 0 <= i < |members|
      ensures Has(l.shares, members[i], o) && members[i] in e.shares && e.shares[members[i]].paid == 0
    {
      assert ShareMoves(d, e, l, p, members[i]);
    }
  }

  /** Nobody can declare a payment for a share that is locked: the key is taken. */
  lemma NothingPendingArrives(d: Tables, e: Tables, l: Locks, p: nat, mine: Proc, o: nat, members: seq<nat>)
    requires Moves(d, e, l, p, mine) && o != p && Exclude(l)
    requires HoldsMembers(d, l, o, members) && !AnyPending(d.payments, members)
    ensures !AnyPending(e.payments, members)
  {
    assert p in l.shareKeys ==> l.shareKeys[p] !in members;
    forall i | 0 <= i < |e.payments| ensures !NamesOne(e.payments[i], members) {
      assert PaymentMoves(d, e, l, p, i);
      assert i < |d.payments| ==> !NamesOne(d.payments[i], members);
    }
  }

  lemma VoidingHeld(d: Tables, e: Tables, l: Locks, p: nat, mine: Proc, o: nat, q: Request, prior: Option<nat>)
    requires Moves(d, e, l, p, mine) && o != p && Exclude(l) && (q.Agree? || q.Discard?) && MayVoid(d, l, o, q, prior)
    ensures MayVoid(e, l, o, q, prior)
  {
    if prior.Some? {
      SplitHeld(d, e, l, p, mine, o, prior.value, q.bill);
      MembersHeld(d, e, l, p, mine, o, d.splits[prior.value].members);
      NothingPendingArrives(d, e, l, p, mine, o, d.splits[prior.value].members);
    }
  }

  lemma PlanHeld(d: Tables, e: Tables, l: Locks, p: nat, mine: Proc, q: Request, plan: Option<Plan>)
    requires Moves(d, e, l, p, mine) && Planning(d, q, plan)
    ensures Planning(e, q, plan)
  {
    if q.Agree? {
      assert BillMoves(d, e, l, p, q.bill);
    }
  }

  lemma AgreeingHeld(d: Tables, e: Tables, l: Locks, p: nat, mine: Proc, o: nat, q: Request, prior: Option<nat>,
                     at: Bill,
                     id: nat, ids: seq<nat>)
    requires Moves(d, e, l, p, mine) && o != p && Exclude(l) && q.Agree? && MayAgree(d, l, o, q, prior, at, id, ids)
    requires Apart(mine, q.bill, id, ids)
    ensures MayAgree(e, l, o, q, prior, at, id, ids)
  {
    assert BillMoves(d, e, l, p, q.bill);
    FoundLiveHeld(d, e, l, p, mine, q.bill, prior);
  }

  lemma RetireHeld(d: Tables, e: Tables, l: Locks, p: nat, mine: Proc, o: nat, q: Request, b: nat, due: nat,
                   live: Option<nat>)
    requires Moves(d, e, l, p, mine) && o != p && EffectOk(d, l, o, q, Retire(b, due, live)) && Exclude(l)
    requires mine.Inserted? ==> PlannerOk(d, l, p, mine)
    ensures EffectOk(e, l, o, q, Retire(b, due, live))
  {
    assert BillMoves(d, e, l, p, b);
    if live.Some? {
      SplitHeld(d, e, l, p, mine, o, live.value, b);
    }
    if due != d.bills[b].due {
      FoundLiveHeld(d, e, l, p, mine, b, live);
    }
  }

  lemma EffectHeld(d: Tables, e: Tables, l: Locks, p: nat, mine: Proc, o: nat, q: Request, effect: Effect)
    requires Moves(d, e, l, p, mine) && o != p && EffectOk(d, l, o, q, effect) && Exclude(l)
    requires forall y :: y in d.shares ==> ShareOk(d, y)
    requires mine.Inserted? ==> PlannerOk(d, l, p, mine)
    ensures EffectOk(e, l, o, q, effect)
  {
    match effect {
      case Record(payment) =>
        assert BillMoves(d, e, l, p, payment.bill);
        assert payment.share.Some? ==> ShareMoves(d, e, l, p, payment.share.value);
        if payment.status == SUCCEEDED {
          ReceiptHeld(d, e, l, p, mine, o, payment.bill, payment.share, payment.amount);
        }
      case Settle(i, credited) =>
        ClaimHeld(d, e, l, p, mine, o, q);
        var x := if credited then d.payments[i].share else None;
        ReceiptHeld(d, e, l, p, mine, o, d.payments[i].bill, x, d.payments[i].amount);
      case Fail(i) => ClaimHeld(d, e, l, p, mine, o, q);
      case Retire(b, due, live) => RetireHeld(d, e, l, p, mine, o, q, b, due, live);
    }
  }

  lemma PayerHeld(d: Tables, e: Tables, l: Locks, p: nat, mine: Proc, o: nat, at: Proc)
    requires Moves(d, e, l, p, mine) && o != p && Exclude(l) && (forall y :: y in d.shares ==> ShareOk(d, y))
    requires mine.Inserted? ==> PlannerOk(d, l, p, mine)
    requires OnMoney(at) && PayerOk(d, l, o, at)
    ensures PayerOk(e, l, o, at)
  {
    hide EffectOk, Moves, WantsShareOk, ShareOk, PlannerOk, MarkingOk, Concerns, HoldsBill, Settling, Exclude;
    match at {
      case WantsBill(q, b) => BillHeld(d, e, l, p, mine, o, q, b);
      case HasBill(q, b) => BillHeld(d, e, l, p, mine, o, q, b);
      case Crediting(q, b) => CreditingHeld(d, e, l, p, mine, o, q, b);
      case WantsShare(q, b, x, seen) => WantsShareHeld(d, e, l, p, mine, o, q, b, x, seen);
      case Marking(q, b, live) => MarkingHeld(d, e, l, p, mine, o, q, b, live);
      case Ready(q, effect) => EffectHeld(d, e, l, p, mine, o, q, effect);
      case _ =>
    }
  }

  lemma WantsShareHeld(d: Tables, e: Tables, l: Locks, p: nat, mine: Proc, o: nat, q: Request, b: nat, x: nat,
                       seen: Option<Split>)
    requires Moves(d, e, l, p, mine) && Exclude(l) && o != p && (forall y :: y in d.shares ==> ShareOk(d, y))
    requires WantsShareOk(d, l, o, q, b, x, seen)
    ensures WantsShareOk(e, l, o, q, b, x, seen)
  {
    SettlingHeld(d, e, l, p, mine, o, q, b, x);
    if OnLiveSplit(d, x, b) {
      LiveStays(d, e, l, p, mine, o, q, b, x);
    }
  }

  lemma CreditingHeld(d: Tables, e: Tables, l: Locks, p: nat, mine: Proc, o: nat, q: Request, b: nat)
    requires Moves(d, e, l, p, mine) && o != p && PayerOk(d, l, o, Crediting(q, b))
    ensures PayerOk(e, l, o, Crediting(q, b))
  {
    BillHeld(d, e, l, p, mine, o, q, b);
    SettlingHeld(d, e, l, p, mine, o, q, b, ShareOf(d, q).value);
  }

  lemma MarkingHeld(d: Tables, e: Tables, l: Locks, p: nat, mine: Proc, o: nat, q: Request, b: nat, live: Option<nat>)
    requires Moves(d, e, l, p, mine) && o != p && Exclude(l) && MarkingOk(d, l, o, q, b, live)
    requires mine.Inserted? ==> PlannerOk(d, l, p, mine)
    ensures MarkingOk(e, l, o, q, b, live)
  {
    BillHeld(d, e, l, p, mine, o, q, b);
    FoundLiveHeld(d, e, l, p, mine, b, live);
  }

  lemma PlannerHeld(d: Tables, e: Tables, l: Locks, p: nat, mine: Proc, o: nat, at: Proc)
    requires Moves(d, e, l, p, mine) && o != p && Exclude(l) && !OnMoney(at) && PlannerOk(d, l, o, at)
    requires at.Inserted? && at.q.Agree? ==> Apart(mine, at.q.bill, at.id, at.ids)
    ensures PlannerOk(e, l, o, at)
  {
    match at {
      case ReadsBill(q) =>
      case Seeks(q, plan) => PlanHeld(d, e, l, p, mine, q, plan);
      case WantsSplit(q, plan, _) => PlanHeld(d, e, l, p, mine, q, plan);
      case HasSplit(q, plan, k) =>
        PlanHeld(d, e, l, p, mine, q, plan);
        SplitHeld(d, e, l, p, mine, o, k, q.bill);
      case Summed(q, plan, k) =>
        PlanHeld(d, e, l, p, mine, q, plan);
        SplitHeld(d, e, l, p, mine, o, k, q.bill);
        MembersHeld(d, e, l, p, mine, o, d.splits[k].members);
      case Clear(q, plan, prior) =>
        PlanHeld(d, e, l, p, mine, q, plan);
        VoidingHeld(d, e, l, p, mine, o, q, prior);
      case Inserted(q, plan, prior, row, id, ids) =>
        PlanHeld(d, e, l, p, mine, q, plan);
        VoidingHeld(d, e, l, p, mine, o, q, prior);
        AgreeingHeld(d, e, l, p, mine, o, q, prior, row, id, ids);
    }
  }

  /** Locks are one's own: what others take or give up changes nothing for `o`. */
  lemma LocksHeld(d: Tables, l: Locks, m: Locks, p: nat, o: nat, at: Proc)
    requires Kept(l, m, p) && o != p && ProcOk(d, l, o, at)
    ensures ProcOk(d, m, o, at)
  {
    if OnMoney(at) {
      PayerLocksHeld(d, l, m, p, o, at);
    } else {
      PlannerLocksHeld(d, l, m, p, o, at);
    }
  }

  lemma PayerLocksHeld(d: Tables, l: Locks, m: Locks, p: nat, o: nat, at: Proc)
    requires Kept(l, m, p) && o != p && OnMoney(at) && PayerOk(d, l, o, at)
    ensures PayerOk(d, m, o, at)
  {
    hide Fits, ShareOf, OnLiveSplit, FoundLive, PaymentOk;
  }

  lemma PlannerLocksHeld(d: Tables, l: Locks, m: Locks, p: nat, o: nat, at: Proc)
    requires Kept(l, m, p) && o != p && !OnMoney(at) && PlannerOk(d, l, o, at)
    ensures PlannerOk(d, m, o, at)
  {
    hide Planning, FoundLive, AnyPending, Unused;
  }

  // ---- What each statement does --------------------------------------------

  /** `p` goes on to `at` with these locks. */
  ghost predicate MayGoOn(d: Tables, l: Locks, m: Locks, p: nat, at: Proc) {
    Kept(l, m, p) && Exclude(m) && ProcOk(d, m, p, at)
  }

  /** What a statement of `p` may be. */
  ghost predicate Sound(d: Tables, l: Locks, procs: map<nat, Proc>, p: nat, mine: Proc, move: Move) {
    match move
    case Wait => true
    case Refuse => true
    case To(at, m) =>
      && MayGoOn(d, l, m, p, at)
      && (at.Inserted? && at.q.Agree? ==>
            forall o :: o in procs && o != p ==> Apart(procs[o], at.q.bill, at.id, at.ids))
    case Commit(e) => TablesOk(e) && OneLive(e) && Moves(d, e, l, p, mine)
  }

  lemma LockPaymentIsSound(d: Tables, l: Locks, procs: map<nat, Proc>, p: nat, q: Request)
    requires Exclude(l) && TablesOk(d) && (q.Confirm? || q.Reject?)
    ensures Sound(d, l, procs, p, WantsPayment(q), LockPayment(d, l, p, q))
  {
    hide TablesOk;
  }

  lemma LockBillIsSound(d: Tables, l: Locks, procs: map<nat, Proc>, p: nat, q: Request, b: nat)
    requires Exclude(l) && Concerns(d, l, p, q, b)
    ensures Sound(d, l, procs, p, WantsBill(q, b), LockBill(d, l, p, q, b))
  {
    if b in d.bills && BillFree(l, b, p) && Fits(d, q, d.bills[b]) {
      LockingBill(d, l, p, q, b);
    }
    hide MayGoOn, Fits, Concerns, Exclude;
  }

  lemma LockingBill(d: Tables, l: Locks, p: nat, q: Request, b: nat)
    requires Exclude(l) && Concerns(d, l, p, q, b) && b in d.bills && BillFree(l, b, p) && Fits(d, q, d.bills[b])
    ensures MayGoOn(d, l, l.(bills := l.bills[b := p]), p, HasBill(q, b))
  {
    hide Fits;
  }

  /** Naming a share takes its key, and only that. */
  lemma NamingKeeps(l: Locks, p: nat, x: nat)
    requires Exclude(l) && Free(l.shares, x, p)
    ensures var m := l.(shareKeys := l.shareKeys[p := x]); Kept(l, m, p) && Exclude(m)
  {
  }

  lemma PayIsSound(d: Tables, l: Locks, procs: map<nat, Proc>, p: nat, q: Request, b: nat)
    requires Exclude(l) && (q.Pay? || q.Declare?) && HoldsBill(d, l, p, q, b)
    ensures Sound(d, l, procs, p, HasBill(q, b), WithBill(AsBuilt, d, l, p, q, b))
  {
    hide TablesOk, OneLive, Moves;
    if q.share.Some? && q.share.value in d.shares && Free(l.shares, q.share.value, p) {
      NamingKeeps(l, p, q.share.value);
      hide Exclude, Kept;
    }
  }

  lemma ConfirmIsSound(d: Tables, l: Locks, procs: map<nat, Proc>, p: nat, q: Request, b: nat)
    requires Exclude(l) && TablesOk(d) && q.Confirm? && HoldsBill(d, l, p, q, b)
    ensures Sound(d, l, procs, p, HasBill(q, b), WithBill(AsBuilt, d, l, p, q, b))
  {
    assert PaymentOk(d, d.payments[q.payment]);
    hide TablesOk, OneLive, Moves;
  }

  lemma EditIsSound(d: Tables, l: Locks, procs: map<nat, Proc>, p: nat, q: Request, b: nat)
    requires Exclude(l) && OneLive(d) && q.EditLines? && HoldsBill(d, l, p, q, b)
    ensures Sound(d, l, procs, p, HasBill(q, b), WithBill(AsBuilt, d, l, p, q, b))
  {
    LiveIsFound(d, b);
    hide TablesOk, OneLive, Moves, FoundLive;
  }

  lemma WithBillIsSound(d: Tables, l: Locks, procs: map<nat, Proc>, p: nat, q: Request, b: nat)
    requires Exclude(l) && TablesOk(d) && OneLive(d) && HoldsBill(d, l, p, q, b)
    ensures Sound(d, l, procs, p, HasBill(q, b), WithBill(AsBuilt, d, l, p, q, b))
  {
    hide TablesOk, OneLive, WithBill, Sound, Exclude;
    if q.Pay? || q.Declare? {
      PayIsSound(d, l, procs, p, q, b);
    } else if q.Confirm? {
      ConfirmIsSound(d, l, procs, p, q, b);
    } else {
      EditIsSound(d, l, procs, p, q, b);
    }
  }

  lemma LiveIsFound(d: Tables, b: nat)
    requires OneLive(d)
    ensures FoundLive(d, b, LiveOn(d, b))
  {
  }

  lemma TakeSnapshotIsSound(d: Tables, l: Locks, procs: map<nat, Proc>, p: nat, q: Request, b: nat)
    requires Exclude(l) && TablesOk(d) && ProcOk(d, l, p, Crediting(q, b))
    ensures Sound(d, l, procs, p, Crediting(q, b), TakeSnapshot(d, l, q, b))
  {
    hide TablesOk, OneLive, Moves, MayGoOn, Exclude, Settling, IsLive;
    SettlingNames(d, l, p, q, b, ShareOf(d, q).value);
    KnownShare(d, ShareOf(d, q).value);
    TakingSnapshot(d, l, p, q, b, ShareOf(d, q).value);
  }

  lemma KnownShare(d: Tables, x: nat)
    requires TablesOk(d) && x in d.shares
    ensures ShareOk(d, x)
  {
  }

  lemma TakingSnapshot(d: Tables, l: Locks, p: nat, q: Request, b: nat, x: nat)
    requires Exclude(l) && Settling(d, l, p, q, b, x) && ShareOk(d, x)
    ensures x in d.shares && d.shares[x].split in d.splits
    ensures MayGoOn(d, l, l, p, WantsShare(q, b, x, Some(d.splits[d.shares[x].split])))
  {
    hide Settling, Exclude;
    SettlingNames(d, l, p, q, b, x);
  }

  lemma SettlingNames(d: Tables, l: Locks, p: nat, q: Request, b: nat, x: nat)
    requires Settling(d, l, p, q, b, x)
    ensures x in d.shares && ShareOf(d, q) == Some(x)
  {
  }

  lemma LockShareIsSound(d: Tables, l: Locks, procs: map<nat, Proc>, p: nat, q: Request, b: nat, x: nat,
                         seen: Option<Split>)
    requires Exclude(l) && TablesOk(d) && WantsShareOk(d, l, p, q, b, x, seen)
    ensures Sound(d, l, procs, p, WantsShare(q, b, x, seen), LockShare(d, l, p, q, b, x, seen))
  {
    if q.Confirm? {
      assert PaymentOk(d, d.payments[q.payment]);
    }
    if ShareFree(l, x, p) {
      MayCredit(d, l, p, q, b, x, seen);
      MayDetach(d, l, p, q, b, x);
    }
    hide TablesOk, OneLive, Moves, WantsShareOk, Refuses, MayGoOn, Exclude, ShareFree;
  }

  /** What the locked share and the old snapshot together allow is still right. */
  lemma MayCredit(d: Tables, l: Locks, p: nat, q: Request, b: nat, x: nat, seen: Option<Split>)
    requires Exclude(l) && WantsShareOk(d, l, p, q, b, x, seen) && ShareFree(l, x, p)
    requires q.Confirm? ==> PaymentOk(d, d.payments[q.payment])
    ensures var m := l.(shares := l.shares[x := p]);
            var effect := if q.Confirm? then Settle(q.payment, true)
                          else Record(Payment(b, Some(x), AmountOf(d, q), SUCCEEDED));
            !Refuses(d, b, x, AmountOf(d, q), seen) ==> MayGoOn(d, l, m, p, Ready(q, effect))
  {
  }

  /** A confirmation that finds its share closed may still land on the bill. */
  lemma MayDetach(d: Tables, l: Locks, p: nat, q: Request, b: nat, x: nat)
    requires Exclude(l) && Settling(d, l, p, q, b, x) && (q.Confirm? ==> PaymentOk(d, d.payments[q.payment]))
    ensures q.Confirm? ==> MayGoOn(d, l, l, p, Ready(q, Settle(q.payment, false)))
  {
  }

  /** The row found live has been waited for: it still is, or nothing is. */
  lemma MarkingStale(d: Tables, l: Locks, p: nat, q: Request, b: nat, live: Option<nat>)
    requires Exclude(l) && MarkingOk(d, l, p, q, b, live)
    ensures live.Some? && IsLive(d, live.value, b) && Free(l.splits, live.value, p) ==>
              MayGoOn(d, l, l.(splits := l.splits[live.value := p]), p, Ready(q, Retire(b, q.due, live)))
    ensures live.None? || !IsLive(d, live.value, b) ==> MayGoOn(d, l, l, p, Ready(q, Retire(b, q.due, None)))
  {
    assert live.Some? && !IsLive(d, live.value, b) ==> FoundLive(d, b, None);
  }

  lemma MarkStaleIsSound(d: Tables, l: Locks, procs: map<nat, Proc>, p: nat, q: Request, b: nat, live: Option<nat>)
    requires Exclude(l) && ProcOk(d, l, p, Marking(q, b, live))
    ensures Sound(d, l, procs, p, Marking(q, b, live), MarkStale(d, l, p, q, b, live))
  {
    hide FoundLive, HoldsBill, TablesOk, OneLive, Moves, MayGoOn, Exclude;
    MarkingStale(d, l, p, q, b, live);
  }

  lemma ReadBillIsSound(d: Tables, l: Locks, procs: map<nat, Proc>, p: nat, q: Request)
    requires Exclude(l) && q.Agree?
    ensures Sound(d, l, procs, p, ReadsBill(q), ReadBill(d, l, q))
  {
  }

  lemma SeekLiveIsSound(d: Tables, l: Locks, procs: map<nat, Proc>, p: nat, q: Request, plan: Option<Plan>)
    requires Exclude(l) && q.Agree? && Planning(d, q, plan)
    ensures Sound(d, l, procs, p, Seeks(q, plan), SeekLive(d, l, q, plan))
  {
    hide Planning;
  }

  lemma LockSplitIsSound(d: Tables, l: Locks, procs: map<nat, Proc>, p: nat, q: Request, plan: Option<Plan>, k: nat)
    requires Exclude(l) && (q.Agree? || q.Discard?) && Planning(d, q, plan)
    ensures Sound(d, l, procs, p, WantsSplit(q, plan, k), LockSplit(d, l, p, q, plan, k))
  {
    LockingSplit(d, l, p, q, plan, k);
    hide Planning, Exclude, MayGoOn;
  }

  lemma LockingSplit(d: Tables, l: Locks, p: nat, q: Request, plan: Option<Plan>, k: nat)
    requires Exclude(l) && (q.Agree? || q.Discard?) && Planning(d, q, plan)
    ensures MayGoOn(d, l, l, p, Clear(q, plan, None))
    ensures IsLive(d, k, q.bill) && Free(l.splits, k, p) ==>
              MayGoOn(d, l, l.(splits := l.splits[k := p]), p, HasSplit(q, plan, k))
  {
    hide Planning;
  }

  lemma SumSharesIsSound(d: Tables, l: Locks, procs: map<nat, Proc>, p: nat, q: Request, plan: Option<Plan>, k: nat)
    requires Exclude(l) && TablesOk(d) && ProcOk(d, l, p, HasSplit(q, plan, k))
    ensures Sound(d, l, procs, p, HasSplit(q, plan, k), SumShares(AsBuilt, d, l, p, q, plan, k))
  {
    assert SplitOk(d, k);
    SummingShares(d, l, p, q, plan, k);
    hide TablesOk, OneLive, Moves, ProcOk, LockAll, AnyPaid, AllFree, Exclude, MayGoOn;
  }

  lemma SummingShares(d: Tables, l: Locks, p: nat, q: Request, plan: Option<Plan>, k: nat)
    requires Exclude(l) && ProcOk(d, l, p, HasSplit(q, plan, k)) && AllThere(d.shares, k, d.splits[k].members)
    ensures var members := d.splits[k].members;
            AllFree(l, members, p) && !AnyPaid(d, members) ==>
              MayGoOn(d, l, l.(shares := LockAll(l.shares, members, p)), p, Summed(q, plan, k))
  {
    var members := d.splits[k].members;
    if AllFree(l, members, p) && !AnyPaid(d, members) {
      LockingAll(l, members, p);
      UnpaidAndLocked(d, l.(shares := LockAll(l.shares, members, p)), k, members, p);
    }
    hide TablesOk, OneLive, Moves, Planning, LockAll, AnyPaid, AllFree, Exclude, Kept, HoldsMembers;
  }

  lemma UnpaidAndLocked(d: Tables, m: Locks, k: nat, members: seq<nat>, p: nat)
    requires AllThere(d.shares, k, members) && !AnyPaid(d, members)
    requires forall i :: 0 <= i < |members| ==> Has(m.shares, members[i], p)
    ensures HoldsMembers(d, m, p, members)
  {
    forall i | 0 <= i < |members| ensures d.shares[members[i]].paid == 0 {
    }
  }

  lemma LockingAll(l: Locks, members: seq<nat>, p: nat)
    requires AllFree(l, members, p) && Exclude(l)
    ensures var m := l.(shares := LockAll(l.shares, members, p));
            Kept(l, m, p) && Exclude(m) && forall i :: 0 <= i < |members| ==> Has(m.shares, members[i], p)
  {
    var m := LockAll(l.shares, members, p);
    forall x | x in members ensures Free(l.shares, x, p) && KeyFree(l.shareKeys, x, p) {
      var i :| 0 <= i < |members| && members[i] == x;
      assert ShareFree(l, members[i], p);
    }
  }

  lemma CountPendingIsSound(d: Tables, l: Locks, procs: map<nat, Proc>, p: nat, q: Request, plan: Option<Plan>, k: nat)
    requires Exclude(l) && ProcOk(d, l, p, Summed(q, plan, k))
    ensures Sound(d, l, procs, p, Summed(q, plan, k), CountPending(d, l, q, plan, k))
  {
    hide Planning;
  }

  lemma InsertIsSound(d: Tables, l: Locks, procs: map<nat, Proc>, p: nat, q: Request, plan: Option<Plan>,
                      prior: Option<nat>,
                      id: nat, ids: seq<nat>)
    requires Exclude(l) && q.Agree? && ProcOk(d, l, p, Clear(q, plan, prior))
    ensures Sound(d, l, procs, p, Clear(q, plan, prior), InsertSplit(d, l, procs, p, q, plan, prior, id, ids))
  {
    hide Planning, AnyPending;
  }
}
