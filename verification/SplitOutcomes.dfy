/**
 * What each accepted transaction of a stored split's life leaves in the tables,
 * and when money credits the share it names (src/services/payments.js,
 * src/services/splits.js, src/services/paymentClaims.js).
 */
module SplitOutcomes {
  import opened Wrappers
  import LargestRemainder
  import SplitEngine
  import opened SplitState
  import opened SplitSafety
  import opened SplitCommits
  import opened SplitTheorems
  import opened SplitHistory

  // ---- Which payment this is about -----------------------------------------

  /** The split a share belongs to, as the tables have it. */
  function SplitOf(d: Tables, x: nat): Option<Split> {
    if x in d.shares && d.shares[x].split in d.splits then Some(d.splits[d.shares[x].split]) else None
  }

  /** The bill a settling request is about. */
  function BillOf(d: Tables, q: Request): Option<nat> {
    match q
    case Pay(b, _, _) => Some(b)
    case Declare(b, _, _) => Some(b)
    case Confirm(i, _) => if i < |d.payments| then Some(d.payments[i].bill) else None
    case EditLines(b, _) => Some(b)
    case _ => None
  }

  /** A share that was of a live split of this bill, when the split was looked at, and has room. */
  predicate MayTake(d: Tables, b: nat, x: nat, amount: nat, seen: Option<Split>) {
    && seen.Some? && seen.value.bill == b && seen.value.status == ACTIVE
    && x in d.shares && d.shares[x].paid + amount <= d.shares[x].amount
  }

  predicate Credits(effect: Effect) {
    match effect
    case Record(payment) => payment.status == SUCCEEDED && payment.share.Some?
    case Settle(_, credited) => credited
    case _ => false
  }

  /** What is about to be committed is what was asked for. */
  predicate IsAsked(d: Tables, q: Request, effect: Effect) {
    match q
    case Pay(b, x, amount) => effect == Record(Payment(b, x, amount, SUCCEEDED))
    case Declare(b, x, amount) => effect == Record(Payment(b, x, amount, PENDING))
    case Confirm(i, detach) =>
      && i < |d.payments| && effect == Settle(i, Credits(effect))
      && (Credits(effect) ==> d.payments[i].share.Some?)
      && (!Credits(effect) && d.payments[i].share.Some? ==> detach)
    case Reject(i) => effect == Fail(i)
    case EditLines(b, due) => effect.Retire? && effect.bill == b && effect.due == due
    case _ => false
  }

  /** The requests that settle money. */
  predicate Settles(q: Request) { q.Pay? || q.Confirm? }

  // ---- The two moments that decide -----------------------------------------

  /** Event `i` is `p`'s statement beginning: this is what it sees of the split of share `x`. */
  ghost predicate Sees(dues: map<nat, nat>, es: seq<Event>, p: nat, i: nat, x: nat, seen: Option<Split>) {
    StepOf(es, i, p) && var s := At(dues, es, i);
    p in s.procs && s.procs[p].Crediting? && seen == SplitOf(s.tables, x)
  }

  /** Event `j` is it getting the share's lock, and finding that the share may take the amount, or that it may not. */
  ghost predicate Decides(dues: map<nat, nat>, es: seq<Event>, p: nat, j: nat, b: nat, x: nat, amount: nat,
                          seen: Option<Split>, takes: bool)
  {
    StepOf(es, j, p) && var s := At(dues, es, j);
    p in s.procs && s.procs[p].WantsShare? && s.procs[p].share == x
    && takes == MayTake(s.tables, b, x, amount, seen)
  }

  /**
   * The share takes the amount exactly if it was of a live split when looked at, at
   * `i`, and had room when locked, at `j`.
   */
  ghost predicate Decided(dues: map<nat, nat>, es: seq<Event>, p: nat, i: nat, j: nat, b: nat, x: nat, amount: nat,
                          takes: bool)
  {
    i < j < |es| && Sees(dues, es, p, i, x, SplitOf(At(dues, es, i).tables, x))
    && Decides(dues, es, p, j, b, x, amount, SplitOf(At(dues, es, i).tables, x), takes)
  }

  lemma DecidedStays(dues: map<nat, nat>, es: seq<Event>, n: nat, p: nat, i: nat, j: nat, b: nat, x: nat, amount: nat,
                     takes: bool)
    requires n <= |es| && Decided(dues, es[..n], p, i, j, b, x, amount, takes)
    ensures Decided(dues, es, p, i, j, b, x, amount, takes)
  {
    hide At;
    Earlier(dues, es, n, i);
    Earlier(dues, es, n, j);
  }

  lemma SeesStays(dues: map<nat, nat>, es: seq<Event>, n: nat, p: nat, i: nat, x: nat, seen: Option<Split>)
    requires n <= |es| && Sees(dues, es[..n], p, i, x, seen)
    ensures Sees(dues, es, p, i, x, seen)
  {
    hide At;
    Earlier(dues, es, n, i);
  }

  ghost predicate SightTraced(dues: map<nat, nat>, es: seq<Event>, p: nat, at: Proc) {
    at.WantsShare? ==> exists i: nat :: Sees(dues, es, p, i, at.share, at.seen)
  }

  ghost predicate CreditTraced(dues: map<nat, nat>, es: seq<Event>, p: nat, d: Tables, at: Proc) {
    at.Ready? ==>
      && IsAsked(d, at.q, at.effect)
      && (Settles(at.q) && ShareOf(d, at.q).Some? ==>
            BillOf(d, at.q).Some? &&
            exists i: nat, j: nat ::
              Decided(dues, es, p, i, j, BillOf(d, at.q).value, ShareOf(d, at.q).value, AmountOf(d, at.q),
                      Credits(at.effect)))
  }

  // ---- One statement -------------------------------------------------------

  /** What a statement of a payer leads to. */
  predicate StepsWell(d: Tables, was: Proc, now: Proc) {
    && (now.WantsShare? ==> was.Crediting? && now.seen == SplitOf(d, now.share))
    && (now.Ready? ==>
          && IsAsked(d, now.q, now.effect)
          && (Settles(now.q) && ShareOf(d, now.q).Some? ==>
                && was.WantsShare? && was.share == ShareOf(d, now.q).value
                && BillOf(d, now.q) == Some(was.bill)
                && Credits(now.effect) == MayTake(d, was.bill, was.share, AmountOf(d, now.q), was.seen)))
  }

  lemma WithBillStepsWell(d: Tables, l: Locks, p: nat, q: Request, b: nat)
    requires HoldsBill(d, l, p, q, b)
    ensures var move := WithBill(AsBuilt, d, l, p, q, b); move.To? ==> StepsWell(d, HasBill(q, b), move.at)
  {
    hide Fits;
  }

  lemma SnapshotStepsWell(d: Tables, l: Locks, q: Request, b: nat)
    ensures var move := TakeSnapshot(d, l, q, b); move.To? ==> StepsWell(d, Crediting(q, b), move.at)
  {
  }

  lemma LockShareStepsWell(d: Tables, l: Locks, p: nat, q: Request, b: nat, x: nat, seen: Option<Split>)
    requires Settling(d, l, p, q, b, x)
    ensures var move := LockShare(d, l, p, q, b, x, seen); move.To? ==> StepsWell(d, WantsShare(q, b, x, seen), move.at)
  {
    hide Fits, ShareFree;
  }

  lemma MarkStaleStepsWell(d: Tables, l: Locks, p: nat, q: Request, b: nat, live: Option<nat>)
    requires q.EditLines? && q.bill == b
    ensures var move := MarkStale(d, l, p, q, b, live); move.To? ==> StepsWell(d, Marking(q, b, live), move.at)
  {
  }

  lemma LockPaymentStepsWell(d: Tables, l: Locks, p: nat, q: Request)
    requires q.Confirm? || q.Reject?
    ensures var move := LockPayment(d, l, p, q); move.To? ==> StepsWell(d, WantsPayment(q), move.at)
  {
  }

  /** The planners never come to pay. */
  lemma PlannersStepWell(s: State, p: nat, id: nat, ids: seq<nat>)
    requires p in s.procs && !OnMoney(s.procs[p])
    ensures var move := Next(AsBuilt, s, p, id, ids); move.To? ==> StepsWell(s.tables, s.procs[p], move.at)
  {
    hide AllFree, AnyPaid, AnyPending, Unused, Apart, Void, AddsUp, Agreed, LockAll, IsAsked;
  }

  lemma EveryStatementStepsWell(s: State, p: nat, id: nat, ids: seq<nat>)
    requires Inv(s) && p in s.procs
    ensures var move := Next(AsBuilt, s, p, id, ids); move.To? ==> StepsWell(s.tables, s.procs[p], move.at)
  {
    hide TablesOk, OneLive, Exclude, AllApart, StepsWell, LockPayment, LockBill, WithBill, TakeSnapshot, LockShare,
         MarkStale, Apply, PlannerOk, EffectOk, HoldsBill, Settling;
    assert ProcOk(s.tables, s.locks, p, s.procs[p]);
    if !OnMoney(s.procs[p]) {
      PlannersStepWell(s, p, id, ids);
    } else {
      PayersStepWell(s, p, id, ids);
    }
  }

  lemma PayersStepWell(s: State, p: nat, id: nat, ids: seq<nat>)
    requires p in s.procs && OnMoney(s.procs[p]) && PayerOk(s.tables, s.locks, p, s.procs[p])
    ensures var move := Next(AsBuilt, s, p, id, ids); move.To? ==> StepsWell(s.tables, s.procs[p], move.at)
  {
    hide LockPayment, LockBill, WithBill, TakeSnapshot, LockShare, MarkStale, Apply, EffectOk, Settling, StepsWell;
    var d, l := s.tables, s.locks;
    match s.procs[p] {
      case WantsPayment(q) => LockPaymentStepsWell(d, l, p, q);
      case WantsBill(q, b) => LockBillStepsWell(d, l, p, q, b);
      case HasBill(q, b) => WithBillStepsWell(d, l, p, q, b);
      case Crediting(q, b) => SnapshotStepsWell(d, l, q, b);
      case WantsShare(q, b, x, seen) => LockShareStepsWell(d, l, p, q, b, x, seen);
      case Marking(q, b, live) => MarkStaleStepsWell(d, l, p, q, b, live);
      case _ =>
    }
  }

  lemma LockBillStepsWell(d: Tables, l: Locks, p: nat, q: Request, b: nat)
    ensures var move := LockBill(d, l, p, q, b); move.To? ==> StepsWell(d, WantsBill(q, b), move.at)
  {
    hide Fits, BillFree;
  }

  // ---- Every payer's moments -----------------------------------------------

  /** What is asked for, of whom and how much, is the same in both. */
  predicate SameAsked(d: Tables, e: Tables, q: Request) {
    && ShareOf(e, q) == ShareOf(d, q) && AmountOf(e, q) == AmountOf(d, q) && BillOf(e, q) == BillOf(d, q)
    && (q.Confirm? && q.payment < |d.payments| ==>
          q.payment < |e.payments| && e.payments[q.payment] == d.payments[q.payment])
  }

  lemma SameAskedIsAsked(d: Tables, e: Tables, q: Request, effect: Effect)
    requires SameAsked(d, e, q) && IsAsked(d, q, effect)
    ensures IsAsked(e, q, effect)
  {
  }

  /** While a transaction has its effect ready, nobody else changes what it is about. */
  lemma AskedStays(s: State, e: Event, o: nat)
    requires Inv(s) && o in s.procs && s.procs[o].Ready? && IsAsked(s.tables, s.procs[o].q, s.procs[o].effect)
    requires !(e.Advance? && e.p == o)
    ensures SameAsked(s.tables, Exec(AsBuilt, s, e).tables, s.procs[o].q)
  {
    hide TablesOk, OneLive, AllApart, Exec, Moves, Exclude, MayReceive, PaymentOk;
    ExecMoves(s, e);
    var d, t, q := s.tables, Exec(AsBuilt, s, e).tables, s.procs[o].q;
    assert ProcOk(d, s.locks, o, s.procs[o]);
    if t != d && q.Confirm? {
      ClaimHeld(d, t, s.locks, e.p, s.procs[e.p], o, q);
    }
  }

  /** Others' events leave a payer where it is; it may itself crash or not have come yet. */
  lemma OthersLeaveIt(s: State, e: Event, p: nat)
    requires p in Exec(AsBuilt, s, e).procs && !(e.Advance? && e.p == p && p in s.procs)
    ensures var now := Exec(AsBuilt, s, e).procs[p];
            (p in s.procs && now == s.procs[p]) || (!now.WantsShare? && !now.Ready?)
  {
    hide Next, Released;
  }

  lemma SightStays(dues: map<nat, nat>, es: seq<Event>, n: nat, p: nat, at: Proc)
    requires n <= |es| && SightTraced(dues, es[..n], p, at)
    ensures SightTraced(dues, es, p, at)
  {
    hide Sees;
    if at.WantsShare? {
      var i: nat :| Sees(dues, es[..n], p, i, at.share, at.seen);
      SeesStays(dues, es, n, p, i, at.share, at.seen);
    }
  }

  lemma CreditStays(dues: map<nat, nat>, es: seq<Event>, n: nat, p: nat, d: Tables, e: Tables, at: Proc)
    requires n <= |es| && CreditTraced(dues, es[..n], p, d, at) && (at.Ready? ==> SameAsked(d, e, at.q))
    ensures CreditTraced(dues, es, p, e, at)
  {
    hide Decided;
    if at.Ready? {
      SameAskedIsAsked(d, e, at.q, at.effect);
      if Settles(at.q) && ShareOf(d, at.q).Some? {
        var b, x, amount := BillOf(d, at.q).value, ShareOf(d, at.q).value, AmountOf(d, at.q);
        var i: nat, j: nat :| Decided(dues, es[..n], p, i, j, b, x, amount, Credits(at.effect));
        DecidedStays(dues, es, n, p, i, j, b, x, amount, Credits(at.effect));
      }
    }
  }

  lemma {:induction false} PayersAreTraced(dues: map<nat, nat>, es: seq<Event>, p: nat)
    requires p in At(dues, es, |es|).procs
    ensures SightTraced(dues, es, p, At(dues, es, |es|).procs[p])
    ensures CreditTraced(dues, es, p, At(dues, es, |es|).tables, At(dues, es, |es|).procs[p])
  {
    hide At, Exec, Inv, SightTraced, CreditTraced;
    if es == [] {
      NobodyYet(dues, es);
    } else {
      var n := |es| - 1;
      var s := At(dues, es, n);
      Later(dues, es, n);
      Earlier(dues, es, n, n);
      if p in s.procs {
        PayersAreTraced(dues, es[..n], p);
      }
      if StepOf(es, n, p) && p in s.procs {
        OwnStepIsTraced(dues, es, p);
      } else {
        OthersStepIsTraced(dues, es, p);
      }
    }
  }

  lemma OthersStepIsTraced(dues: map<nat, nat>, es: seq<Event>, p: nat)
    requires es != [] && p in At(dues, es, |es|).procs
    requires var n := |es| - 1; var s := At(dues, es, n);
             p in s.procs ==>
               !StepOf(es, n, p) && SightTraced(dues, es[..n], p, s.procs[p])
               && CreditTraced(dues, es[..n], p, s.tables, s.procs[p])
    ensures SightTraced(dues, es, p, At(dues, es, |es|).procs[p])
    ensures CreditTraced(dues, es, p, At(dues, es, |es|).tables, At(dues, es, |es|).procs[p])
  {
    hide At, Exec, Inv, Sees, Decided, SameAsked, IsAsked;
    var n := |es| - 1;
    var s, t := At(dues, es, n), At(dues, es, n + 1);
    Later(dues, es, n);
    OthersLeaveIt(s, es[n], p);
    if p in s.procs && t.procs[p] == s.procs[p] {
      SightStays(dues, es, n, p, s.procs[p]);
      if s.procs[p].Ready? {
        AskedStays(s, es[n], p);
      }
      CreditStays(dues, es, n, p, s.tables, t.tables, s.procs[p]);
    }
  }

  lemma OwnStepIsTraced(dues: map<nat, nat>, es: seq<Event>, p: nat)
    requires es != [] && StepOf(es, |es| - 1, p) && p in At(dues, es, |es| - 1).procs
    requires var n := |es| - 1; var s := At(dues, es, n);
             SightTraced(dues, es[..n], p, s.procs[p]) && CreditTraced(dues, es[..n], p, s.tables, s.procs[p])
    ensures p in At(dues, es, |es|).procs
    ensures SightTraced(dues, es, p, At(dues, es, |es|).procs[p])
    ensures CreditTraced(dues, es, p, At(dues, es, |es|).tables, At(dues, es, |es|).procs[p])
  {
    hide At, Exec, Inv, Next, SightTraced, CreditTraced;
    var n := |es| - 1;
    var s, t, e := At(dues, es, n), At(dues, es, n + 1), es[n];
    Later(dues, es, n);
    StepIs(s, p, e.id, e.ids);
    SightStays(dues, es, n, p, s.procs[p]);
    var move := Next(AsBuilt, s, p, e.id, e.ids);
    if move.To? {
      EveryStatementStepsWell(s, p, e.id, e.ids);
      GoingOnWrites(s, p, e);
      GoingOnIsTraced(dues, es, p, move.at);
    } else if move.Wait? {
      WaitingWrites(s, p, e);
      SameAskedAlways(s.tables, s.procs[p]);
      CreditStays(dues, es, n, p, s.tables, t.tables, s.procs[p]);
    } else {
      EndingEnds(s, p, e);
      DoneIsTraced(dues, es, p, t.tables, t.procs[p]);
    }
  }

  lemma SameAskedAlways(d: Tables, at: Proc)
    ensures SameAsked(d, d, at.q)
  {
  }

  lemma GoingOnWrites(s: State, p: nat, e: Event)
    requires e.Advance? && e.p == p && p in s.procs && Next(AsBuilt, s, p, e.id, e.ids).To?
    ensures Exec(AsBuilt, s, e).tables == s.tables
  {
    hide Next;
  }

  lemma WaitingWrites(s: State, p: nat, e: Event)
    requires e.Advance? && e.p == p && p in s.procs && Next(AsBuilt, s, p, e.id, e.ids).Wait?
    ensures Exec(AsBuilt, s, e) == s
  {
    hide Next;
  }

  lemma EndingEnds(s: State, p: nat, e: Event)
    requires e.Advance? && e.p == p && p in s.procs
    requires var move := Next(AsBuilt, s, p, e.id, e.ids); move.Refuse? || move.Commit?
    ensures p in Exec(AsBuilt, s, e).procs && Exec(AsBuilt, s, e).procs[p].Done?
  {
    hide Next, Released;
  }

  lemma DoneIsTraced(dues: map<nat, nat>, es: seq<Event>, p: nat, d: Tables, at: Proc)
    requires at.Done?
    ensures SightTraced(dues, es, p, at) && CreditTraced(dues, es, p, d, at)
  {
  }

  lemma GoingOnIsTraced(dues: map<nat, nat>, es: seq<Event>, p: nat, now: Proc)
    requires es != [] && StepOf(es, |es| - 1, p) && p in At(dues, es, |es| - 1).procs
    requires SightTraced(dues, es, p, At(dues, es, |es| - 1).procs[p])
    requires StepsWell(At(dues, es, |es| - 1).tables, At(dues, es, |es| - 1).procs[p], now)
    ensures SightTraced(dues, es, p, now)
    ensures CreditTraced(dues, es, p, At(dues, es, |es| - 1).tables, now)
  {
    hide At, IsAsked, MayTake, SplitOf;
    var n := |es| - 1;
    var s := At(dues, es, n);
    if now.WantsShare? {
      assert Sees(dues, es, p, n, now.share, now.seen);
    }
    if now.Ready? && Settles(now.q) && ShareOf(s.tables, now.q).Some? {
      var was := s.procs[p];
      var i: nat :| Sees(dues, es, p, i, was.share, was.seen);
      SightComesFirst(dues, es, p, i);
      assert Decided(dues, es, p, i, n, was.bill, was.share, AmountOf(s.tables, now.q), Credits(now.effect));
    }
  }

  lemma SightComesFirst(dues: map<nat, nat>, es: seq<Event>, p: nat, i: nat)
    requires es != [] && i < |es| && StepOf(es, i, p)
    requires p in At(dues, es, i).procs && At(dues, es, i).procs[p].Crediting?
    requires p in At(dues, es, |es| - 1).procs && At(dues, es, |es| - 1).procs[p].WantsShare?
    ensures i < |es| - 1
  {
    hide At;
  }

  // ---- What is gained ------------------------------------------------------

  /** This much more on the bill, by way of a share or past them all, and closed exactly on equality. */
  predicate LandedOn(was: Bill, now: Bill, amount: nat, viaShare: bool) {
    && now.due == was.due && now.edits == was.edits
    && now.direct == was.direct + (if viaShare then 0 else amount)
    && now.shared == was.shared + (if viaShare then amount else 0)
    && (now.open <==> was.due != was.direct + was.shared + amount)
  }

  /** Money on one bill, credited to one share or to none; nothing else moved. */
  predicate Credited(d: Tables, e: Tables, b: nat, x: Option<nat>, amount: nat) {
    && e.splits == d.splits && e.shares.Keys == d.shares.Keys && e.bills.Keys == d.bills.Keys && b in d.bills
    && LandedOn(d.bills[b], e.bills[b], amount, x.Some?)
    && (forall c :: c in d.bills && c != b ==> e.bills[c] == d.bills[c])
    && (forall y :: y in d.shares ==>
          && e.shares[y].split == d.shares[y].split && e.shares[y].amount == d.shares[y].amount
          && e.shares[y].paid == d.shares[y].paid + (if x == Some(y) then amount else 0))
  }

  predicate OnlyPayment(was: seq<Payment>, now: seq<Payment>, i: nat, payment: Payment) {
    i < |was| == |now| && now[i] == payment && forall k :: 0 <= k < |was| && k != i ==> now[k] == was[k]
  }

  /** A claim that settled: on its share, which it still names, or on the bill alone, and then it names nobody. */
  predicate Confirmed(d: Tables, e: Tables, i: nat, credited: bool) {
    && i < |d.payments| && d.payments[i].status == PENDING
    && var was := d.payments[i]; var x := if credited then was.share else None;
       && (credited ==> was.share.Some? && was.share.value in d.shares)
       && OnlyPayment(d.payments, e.payments, i, Payment(was.bill, x, was.amount, SUCCEEDED))
       && Credited(d, e, was.bill, x, was.amount)
  }

  /** One split has another status; nothing else of any plan or share differs. */
  predicate Restated(d: Tables, e: Tables, k: nat, status: Status) {
    && k in d.splits && d.splits[k].status == ACTIVE && e.splits.Keys == d.splits.Keys
    && e.splits[k].status == status && SameTerms(d.splits[k], e.splits[k])
    && forall c :: c in d.splits && c != k ==> e.splits[c] == d.splits[c]
  }

  /** The total is what was asked for; if that is another, whatever was live on the bill is STALE now. */
  ghost predicate EditedTo(d: Tables, e: Tables, b: nat, due: nat) {
    && e.payments == d.payments && e.shares == d.shares && e.bills.Keys == d.bills.Keys && b in d.bills
    && e.bills[b].due == due && Paid(e.bills[b]) == Paid(d.bills[b]) <= due && e.bills[b].open == d.bills[b].open
    && (forall c :: c in d.bills && c != b ==> e.bills[c] == d.bills[c])
    && (if due == d.bills[b].due then e.splits == d.splits
        else
          && e.splits.Keys == d.splits.Keys
          && forall k :: k in d.splits ==>
               if IsLive(d, k, b) then e.splits[k] == d.splits[k].(status := STALE) else e.splits[k] == d.splits[k])
  }

  /** A new plan of the bill is live, of the engine's own amounts; what was live on it before is VOID. */
  ghost predicate AgreedOn(d: Tables, e: Tables, b: nat, ask: Ask) {
    && e.payments == d.payments && e.bills == d.bills
    && (forall x :: x in d.shares ==> x in e.shares && e.shares[x] == d.shares[x])
    && exists k: nat ::
         && k !in d.splits && IsLive(e, k, b) && e.splits[k].ask == ask
         && (forall c :: c in e.splits ==> c in d.splits || c == k)
         && (forall x :: x in e.shares && x !in d.shares ==> e.shares[x].split == k && e.shares[x].paid == 0)
         && (forall c :: c in d.splits ==>
               c in e.splits && SameTerms(d.splits[c], e.splits[c])
               && e.splits[c].status == if IsLive(d, c, b) then VOID else d.splits[c].status)
  }

  /** What the tables gained by a request that was accepted. */
  ghost predicate Gained(d: Tables, e: Tables, q: Request) {
    match q
    case Pay(b, x, amount) =>
      && e.payments == d.payments + [Payment(b, x, amount, SUCCEEDED)]
      && (x.Some? ==> x.value in d.shares) && Credited(d, e, b, x, amount)
    case Declare(b, x, amount) => e == d.(payments := d.payments + [Payment(b, x, amount, PENDING)])
    case Confirm(i, detach) => exists credited: bool :: Confirmed(d, e, i, credited)
    case Reject(i) =>
      && i < |d.payments| && d.payments[i].status == PENDING && e == d.(payments := e.payments)
      && OnlyPayment(d.payments, e.payments, i, d.payments[i].(status := FAILED))
    case Agree(b, ask) => AgreedOn(d, e, b, ask)
    case Discard(b, k) =>
      && e.payments == d.payments && e.shares == d.shares && e.bills == d.bills
      && Restated(d, e, k, VOID) && d.splits[k].bill == b
    case EditLines(b, due) => EditedTo(d, e, b, due)
  }

  lemma ReceiveCredits(d: Tables, l: Locks, p: nat, payments: seq<Payment>, b: nat, x: Option<nat>, amount: nat)
    requires MayReceive(d, l, p, b, x, amount)
    ensures Credited(d, Receive(d, payments, b, x, amount), b, x, amount)
  {
  }

  lemma RecordGains(d: Tables, l: Locks, p: nat, q: Request, effect: Effect)
    requires EffectOk(d, l, p, q, effect) && IsAsked(d, q, effect) && effect.Record?
    ensures Gained(d, Apply(d, effect), q)
  {
    hide Credited, Receive;
    var payment := effect.payment;
    if payment.status == SUCCEEDED {
      ReceiveCredits(d, l, p, d.payments + [payment], payment.bill, payment.share, payment.amount);
      ReceivePays(d, d.payments + [payment], payment.bill, payment.share, payment.amount);
    }
  }

  lemma ReceivePays(d: Tables, payments: seq<Payment>, b: nat, x: Option<nat>, amount: nat)
    ensures Receive(d, payments, b, x, amount).payments == payments
  {
  }

  lemma SettleGains(d: Tables, l: Locks, p: nat, q: Request, effect: Effect)
    requires EffectOk(d, l, p, q, effect) && IsAsked(d, q, effect) && effect.Settle?
    ensures q.Confirm? && Confirmed(d, Apply(d, effect), q.payment, Credits(effect))
  {
    hide Credited, Receive;
    var was := d.payments[effect.index];
    var x := if effect.credited then was.share else None;
    var payments := d.payments[effect.index := was.(status := SUCCEEDED, share := x)];
    ReceiveCredits(d, l, p, payments, was.bill, x, was.amount);
    ReceivePays(d, payments, was.bill, x, was.amount);
  }

  lemma EditGains(d: Tables, l: Locks, p: nat, q: Request, effect: Effect)
    requires EffectOk(d, l, p, q, effect) && IsAsked(d, q, effect) && effect.Retire?
    ensures Gained(d, Apply(d, effect), q)
  {
    hide MayReceive;
    var e := Apply(d, effect);
    forall k | k in d.splits
      ensures effect.due != d.bills[effect.bill].due ==>
                e.splits[k] == if IsLive(d, k, effect.bill) then d.splits[k].(status := STALE) else d.splits[k]
    {
      assert effect.due != d.bills[effect.bill].due && IsLive(d, k, effect.bill) ==> effect.live == Some(k);
    }
  }

  lemma FailGains(d: Tables, l: Locks, p: nat, q: Request, effect: Effect)
    requires EffectOk(d, l, p, q, effect) && IsAsked(d, q, effect) && effect.Fail?
    ensures Gained(d, Apply(d, effect), q)
  {
  }

  lemma EffectGains(d: Tables, l: Locks, p: nat, q: Request, effect: Effect)
    requires EffectOk(d, l, p, q, effect) && IsAsked(d, q, effect)
    ensures Gained(d, Apply(d, effect), q)
  {
    hide EffectOk, IsAsked, Gained, Apply;
    match effect {
      case Record(_) => RecordGains(d, l, p, q, effect);
      case Settle(_, _) =>
        SettleGains(d, l, p, q, effect);
        ConfirmedGains(d, Apply(d, effect), q, Credits(effect));
      case Fail(_) => FailGains(d, l, p, q, effect);
      case Retire(_, _, _) => EditGains(d, l, p, q, effect);
    }
  }

  lemma ConfirmedGains(d: Tables, e: Tables, q: Request, credited: bool)
    requires q.Confirm? && Confirmed(d, e, q.payment, credited)
    ensures Gained(d, e, q)
  {
    hide Confirmed;
  }

  lemma DiscardGains(d: Tables, l: Locks, p: nat, q: Request)
    requires q.Discard? && MayVoid(d, l, p, q, Some(q.split))
    ensures Gained(d, d.(splits := Void(d, Some(q.split))), q)
  {
  }

  lemma AgreeGains(d: Tables, l: Locks, p: nat, mine: Proc)
    requires mine.Inserted? && mine.q.Agree? && PlannerOk(d, l, p, mine) && AddsUp(mine.plan.value)
    ensures Gained(d, Agreed(d, mine.q, mine.plan.value, mine.prior, mine.at, mine.id, mine.ids), mine.q)
  {
    hide AddsUp, Agreed, PlanOk, HoldsMembers, AnyPending;
    var q, plan, k := mine.q, mine.plan.value, mine.id;
    var e := Agreed(d, q, plan, mine.prior, mine.at, k, mine.ids);
    AgreedRows(d, q, plan, mine.prior, mine.at, k, mine.ids);
    assert IsLive(e, k, q.bill) && e.splits[k].ask == q.ask;
    forall c | c in d.splits
      ensures c in e.splits && SameTerms(d.splits[c], e.splits[c])
      ensures e.splits[c].status == if IsLive(d, c, q.bill) then VOID else d.splits[c].status
    {
      assert IsLive(d, c, q.bill) ==> mine.prior == Some(c);
    }
    NewSharesAreItsOwn(d, e, k, mine.ids, plan.amounts);
  }

  lemma NewSharesAreItsOwn(d: Tables, e: Tables, k: nat, ids: seq<nat>, amounts: seq<int>)
    requires |ids| == |amounts| && forall x :: x in e.shares <==> x in d.shares || x in ids
    requires forall i :: 0 <= i < |ids| ==> ids[i] in e.shares && e.shares[ids[i]] == Share(k, amounts[i], 0)
    ensures forall x :: x in e.shares && x !in d.shares ==> e.shares[x].split == k && e.shares[x].paid == 0
  {
    forall x | x in e.shares && x !in d.shares ensures e.shares[x].split == k && e.shares[x].paid == 0 {
      var i :| 0 <= i < |ids| && ids[i] == x;
    }
  }

  // ---- Every commit --------------------------------------------------------

  /** A voiding is of the split it was asked for. */
  predicate OfItsSplit(at: Proc) {
    match at
    case WantsSplit(q, _, k) => q.Discard? ==> k == q.split
    case HasSplit(q, _, k) => q.Discard? ==> k == q.split
    case Summed(q, _, k) => q.Discard? ==> k == q.split
    case Clear(q, _, prior) => q.Discard? ==> prior == Some(q.split)
    case Seeks(q, _) => !q.Discard?
    case ReadsBill(q) => !q.Discard?
    case _ => true
  }

  lemma StepIsOfItsSplit(s: State, e: Event, p: nat)
    requires p in s.procs ==> OfItsSplit(s.procs[p])
    ensures p in Exec(AsBuilt, s, e).procs ==> OfItsSplit(Exec(AsBuilt, s, e).procs[p])
  {
    hide AllFree, AnyPaid, AnyPending, Unused, Apart, Void, AddsUp, Agreed, LockAll, Released, Apply, Fits, Refuses,
         BillFree, ShareFree;
    if e.Advance? && e.p == p && p in s.procs {
      if OnMoney(s.procs[p]) {
        PayersPlanNothing(s, p, e.id, e.ids);
        PayerStaysPayer(s, e, p);
      } else {
        PlannerStepIsOfItsSplit(s, p, e.id, e.ids);
        PerformIs(s, p, Next(AsBuilt, s, p, e.id, e.ids));
      }
    } else {
      OtherStepIsOfItsSplit(s, e, p);
    }
  }

  lemma PerformIs(s: State, p: nat, move: Move)
    requires p in s.procs
    ensures var t := Perform(s, p, move);
            && p in t.procs
            && t.procs[p] == match move
               case Wait => s.procs[p]
               case Refuse => Done(s.procs[p].q, false)
               case To(at, _) => at
               case Commit(_) => Done(s.procs[p].q, true)
  {
    hide Released;
  }

  lemma PayerStaysPayer(s: State, e: Event, p: nat)
    requires e.Advance? && e.p == p && p in s.procs && OnMoney(s.procs[p])
    requires var move := Next(AsBuilt, s, p, e.id, e.ids); move.To? ==> OnMoney(move.at)
    ensures p in Exec(AsBuilt, s, e).procs && OnMoney(Exec(AsBuilt, s, e).procs[p])
    ensures OfItsSplit(Exec(AsBuilt, s, e).procs[p])
  {
    hide Next, Perform;
    PerformIs(s, p, Next(AsBuilt, s, p, e.id, e.ids));
  }

  lemma PlannerStepIsOfItsSplit(s: State, p: nat, id: nat, ids: seq<nat>)
    requires p in s.procs && !OnMoney(s.procs[p]) && OfItsSplit(s.procs[p])
    ensures var move := Next(AsBuilt, s, p, id, ids); move.To? ==> OfItsSplit(move.at)
  {
    hide AllFree, AnyPaid, AnyPending, Unused, Apart, Void, AddsUp, Agreed, LockAll;
  }

  lemma OtherStepIsOfItsSplit(s: State, e: Event, p: nat)
    requires !(e.Advance? && e.p == p && p in s.procs) && (p in s.procs ==> OfItsSplit(s.procs[p]))
    ensures p in Exec(AsBuilt, s, e).procs ==> OfItsSplit(Exec(AsBuilt, s, e).procs[p])
  {
    hide Next, Released;
  }

  lemma {:induction false} DiscardsTheirSplit(dues: map<nat, nat>, es: seq<Event>, n: nat, p: nat)
    requires n <= |es| && p in At(dues, es, n).procs
    ensures OfItsSplit(At(dues, es, n).procs[p])
  {
    hide At, Exec, Inv, OfItsSplit;
    if n == 0 {
      NobodyAtFirst(dues, es);
    } else {
      Later(dues, es, n - 1);
      if p in At(dues, es, n - 1).procs {
        DiscardsTheirSplit(dues, es, n - 1, p);
      }
      StepIsOfItsSplit(At(dues, es, n - 1), es[n - 1], p);
    }
  }

  lemma NobodyAtFirst(dues: map<nat, nat>, es: seq<Event>)
    ensures At(dues, es, 0).procs == map[]
  {
  }

  /** Event `n` brings `p`'s transaction to its end with success. */
  ghost predicate Accepts(dues: map<nat, nat>, es: seq<Event>, n: nat, p: nat) {
    StepOf(es, n, p) && var s, t := At(dues, es, n), At(dues, es, n + 1);
    p in s.procs && !s.procs[p].Done? && p in t.procs && t.procs[p] == Done(s.procs[p].q, true)
  }

  /** Nobody goes on to `Done`. */
  lemma StepsAreNotEnds(s: State, p: nat, id: nat, ids: seq<nat>)
    requires p in s.procs && !s.procs[p].Done?
    ensures var move := Next(AsBuilt, s, p, id, ids); move.To? ==> !move.at.Done?
  {
    hide AllFree, AnyPaid, AnyPending, Unused, Apart, Void, AddsUp, Agreed, LockAll, Apply, Fits, Refuses, BillFree,
         ShareFree;
  }

  lemma AcceptingCommits(s: State, e: Event, p: nat)
    requires e.Advance? && e.p == p && p in s.procs && !s.procs[p].Done?
    requires p in Exec(AsBuilt, s, e).procs && Exec(AsBuilt, s, e).procs[p] == Done(s.procs[p].q, true)
    ensures var move := Next(AsBuilt, s, p, e.id, e.ids); move.Commit? && Exec(AsBuilt, s, e).tables == move.tables
  {
    hide Next, Released;
    StepsAreNotEnds(s, p, e.id, e.ids);
  }

  /** Only three statements commit. */
  lemma CommittersAre(s: State, p: nat, id: nat, ids: seq<nat>)
    requires p in s.procs && Next(AsBuilt, s, p, id, ids).Commit?
    ensures var at, e := s.procs[p], Next(AsBuilt, s, p, id, ids).tables;
            || (at.Ready? && e == Apply(s.tables, at.effect))
            || (at.Clear? && at.q.Discard? && e == s.tables.(splits := Void(s.tables, at.prior)))
            || (at.Inserted? && at.q.Agree? && at.plan.Some? && AddsUp(at.plan.value)
                && |at.ids| == |at.plan.value.amounts|
                && e == Agreed(s.tables, at.q, at.plan.value, at.prior, at.at, at.id, at.ids))
  {
    hide AllFree, AnyPaid, AnyPending, Unused, Apart, Void, AddsUp, Agreed, LockAll, Apply, Fits, Refuses, BillFree,
         ShareFree;
  }

  /** Over any run: a transaction that is accepted has added to the tables exactly what it was asked to add. */
  lemma AcceptedIsGained(dues: map<nat, nat>, es: seq<Event>, n: nat, p: nat)
    requires Accepts(dues, es, n, p)
    ensures Gained(At(dues, es, n).tables, At(dues, es, n + 1).tables, At(dues, es, n).procs[p].q)
  {
    hide At, Exec, Inv, Next, Gained, CreditTraced, OfItsSplit;
    var s := At(dues, es, n);
    Later(dues, es, n);
    AcceptingCommits(s, es[n], p);
    CommittersAre(s, p, es[n].id, es[n].ids);
    DiscardsTheirSplit(dues, es, n, p);
    var at := s.procs[p];
    if at.Ready? {
      PreparedIsAsked(dues, es, n, p);
      ReadyIsOk(s, p);
      EffectGains(s.tables, s.locks, p, at.q, at.effect);
    } else if at.Clear? {
      VoidingIsOk(s, p);
      DiscardGains(s.tables, s.locks, p, at.q);
    } else {
      InsertedIsOk(s, p);
      AgreeGains(s.tables, s.locks, p, at);
    }
  }

  lemma PreparedIsAsked(dues: map<nat, nat>, es: seq<Event>, n: nat, p: nat)
    requires n <= |es| && p in At(dues, es, n).procs && At(dues, es, n).procs[p].Ready?
    ensures var s := At(dues, es, n); CreditTraced(dues, es[..n], p, s.tables, s.procs[p])
    ensures IsAsked(At(dues, es, n).tables, At(dues, es, n).procs[p].q, At(dues, es, n).procs[p].effect)
  {
    hide At, Decided;
    Earlier(dues, es, n, n);
    PayersAreTraced(dues, es[..n], p);
  }

  lemma ReadyIsOk(s: State, p: nat)
    requires Inv(s) && p in s.procs && s.procs[p].Ready?
    ensures EffectOk(s.tables, s.locks, p, s.procs[p].q, s.procs[p].effect)
  {
    hide TablesOk, OneLive, Exclude, AllApart, EffectOk;
    assert ProcOk(s.tables, s.locks, p, s.procs[p]);
  }

  lemma VoidingIsOk(s: State, p: nat)
    requires Inv(s) && p in s.procs && s.procs[p].Clear? && s.procs[p].q.Discard? && OfItsSplit(s.procs[p])
    ensures s.procs[p].prior == Some(s.procs[p].q.split)
    ensures MayVoid(s.tables, s.locks, p, s.procs[p].q, Some(s.procs[p].q.split))
  {
    hide TablesOk, OneLive, Exclude, AllApart, HoldsMembers, AnyPending;
    assert ProcOk(s.tables, s.locks, p, s.procs[p]);
  }

  lemma InsertedIsOk(s: State, p: nat)
    requires Inv(s) && p in s.procs && s.procs[p].Inserted?
    ensures PlannerOk(s.tables, s.locks, p, s.procs[p])
  {
    hide TablesOk, OneLive, Exclude, AllApart;
    assert ProcOk(s.tables, s.locks, p, s.procs[p]);
  }

  // ---- When money credits the share it names -------------------------------

  /**
   * Over any run, for an accepted confirmation of a claim that named share `x`:
   * if `x` was of a live split of the claim's bill when the transaction looked, and
   * had room when it was locked, `x` is paid that much more and the payment still
   * names it. Otherwise the confirmation was one that may detach: the payment names
   * nobody, and no share moved.
   */
  lemma ConfirmationCreditsExactly(dues: map<nat, nat>, es: seq<Event>, n: nat, p: nat, c: nat, detach: bool, x: nat)
    requires Accepts(dues, es, n, p) && At(dues, es, n).procs[p].q == Confirm(c, detach)
    requires var d := At(dues, es, n).tables; c < |d.payments| && d.payments[c].share == Some(x)
    ensures var d, e := At(dues, es, n).tables, At(dues, es, n + 1).tables; var claim := d.payments[c];
            && |e.payments| == |d.payments|
            && exists i: nat, j: nat, takes: bool ::
                 && Decided(dues, es, p, i, j, claim.bill, x, claim.amount, takes) && j < n
                 && e.payments[c] == claim.(status := SUCCEEDED, share := if takes then Some(x) else None)
                 && Credited(d, e, claim.bill, if takes then Some(x) else None, claim.amount)
                 && (!takes ==> detach)
  {
    hide At, Exec, Inv, Next, Credited, Decided, Apply;
    var s := At(dues, es, n);
    var d, at := s.tables, s.procs[p];
    Later(dues, es, n);
    AcceptingCommits(s, es[n], p);
    CommittersAre(s, p, es[n].id, es[n].ids);
    ConfirmersAreReady(s, p);
    PreparedIsAsked(dues, es, n, p);
    ReadyIsOk(s, p);
    SettleGains(d, s.locks, p, at.q, at.effect);
    var claim := d.payments[c];
    var i: nat, j: nat :| Decided(dues, es[..n], p, i, j, claim.bill, x, claim.amount, Credits(at.effect));
    DecidedStays(dues, es, n, p, i, j, claim.bill, x, claim.amount, Credits(at.effect));
    DecidedBefore(dues, es, n, p, i, j, claim.bill, x, claim.amount, Credits(at.effect));
  }

  lemma DecidedBefore(dues: map<nat, nat>, es: seq<Event>, n: nat, p: nat, i: nat, j: nat, b: nat, x: nat, amount: nat,
                      takes: bool)
    requires n <= |es| && Decided(dues, es[..n], p, i, j, b, x, amount, takes)
    ensures j < n
  {
    hide At;
  }

  lemma ConfirmersAreReady(s: State, p: nat)
    requires Inv(s) && p in s.procs && Settles(s.procs[p].q)
    ensures !s.procs[p].Inserted? && !s.procs[p].Clear?
  {
    hide TablesOk, OneLive, Exclude, AllApart, MayVoid, MayAgree, PlanOk;
    assert ProcOk(s.tables, s.locks, p, s.procs[p]);
  }

  /**
   * And an accepted payment of share `x` credits it by exactly its amount, having
   * found the plan live and room in the share.
   */
  lemma PaymentCreditsExactly(dues: map<nat, nat>, es: seq<Event>, n: nat, p: nat, b: nat, x: nat, amount: nat)
    requires Accepts(dues, es, n, p) && At(dues, es, n).procs[p].q == Pay(b, Some(x), amount)
    ensures var d, e := At(dues, es, n).tables, At(dues, es, n + 1).tables;
            && e.payments == d.payments + [Payment(b, Some(x), amount, SUCCEEDED)]
            && x in d.shares && Credited(d, e, b, Some(x), amount)
            && exists i: nat, j: nat :: Decided(dues, es, p, i, j, b, x, amount, true) && j < n
  {
    hide At, Exec, Inv, Next, Credited, Decided, Apply;
    var s := At(dues, es, n);
    var d, at := s.tables, s.procs[p];
    AcceptedIsGained(dues, es, n, p);
    Later(dues, es, n);
    AcceptingCommits(s, es[n], p);
    CommittersAre(s, p, es[n].id, es[n].ids);
    ConfirmersAreReady(s, p);
    PreparedIsAsked(dues, es, n, p);
    var i: nat, j: nat :| Decided(dues, es[..n], p, i, j, b, x, amount, true);
    DecidedStays(dues, es, n, p, i, j, b, x, amount, true);
    DecidedBefore(dues, es, n, p, i, j, b, x, amount, true);
  }
}
