/**
 * When a transaction of a stored split's life is refused, and when it waits, in
 * terms of the request, the tables and the locks.
 */
module SplitRefusals {
  import opened Wrappers
  import SplitEngine
  import opened SplitState
  import opened SplitSafety
  import opened SplitTheorems
  import opened SplitHistory
  import opened SplitOutcomes

  // ---- Refusals ------------------------------------------------------------

  predicate IsPending(d: Tables, i: nat) { i < |d.payments| && d.payments[i].status == PENDING }

  /** An open bill that what the request brings would not take past its total, nor an edit below what is paid. */
  predicate CanBear(d: Tables, b: nat, q: Request) {
    && b in d.bills && d.bills[b].open
    && match q
       case Pay(_, _, amount) => Paid(d.bills[b]) + amount <= d.bills[b].due
       case Declare(_, _, amount) => Paid(d.bills[b]) + amount <= d.bills[b].due
       case Confirm(i, _) =>
         Paid(d.bills[b]) + (if i < |d.payments| then d.payments[i].amount else 0) <= d.bills[b].due
       case EditLines(_, due) => Paid(d.bills[b]) <= due
       case _ => Paid(d.bills[b]) <= d.bills[b].due
  }

  predicate NamesNoShare(d: Tables, q: Request) {
    (q.Pay? || q.Declare?) && q.share.Some? && q.share.value !in d.shares
  }

  /** A bill that can be divided as asked: open, with something outstanding, and a request the engine accepts. */
  ghost predicate CanDivide(d: Tables, q: Request)
    requires q.Agree?
  {
    && q.bill in d.bills && d.bills[q.bill].open && q.ask.request.participants != []
    && SplitEngine.PreviewOutcome(d.bills[q.bill].due, Paid(d.bills[q.bill]), q.ask.items, q.ask.request).Success?
  }

  predicate IsPaidInto(d: Tables, x: nat) { x in d.shares && d.shares[x].paid > 0 }

  predicate HasAPaidShare(d: Tables, k: nat) {
    k in d.splits && exists i :: 0 <= i < |d.splits[k].members| && IsPaidInto(d, d.splits[k].members[i])
  }

  /** Some payment that is not resolved yet names a share of the split. */
  predicate HasOneComing(d: Tables, k: nat) {
    k in d.splits && exists i :: 0 <= i < |d.payments| && NamesOne(d.payments[i], d.splits[k].members)
  }

  /** Why the next statement of a transaction fails it. */
  ghost predicate Fails(d: Tables, at: Proc) {
    match at
    case WantsPayment(q) => (q.Confirm? || q.Reject?) && !IsPending(d, q.payment)
    case WantsBill(q, b) => !CanBear(d, b, q)
    case HasBill(q, _) => NamesNoShare(d, q)
    case WantsShare(q, b, x, seen) => !MayTake(d, b, x, AmountOf(d, q), seen) && !(q.Confirm? && q.detach)
    case ReadsBill(q) => q.Agree? && !CanDivide(d, q)
    case WantsSplit(q, _, k) =>
      && (q.Agree? || q.Discard?)
      && (k !in d.splits || d.splits[k].bill != q.bill || (q.Discard? && d.splits[k].status != ACTIVE))
    case HasSplit(_, _, k) => HasAPaidShare(d, k)
    case Summed(_, _, k) => HasOneComing(d, k)
    case Clear(q, _, prior) => q.Agree? && exists k: nat :: IsLive(d, k, q.bill) && prior != Some(k)
    case _ => false
  }

  // ---- Waiting -------------------------------------------------------------

  predicate Taken(locks: map<nat, nat>, k: nat, p: nat) { k in locks && locks[k] != p }

  predicate KeyTaken(keys: map<nat, nat>, k: nat, p: nat) { exists o :: o in keys && o != p && keys[o] == k }

  predicate ShareTaken(l: Locks, x: nat, p: nat) { Taken(l.shares, x, p) || KeyTaken(l.shareKeys, x, p) }

  /** Somebody else has what the next statement needs. */
  ghost predicate Waits(s: State, p: nat, at: Proc, id: nat, ids: seq<nat>) {
    var d, l := s.tables, s.locks;
    match at
    case WantsPayment(q) => (q.Confirm? || q.Reject?) && Taken(l.payments, q.payment, p)
    case WantsBill(_, b) => Taken(l.bills, b, p) || KeyTaken(l.billKeys, b, p)
    case HasBill(q, _) => (q.Pay? || q.Declare?) && q.share.Some? && Taken(l.shares, q.share.value, p)
    case WantsShare(_, _, x, _) => ShareTaken(l, x, p)
    case Marking(_, _, live) => live.Some? && Taken(l.splits, live.value, p)
    case WantsSplit(_, _, k) => Taken(l.splits, k, p)
    case HasSplit(_, _, k) =>
      k in d.splits && exists i :: 0 <= i < |d.splits[k].members| && ShareTaken(l, d.splits[k].members[i], p)
    case Clear(q, plan, _) =>
      q.Agree? && plan.Some? &&
      (|| !Unused(d, id, ids) || |ids| != |plan.value.amounts| || Taken(l.bills, q.bill, p)
       || exists o :: o in s.procs && o != p && !Apart(s.procs[o], q.bill, id, ids))
    case _ => false
  }

  lemma FreeOrTaken(locks: map<nat, nat>, k: nat, p: nat)
    ensures Free(locks, k, p) <==> !Taken(locks, k, p)
  {
  }

  lemma KeyFreeOrTaken(keys: map<nat, nat>, k: nat, p: nat)
    ensures KeyFree(keys, k, p) <==> !KeyTaken(keys, k, p)
  {
  }

  /** What a statement may answer, given the two. */
  ghost predicate Answers(s: State, p: nat, id: nat, ids: seq<nat>, move: Move)
    requires p in s.procs
  {
    var at := s.procs[p];
    && (move.Refuse? ==> Fails(s.tables, at))
    && (move.Wait? ==> Waits(s, p, at, id, ids))
    && (!Waits(s, p, at, id, ids) && Fails(s.tables, at) ==> move.Refuse?)
  }

  lemma PaymentAnswers(s: State, p: nat, q: Request, id: nat, ids: seq<nat>)
    requires p in s.procs && s.procs[p] == WantsPayment(q) && (q.Confirm? || q.Reject?)
    ensures Answers(s, p, id, ids, LockPayment(s.tables, s.locks, p, q))
  {
  }

  lemma BillAnswers(s: State, p: nat, q: Request, b: nat, id: nat, ids: seq<nat>)
    requires p in s.procs && s.procs[p] == WantsBill(q, b)
    ensures Answers(s, p, id, ids, LockBill(s.tables, s.locks, p, q, b))
  {
    FreeOrTaken(s.locks.bills, b, p);
    KeyFreeOrTaken(s.locks.billKeys, b, p);
    hide KeyFree, KeyTaken;
  }

  lemma WithBillAnswers(s: State, p: nat, q: Request, b: nat, id: nat, ids: seq<nat>)
    requires p in s.procs && s.procs[p] == HasBill(q, b) && HoldsBill(s.tables, s.locks, p, q, b)
    ensures Answers(s, p, id, ids, WithBill(AsBuilt, s.tables, s.locks, p, q, b))
  {
    hide Fits;
  }

  lemma ShareAnswers(s: State, p: nat, q: Request, b: nat, x: nat, seen: Option<Split>, id: nat, ids: seq<nat>)
    requires p in s.procs && s.procs[p] == WantsShare(q, b, x, seen)
    ensures Answers(s, p, id, ids, LockShare(s.tables, s.locks, p, q, b, x, seen))
  {
    FreeOrTaken(s.locks.shares, x, p);
    KeyFreeOrTaken(s.locks.shareKeys, x, p);
    hide KeyFree, KeyTaken;
  }

  lemma MarkingAnswers(s: State, p: nat, q: Request, b: nat, live: Option<nat>, id: nat, ids: seq<nat>)
    requires p in s.procs && s.procs[p] == Marking(q, b, live) && q.EditLines?
    ensures Answers(s, p, id, ids, MarkStale(s.tables, s.locks, p, q, b, live))
  {
  }

  lemma ReadingAnswers(s: State, p: nat, q: Request, id: nat, ids: seq<nat>)
    requires p in s.procs && s.procs[p] == ReadsBill(q) && q.Agree?
    ensures Answers(s, p, id, ids, ReadBill(s.tables, s.locks, q))
  {
  }

  lemma SplitAnswers(s: State, p: nat, q: Request, plan: Option<Plan>, k: nat, id: nat, ids: seq<nat>)
    requires p in s.procs && s.procs[p] == WantsSplit(q, plan, k) && (q.Agree? || q.Discard?)
    ensures Answers(s, p, id, ids, LockSplit(s.tables, s.locks, p, q, plan, k))
  {
  }

  lemma SummingAnswers(s: State, p: nat, q: Request, plan: Option<Plan>, k: nat, id: nat, ids: seq<nat>)
    requires p in s.procs && s.procs[p] == HasSplit(q, plan, k) && k in s.tables.splits
    ensures Answers(s, p, id, ids, SumShares(AsBuilt, s.tables, s.locks, p, q, plan, k))
  {
    hide LockAll, KeyTaken, KeyFree;
    var members := s.tables.splits[k].members;
    forall i | 0 <= i < |members|
      ensures ShareFree(s.locks, members[i], p)
         <==> !ShareTaken(s.locks, members[i], p)
    {
      KeyFreeOrTaken(s.locks.shareKeys, members[i], p);
    }
    hide ShareFree, ShareTaken;
  }

  lemma CountingAnswers(s: State, p: nat, q: Request, plan: Option<Plan>, k: nat, id: nat, ids: seq<nat>)
    requires p in s.procs && s.procs[p] == Summed(q, plan, k) && k in s.tables.splits
    ensures Answers(s, p, id, ids, CountPending(s.tables, s.locks, q, plan, k))
  {
    hide NamesOne;
  }

  lemma InsertingAnswers(s: State, p: nat, q: Request, plan: Option<Plan>, prior: Option<nat>, id: nat, ids: seq<nat>)
    requires p in s.procs && s.procs[p] == Clear(q, plan, prior) && q.Agree? && plan.Some? && q.bill in s.tables.bills
    ensures Answers(s, p, id, ids, InsertSplit(s.tables, s.locks, s.procs, p, q, plan, prior, id, ids))
  {
    hide Unused, Apart;
  }

  lemma PayersAnswer(s: State, p: nat, id: nat, ids: seq<nat>)
    requires p in s.procs && OnMoney(s.procs[p]) && PayerOk(s.tables, s.locks, p, s.procs[p]) && !s.procs[p].Done?
    ensures Answers(s, p, id, ids, Next(AsBuilt, s, p, id, ids))
  {
    hide Fails, Waits, LockPayment, LockBill, WithBill, LockShare, MarkStale, Apply, EffectOk, HoldsBill, FoundLive,
         IsLive;
    match s.procs[p] {
      case WantsPayment(q) => PaymentAnswers(s, p, q, id, ids);
      case WantsBill(q, b) => BillAnswers(s, p, q, b, id, ids);
      case HasBill(q, b) => WithBillAnswers(s, p, q, b, id, ids);
      case Crediting(q, b) => SnapshotNeverFails(s, p, q, b, id, ids);
      case WantsShare(q, b, x, seen) => ShareAnswers(s, p, q, b, x, seen, id, ids);
      case Marking(q, b, live) => MarkingAnswers(s, p, q, b, live, id, ids);
      case Ready(q, effect) => ReadyNeverFails(s, p, id, ids);
      case Done(_, _) =>
    }
  }

  lemma SnapshotNeverFails(s: State, p: nat, q: Request, b: nat, id: nat, ids: seq<nat>)
    requires p in s.procs && s.procs[p] == Crediting(q, b) && ShareOf(s.tables, q).Some?
    ensures Answers(s, p, id, ids, TakeSnapshot(s.tables, s.locks, q, b))
  {
  }

  lemma ReadyNeverFails(s: State, p: nat, id: nat, ids: seq<nat>)
    requires p in s.procs && (s.procs[p].Ready? || s.procs[p].Inserted? || s.procs[p].Seeks?)
    ensures !Fails(s.tables, s.procs[p]) && !Waits(s, p, s.procs[p], id, ids)
  {
  }

  lemma PlannersAnswer(s: State, p: nat, id: nat, ids: seq<nat>)
    requires Inv(s) && p in s.procs && !OnMoney(s.procs[p])
    ensures Answers(s, p, id, ids, Next(AsBuilt, s, p, id, ids))
  {
    hide Fails, Waits, ReadBill, LockSplit, SumShares, CountPending, InsertSplit, CommitSplit, Void, TablesOk, OneLive,
         Exclude, AllApart, HoldsMembers, AnyPending, MayAgree, PlannerOk;
    PlannerMayRely(s, p);
    match s.procs[p] {
      case ReadsBill(q) => ReadingAnswers(s, p, q, id, ids);
      case Seeks(q, plan) => ReadyNeverFails(s, p, id, ids);
      case WantsSplit(q, plan, k) => SplitAnswers(s, p, q, plan, k, id, ids);
      case HasSplit(q, plan, k) => SummingAnswers(s, p, q, plan, k, id, ids);
      case Summed(q, plan, k) => CountingAnswers(s, p, q, plan, k, id, ids);
      case Clear(q, plan, prior) =>
        if q.Agree? {
          InsertingAnswers(s, p, q, plan, prior, id, ids);
        } else {
          VoidingNeverFails(s, p, id, ids);
        }
      case Inserted(q, plan, prior, at, k, ks) =>
        ReadyNeverFails(s, p, id, ids);
        InsertedCommits(s, p, id, ids);
    }
  }

  lemma VoidingNeverFails(s: State, p: nat, id: nat, ids: seq<nat>)
    requires p in s.procs && s.procs[p].Clear? && s.procs[p].q.Discard?
    ensures !Fails(s.tables, s.procs[p]) && !Waits(s, p, s.procs[p], id, ids)
  {
  }

  lemma PlannerMayRely(s: State, p: nat)
    requires Inv(s) && p in s.procs && !OnMoney(s.procs[p])
    ensures var at, d := s.procs[p], s.tables;
            && (at.q.Agree? || at.q.Discard?)
            && (at.ReadsBill? || at.Seeks? || at.Inserted? ==> at.q.Agree?)
            && (at.HasSplit? || at.Summed? ==> at.split in d.splits)
            && (at.Clear? && at.q.Agree? ==> at.plan.Some? && at.q.bill in d.bills)
  {
    hide TablesOk, OneLive, Exclude, AllApart, HoldsMembers, AnyPending, MayAgree;
    assert ProcOk(s.tables, s.locks, p, s.procs[p]);
  }

  /**
   * In every state of every run: a transaction that is not over is refused only for
   * the reason that goes with its statement, and for that reason always; it waits
   * only for what somebody else has; otherwise it goes on.
   */
  lemma StatementsAnswer(dues: map<nat, nat>, es: seq<Event>, n: nat, p: nat, id: nat, ids: seq<nat>)
    requires n <= |es| && p in At(dues, es, n).procs && !At(dues, es, n).procs[p].Done?
    ensures var s := At(dues, es, n); Answers(s, p, id, ids, Next(AsBuilt, s, p, id, ids))
  {
    hide At, Next, TablesOk, OneLive, Exclude, AllApart, PlannerOk, PayerOk, Answers;
    var s := At(dues, es, n);
    StateIsSound(dues, es, n);
    assert ProcOk(s.tables, s.locks, p, s.procs[p]);
    if OnMoney(s.procs[p]) {
      PayersAnswer(s, p, id, ids);
    } else {
      PlannersAnswer(s, p, id, ids);
    }
  }

  lemma StateIsSound(dues: map<nat, nat>, es: seq<Event>, n: nat)
    requires n <= |es|
    ensures Inv(At(dues, es, n))
  {
    hide Inv;
    RunKeeps(dues, es[..n]);
  }

  // ---- Locks are given back ------------------------------------------------

  predicate IsGoing(procs: map<nat, Proc>, p: nat) { p in procs && !procs[p].Done? }

  ghost predicate InUse(procs: map<nat, Proc>, locks: map<nat, nat>) {
    forall k :: k in locks ==> IsGoing(procs, locks[k])
  }

  ghost predicate KeysInUse(procs: map<nat, Proc>, keys: map<nat, nat>) { forall p :: p in keys ==> IsGoing(procs, p) }

  /** Whoever has a lock, or a key, is not done. */
  ghost predicate LocksAreInUse(s: State) {
    && InUse(s.procs, s.locks.bills) && InUse(s.procs, s.locks.splits)
    && InUse(s.procs, s.locks.payments) && InUse(s.procs, s.locks.shares)
    && KeysInUse(s.procs, s.locks.shareKeys) && KeysInUse(s.procs, s.locks.billKeys)
  }

  ghost predicate Gives(was: map<nat, nat>, now: map<nat, nat>, p: nat) {
    forall k :: k in now ==> now[k] == p || (k in was && was[k] == now[k])
  }

  ghost predicate GivesKeys(was: map<nat, nat>, now: map<nat, nat>, p: nat) {
    forall o :: o in now ==> o == p || o in was
  }

  /** New locks are `p`'s. */
  ghost predicate OnlyFor(l: Locks, m: Locks, p: nat) {
    && Gives(l.bills, m.bills, p) && Gives(l.splits, m.splits, p)
    && Gives(l.payments, m.payments, p) && Gives(l.shares, m.shares, p)
    && GivesKeys(l.shareKeys, m.shareKeys, p) && GivesKeys(l.billKeys, m.billKeys, p)
  }

  ghost predicate TakesItsOwn(l: Locks, move: Move, p: nat) {
    move.To? ==> OnlyFor(l, move.locks, p) && !move.at.Done?
  }

  lemma StatementsTakeTheirOwn(s: State, p: nat, id: nat, ids: seq<nat>)
    requires p in s.procs
    ensures TakesItsOwn(s.locks, Next(AsBuilt, s, p, id, ids), p)
  {
    hide TakesItsOwn, LockPayment, LockBill, WithBill, TakeSnapshot, LockShare, MarkStale, ReadBill, SeekLive,
         LockSplit, SumShares, CountPending, InsertSplit, CommitSplit, Apply, Void;
    var d, l := s.tables, s.locks;
    match s.procs[p] {
      case WantsPayment(q) =>
        if q.Confirm? || q.Reject? { PaymentTakes(d, l, p, q); } else { OthersTakeNothing(l, Wait, p); }
      case WantsBill(q, b) => BillTakes(d, l, p, q, b);
      case HasBill(q, b) => WithBillTakes(d, l, p, q, b);
      case Crediting(q, b) => SnapshotTakes(d, l, p, q, b);
      case WantsShare(q, b, x, seen) => ShareTakes(d, l, p, q, b, x, seen);
      case Marking(q, b, live) =>
        if q.EditLines? { MarkingTakes(d, l, p, q, b, live); } else { OthersTakeNothing(l, Wait, p); }
      case ReadsBill(q) => if q.Agree? { ReadingTakes(d, l, p, q); } else { OthersTakeNothing(l, Wait, p); }
      case Seeks(q, plan) => if q.Agree? { SeekingTakes(d, l, p, q, plan); } else { OthersTakeNothing(l, Wait, p); }
      case WantsSplit(q, plan, k) =>
        if q.Agree? || q.Discard? { SplitTakes(d, l, p, q, plan, k); } else { OthersTakeNothing(l, Wait, p); }
      case HasSplit(q, plan, k) => SumTakes(d, l, p, q, plan, k);
      case Summed(q, plan, k) => CountTakes(d, l, p, q, plan, k);
      case Clear(q, plan, prior) =>
        if q.Agree? { InsertTakes(d, l, s.procs, p, q, plan, prior, id, ids); }
        OthersTakeNothing(l, Next(AsBuilt, s, p, id, ids), p);
      case Inserted(q, plan, prior, at, k, ks) =>
        if q.Agree? { CommitTakes(d, l, p, q, plan, prior, at, k, ks); } else { OthersTakeNothing(l, Wait, p); }
      case _ => OthersTakeNothing(l, Next(AsBuilt, s, p, id, ids), p);
    }
  }

  lemma OthersTakeNothing(l: Locks, move: Move, p: nat)
    ensures !move.To? ==> TakesItsOwn(l, move, p)
  {
  }

  lemma PaymentTakes(d: Tables, l: Locks, p: nat, q: Request)
    requires q.Confirm? || q.Reject?
    ensures TakesItsOwn(l, LockPayment(d, l, p, q), p)
  {
  }

  lemma BillTakes(d: Tables, l: Locks, p: nat, q: Request, b: nat)
    ensures TakesItsOwn(l, LockBill(d, l, p, q, b), p)
  {
    hide BillFree, Fits;
  }

  lemma NamingTakes(d: Tables, l: Locks, p: nat, x: nat, next: Proc)
    requires !next.Done?
    ensures TakesItsOwn(l, NameShare(AsBuilt, d, l, p, x, next), p)
  {
  }

  lemma WithBillTakes(d: Tables, l: Locks, p: nat, q: Request, b: nat)
    ensures TakesItsOwn(l, WithBill(AsBuilt, d, l, p, q, b), p)
  {
    if (q.Pay? || q.Declare?) && q.share.Some? {
      hide NameShare, TakesItsOwn;
      NamingTakes(d, l, p, q.share.value,
                  if q.Pay? then Crediting(q, b) else Ready(q, Record(Payment(b, q.share, q.amount, PENDING))));
    }
  }

  lemma SnapshotTakes(d: Tables, l: Locks, p: nat, q: Request, b: nat)
    ensures TakesItsOwn(l, TakeSnapshot(d, l, q, b), p)
  {
  }

  lemma ShareTakes(d: Tables, l: Locks, p: nat, q: Request, b: nat, x: nat, seen: Option<Split>)
    ensures TakesItsOwn(l, LockShare(d, l, p, q, b, x, seen), p)
  {
    hide Refuses, ShareFree;
  }

  lemma MarkingTakes(d: Tables, l: Locks, p: nat, q: Request, b: nat, live: Option<nat>)
    requires q.EditLines?
    ensures TakesItsOwn(l, MarkStale(d, l, p, q, b, live), p)
  {
  }

  lemma ReadingTakes(d: Tables, l: Locks, p: nat, q: Request)
    requires q.Agree?
    ensures TakesItsOwn(l, ReadBill(d, l, q), p)
  {
    hide SplitEngine.PreviewOutcome;
  }

  lemma SeekingTakes(d: Tables, l: Locks, p: nat, q: Request, plan: Option<Plan>)
    requires q.Agree?
    ensures TakesItsOwn(l, SeekLive(d, l, q, plan), p)
  {
    hide LiveOn;
  }

  lemma SplitTakes(d: Tables, l: Locks, p: nat, q: Request, plan: Option<Plan>, k: nat)
    requires q.Agree? || q.Discard?
    ensures TakesItsOwn(l, LockSplit(d, l, p, q, plan, k), p)
  {
  }

  lemma SumTakes(d: Tables, l: Locks, p: nat, q: Request, plan: Option<Plan>, k: nat)
    ensures TakesItsOwn(l, SumShares(AsBuilt, d, l, p, q, plan, k), p)
  {
    hide AllFree, AnyPaid;
  }

  lemma CountTakes(d: Tables, l: Locks, p: nat, q: Request, plan: Option<Plan>, k: nat)
    ensures TakesItsOwn(l, CountPending(d, l, q, plan, k), p)
  {
    hide AnyPending;
  }

  lemma InsertTakes(d: Tables, l: Locks, procs: map<nat, Proc>, p: nat, q: Request, plan: Option<Plan>,
                    prior: Option<nat>, id: nat, ids: seq<nat>)
    requires q.Agree?
    ensures TakesItsOwn(l, InsertSplit(d, l, procs, p, q, plan, prior, id, ids), p)
  {
    hide Unused, Apart, IsLive, Free;
  }

  lemma CommitTakes(d: Tables, l: Locks, p: nat, q: Request, plan: Option<Plan>, prior: Option<nat>, at: Bill, id: nat,
                    ids: seq<nat>)
    requires q.Agree?
    ensures TakesItsOwn(l, CommitSplit(d, q, plan, prior, at, id, ids), p)
  {
    hide AddsUp, Agreed;
  }

  lemma UseGoesOn(s: State, p: nat, move: Move)
    requires LocksAreInUse(s) && p in s.procs && TakesItsOwn(s.locks, move, p)
    ensures LocksAreInUse(Perform(s, p, move))
  {
    hide LocksAreInUse, TakesItsOwn, Finish;
    match move {
      case Wait =>
      case Refuse => EndingReleases(s, s.tables, p, s.procs[p].q, false);
      case To(at, locks) => TakingGoesOn(s, p, at, locks);
      case Commit(tables) => EndingReleases(s, tables, p, s.procs[p].q, true);
    }
  }

  lemma EndingReleases(s: State, tables: Tables, p: nat, q: Request, ok: bool)
    requires LocksAreInUse(s)
    ensures LocksAreInUse(Finish(s.(tables := tables), p, q, ok))
  {
  }

  lemma TakingGoesOn(s: State, p: nat, at: Proc, locks: Locks)
    requires LocksAreInUse(s) && TakesItsOwn(s.locks, To(at, locks), p)
    ensures LocksAreInUse(s.(locks := locks, procs := s.procs[p := at]))
  {
    hide InUse, KeysInUse, Gives, GivesKeys;
    GivenAreInUse(s.procs, p, at, s.locks.bills, locks.bills);
    GivenAreInUse(s.procs, p, at, s.locks.splits, locks.splits);
    GivenAreInUse(s.procs, p, at, s.locks.payments, locks.payments);
    GivenAreInUse(s.procs, p, at, s.locks.shares, locks.shares);
    GivenKeysAreInUse(s.procs, p, at, s.locks.shareKeys, locks.shareKeys);
    GivenKeysAreInUse(s.procs, p, at, s.locks.billKeys, locks.billKeys);
  }

  lemma GivenAreInUse(procs: map<nat, Proc>, p: nat, at: Proc, was: map<nat, nat>, now: map<nat, nat>)
    requires InUse(procs, was) && Gives(was, now, p) && !at.Done?
    ensures InUse(procs[p := at], now)
  {
  }

  lemma GivenKeysAreInUse(procs: map<nat, Proc>, p: nat, at: Proc, was: map<nat, nat>, now: map<nat, nat>)
    requires KeysInUse(procs, was) && GivesKeys(was, now, p) && !at.Done?
    ensures KeysInUse(procs[p := at], now)
  {
  }

  lemma ExecKeepsInUse(s: State, e: Event)
    requires LocksAreInUse(s)
    ensures LocksAreInUse(Exec(AsBuilt, s, e))
  {
    hide Next, Perform, LocksAreInUse, TakesItsOwn;
    match e {
      case Arrive(p, q) =>
        if p !in s.procs {
          NewcomersTakeNothing(s, p, q);
        }
      case Advance(p, id, ids) =>
        if p in s.procs {
          StatementsTakeTheirOwn(s, p, id, ids);
          UseGoesOn(s, p, Next(AsBuilt, s, p, id, ids));
        }
      case Crash(p) =>
        if p in s.procs && !s.procs[p].Done? {
          EndingReleases(s, s.tables, p, s.procs[p].q, false);
        }
    }
  }

  lemma NewcomersTakeNothing(s: State, p: nat, q: Request)
    requires LocksAreInUse(s) && p !in s.procs
    ensures LocksAreInUse(s.(procs := s.procs[p := Start(q)]))
  {
    hide Start;
  }

  /** In every state of every run, whoever has a lock is not done: nothing stays locked for good. */
  lemma {:induction false} LocksAreGivenBack(dues: map<nat, nat>, es: seq<Event>)
    ensures LocksAreInUse(Run(AsBuilt, Opened(dues), es))
  {
    if es != [] {
      hide LocksAreInUse, Exec;
      LocksAreGivenBack(dues, es[..|es| - 1]);
      ExecKeepsInUse(Run(AsBuilt, Opened(dues), es[..|es| - 1]), es[|es| - 1]);
    }
  }
}
