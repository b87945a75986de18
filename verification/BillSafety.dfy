/**
 * What every interleaving of the bill handlers keeps.
 *
 * `Inv` is inductive over single statements, commits, crashes and arrivals, so
 * it holds of every run (`RunKeeps`); the theorems below it are read off it.
 */
module BillSafety {
  import opened Wrappers
  import opened Money
  import opened BillState

  // ---- The books -----------------------------------------------------------

  function PaidOn(payments: seq<Payment>, b: nat): nat {
    if payments == [] then 0
    else
      var n := |payments| - 1;
      PaidOn(payments[..n], b) + if payments[n].bill == b then payments[n].amount else 0
  }

  function Forgiven(s: State, b: nat): nat { if b in s.adjustments then s.adjustments[b] else 0 }

  /** The figures of a row agree with each other. */
  predicate Figures(bill: Bill) {
    && bill.paid <= bill.due
    && bill.due == ApplyRate(bill.quoted, bill.rate)
    && (bill.lines != [] ==> bill.quoted == Quote(bill.lines, bill.serviceBps))
  }

  ghost predicate BillOk(s: State, b: nat)
    requires b in s.bills
  {
    var bill := s.bills[b];
    && Figures(bill)
    && bill.table in s.tables && s.tables[bill.table] == bill.restaurant
    && bill.paid == PaidOn(s.payments, b)
    && (bill.status == OPEN ==> b !in s.adjustments)
    && (bill.status == VOID ==> bill.paid == 0 && b !in s.adjustments)
    && (bill.status == CLOSED ==> bill.paid + Forgiven(s, b) == bill.due)
  }

  ghost predicate Books(s: State) {
    && (forall b :: b in s.bills ==> BillOk(s, b))
    && (forall i :: 0 <= i < |s.payments| ==> PaymentOk(s, s.payments[i]))
    && (forall b :: b in s.adjustments ==> b in s.bills && s.adjustments[b] > 0)
  }

  predicate PaymentOk(s: State, p: Payment) {
    p.amount > 0 && p.bill in s.bills && s.bills[p.bill].restaurant == p.restaurant
  }

  ghost predicate OneOpen(bills: map<nat, Bill>) {
    forall a, b, r, t :: IsOpenAt(bills, a, r, t) && IsOpenAt(bills, b, r, t) ==> a == b
  }

  // ---- What each handler may rely on ---------------------------------------

  predicate OwnsTable(s: State, p: nat, q: Request) {
    Opener(q) ==>
      && q.table in s.tableLocks && s.tableLocks[q.table] == p
      && q.table in s.tables && s.tables[q.table] == q.restaurant
  }

  /** The bill an order has in mind stands on the order's table. */
  predicate Targets(s: State, q: Request, existing: Option<nat>) {
    q.PlaceOrder? && existing.Some? ==>
      && existing.value in s.bills && s.bills[existing.value].restaurant == q.restaurant
      && s.bills[existing.value].table == q.table
  }

  predicate Named(q: Request, b: nat) {
    q.EditBill? || q.SettleBill? || q.PayBill? ==> q.bill == b
  }

  predicate OwnsBill(s: State, p: nat, q: Request, b: nat, row: Bill) {
    && b in s.billLocks && s.billLocks[b] == p
    && b in s.bills && s.bills[b] == row
    && row.status == OPEN && row.restaurant == q.restaurant
    && Named(q, b) && (q.PlaceOrder? ==> row.table == q.table) && !q.PostBill? && !q.VoidBill?
  }

  ghost predicate OwnsNew(s: State, p: nat, q: Request, b: nat, row: Bill) {
    && b !in s.bills && Opener(q) && row == NewBill(q)
    && NoneOpenAt(s.bills, q.restaurant, q.table)
    && forall o :: o in s.procs && o != p ==> !HoldsNew(s.procs[o], b)
  }

  ghost predicate Owns(s: State, p: nat, q: Request, b: nat, isNew: bool, row: Bill) {
    OwnsTable(s, p, q) && if isNew then OwnsNew(s, p, q, b, row) else OwnsBill(s, p, q, b, row)
  }

  /** What a transaction may do to an open bill. */
  predicate Lawful(w: Write) {
    && w.was.status == OPEN && w.now.status != VOID
    && w.now.restaurant == w.was.restaurant && w.now.table == w.was.table
    && w.now.rate == w.was.rate && w.now.serviceBps == w.was.serviceBps
    && Figures(w.now)
    && (w.payment.Some? ==> w.payment.value > 0)
    && w.now.paid == w.was.paid + Sum(w.payment)
    && (w.adjustment.Some? ==> w.adjustment.value > 0 && w.now.status == CLOSED)
    && (w.now.status == CLOSED ==> w.now.paid + Sum(w.adjustment) == w.now.due)
  }

  /** The write is what the request makes of the row it read. */
  predicate Asked(q: Request, w: Write) {
    if q.PostBill? then w == Write(w.bill, true, NewBill(q), NewBill(q), None, None)
    else !q.VoidBill? && Prepare(q, w.bill, w.isNew, w.was, false) == Success(w)
  }

  function Sum(amount: Option<nat>): nat { if amount.Some? then amount.value else 0 }

  /** What later committed states may have done to a row: money only comes in, and only an open bill changes. */
  predicate Advances(was: Bill, now: Bill) {
    && now.restaurant == was.restaurant && now.table == was.table && was.paid <= now.paid
    && (was.status != OPEN ==> now == was)
  }

  ghost predicate ProcOk(s: State, p: nat)
    requires p in s.procs
  {
    match s.procs[p]
    case Reading(q) => q.PlaceOrder?
    case WantsTable(q, existing) => Opener(q) && Targets(s, q, existing)
    case HasTable(q, existing) => Opener(q) && Targets(s, q, existing) && OwnsTable(s, p, q)
    case Inserting(q) => Opener(q) && OwnsTable(s, p, q) && (q.PostBill? ==> NoneOpenAt(s.bills, q.restaurant, q.table))
    case WantsBill(q, b) => !q.VoidBill? && !q.PostBill? && Named(q, b) && Targets(s, q, Some(b)) && OwnsTable(s, p, q)
    case HasBill(q, b, isNew, row) => !q.VoidBill? && !q.PostBill? && Owns(s, p, q, b, isNew, row)
    case Prepared(q, w) => Owns(s, p, q, w.bill, w.isNew, w.was) && Asked(q, w)
    case Voiding(q) => q.VoidBill?
    case Diagnosing(q, missed) => q.VoidBill? && (missed.Some? ==> Missed(s, q, missed.value))
    case Done(_, _) => true
  }

  /** The row the conditional update passed over, and what has become of it. */
  predicate Missed(s: State, q: Request, row: Bill)
    requires q.VoidBill?
  {
    && q.bill in s.bills && row.restaurant == q.restaurant
    && !Voidable(row, q.restaurant) && Advances(row, s.bills[q.bill])
  }

  ghost predicate Inv(s: State) {
    Books(s) && OneOpen(s.bills) && forall p :: p in s.procs ==> ProcOk(s, p)
  }

  // ---- One step ------------------------------------------------------------

  predicate KeepsOthers(was: map<nat, nat>, now: map<nat, nat>, p: nat) {
    forall k :: k in was && was[k] != p ==> k in now && now[k] == was[k]
  }

  /** Process `p` moved from `s` to `t` without touching anything somebody else holds. */
  ghost predicate MovesAlone(s: State, t: State, p: nat) {
    && t.tables == s.tables
    && KeepsOthers(s.tableLocks, t.tableLocks, p) && KeepsOthers(s.billLocks, t.billLocks, p)
    && p in t.procs && t.procs == s.procs[p := t.procs[p]]
    && (forall b :: b in s.bills ==> b in t.bills && Advances(s.bills[b], t.bills[b]))
    && (forall b :: b in s.bills && b in s.billLocks && s.billLocks[b] != p ==> t.bills[b] == s.bills[b])
    && (forall b :: b in t.bills && b !in s.bills ==> p in s.procs && HoldsNew(s.procs[p], b))
    && (forall b, r, k :: IsOpenAt(t.bills, b, r, k) ==>
          IsOpenAt(s.bills, b, r, k) || (k in s.tableLocks && s.tableLocks[k] == p))
    && (forall b :: HoldsNew(t.procs[p], b) ==> (p in s.procs && HoldsNew(s.procs[p], b)) || Unused(s, b))
  }

  lemma OthersKeep(s: State, t: State, p: nat, o: nat)
    requires MovesAlone(s, t, p) && o in s.procs && o != p && ProcOk(s, o)
    requires forall b :: HoldsNew(s.procs[o], b) && p in s.procs ==> !HoldsNew(s.procs[p], b)
    ensures ProcOk(t, o)
  {
  }

  lemma Settles(s: State, t: State, p: nat)
    requires Inv(s) && MovesAlone(s, t, p) && Books(t) && OneOpen(t.bills) && ProcOk(t, p)
    ensures Inv(t)
  {
    hide Books, OneOpen;
    forall o | o in t.procs ensures ProcOk(t, o) {
      if o != p {
        NewIsMine(s, p, o);
        OthersKeep(s, t, p, o);
      }
    }
  }

  lemma NewIsMine(s: State, p: nat, o: nat)
    requires o in s.procs && o != p && ProcOk(s, o)
    ensures forall b :: HoldsNew(s.procs[o], b) && p in s.procs ==> !HoldsNew(s.procs[p], b)
  {
  }

  /** A step that only moves locks and program counters. */
  ghost predicate Quiet(s: State, t: State, p: nat) {
    && t.tables == s.tables && t.bills == s.bills && t.payments == s.payments && t.adjustments == s.adjustments
    && KeepsOthers(s.tableLocks, t.tableLocks, p) && KeepsOthers(s.billLocks, t.billLocks, p)
    && p in t.procs && t.procs == s.procs[p := t.procs[p]]
    && (forall b :: HoldsNew(t.procs[p], b) ==> (p in s.procs && HoldsNew(s.procs[p], b)) || Unused(s, b))
  }

  lemma QuietKeeps(s: State, t: State, p: nat)
    requires Inv(s) && Quiet(s, t, p) && ProcOk(t, p)
    ensures Inv(t)
  {
    assert Books(t) by {
      SameBooks(s, t);
    }
    Settles(s, t, p);
  }

  lemma SameBooks(s: State, t: State)
    requires Books(s)
    requires t.tables == s.tables && t.bills == s.bills && t.payments == s.payments && t.adjustments == s.adjustments
    ensures Books(t)
  {
    forall b | b in t.bills ensures BillOk(t, b) {
      assert BillOk(s, b);
    }
  }

  lemma FinishKeeps(s: State, p: nat, q: Request, reply: Reply)
    requires Inv(s)
    ensures Inv(Finish(s, p, q, reply))
  {
    hide Books, OneOpen;
    QuietKeeps(s, Finish(s, p, q, reply), p);
  }

  lemma GotoKeeps(s: State, p: nat, at: Proc)
    requires Inv(s) && (forall b :: !HoldsNew(at, b)) && ProcOk(Goto(s, p, at), p)
    ensures Inv(Goto(s, p, at))
  {
    hide Books, OneOpen;
    QuietKeeps(s, Goto(s, p, at), p);
  }

  lemma LockTableKeeps(s: State, p: nat, q: Request, existing: Option<nat>)
    requires Inv(s) && p in s.procs && s.procs[p] == WantsTable(q, existing)
    ensures Inv(LockTable(s, p, q, existing))
  {
    hide Books, OneOpen;
    var t := LockTable(s, p, q, existing);
    if Opener(q) && q.table in s.tables && s.tables[q.table] == q.restaurant && q.table !in s.tableLocks {
      QuietKeeps(s, t, p);
    } else if t != s {
      FinishKeeps(s, p, q, Refused(TableNotFound));
    }
  }

  lemma LookForOpenKeeps(s: State, p: nat, q: Request, existing: Option<nat>)
    requires Inv(s) && p in s.procs && s.procs[p] == HasTable(q, existing)
    ensures Inv(LookForOpen(s, p, q, existing))
  {
    hide Books, OneOpen;
    assert ProcOk(s, p);
    if q.PostBill? {
      if OpenAt(s.bills, q.restaurant, q.table).Some? {
        FinishKeeps(s, p, q, Refused(OpenBillExists));
      } else {
        GotoKeeps(s, p, Inserting(q));
      }
    } else if existing.Some? {
      GotoKeeps(s, p, WantsBill(q, existing.value));
    } else {
      GotoKeeps(s, p, Inserting(q));
    }
  }

  /** A row inserted at no charge is in order. */
  lemma NewBillFigures(q: Request)
    requires Opener(q)
    ensures Figures(NewBill(q)) && NewBill(q).status == OPEN
    ensures NewBill(q).restaurant == q.restaurant && NewBill(q).table == q.table
  {
  }

  lemma InsertKeeps(s: State, p: nat, q: Request, id: nat)
    requires Inv(s) && p in s.procs && s.procs[p] == Inserting(q)
    ensures Inv(InsertBill(s, p, q, id))
  {
    hide Books, OneOpen, Figures, NewBill;
    assert ProcOk(s, p);
    NewBillFigures(q);
    if Unused(s, id) {
      if OpenAt(s.bills, q.restaurant, q.table).Some? {
        FinishKeeps(s, p, q, Refused(if q.PostBill? then OpenBillExists else UniqueViolation));
      } else {
        var t := InsertBill(s, p, q, id);
        assert OwnsNew(t, p, q, id, NewBill(q));
        QuietKeeps(s, t, p);
      }
    }
  }

  lemma LockBillKeeps(s: State, p: nat, q: Request, b: nat)
    requires Inv(s) && p in s.procs && s.procs[p] == WantsBill(q, b)
    ensures Inv(LockBill(s, p, q, b))
  {
    hide Books, OneOpen;
    assert ProcOk(s, p);
    if b !in s.bills || s.bills[b].restaurant != q.restaurant {
      FinishKeeps(s, p, q, Refused(BillNotFound));
    } else if b !in s.billLocks {
      if s.bills[b].status != OPEN {
        FinishKeeps(s, p, q, Refused(BillNotOpen(s.bills[b].status)));
      } else {
        QuietKeeps(s, LockBill(s, p, q, b), p);
      }
    }
  }

  /** Whatever the statements write, they write lawfully. */
  lemma PrepareIsLawful(q: Request, b: nat, isNew: bool, row: Bill, adjusted: bool)
    requires !q.VoidBill? && !q.PostBill? && row.status == OPEN && Figures(row)
    ensures var r := Prepare(q, b, isNew, row, adjusted);
            r.Success? ==> Lawful(r.value) && r.value.bill == b && r.value.isNew == isNew && r.value.was == row
  {
    hide Quote, ApplyRate;
    match q {
      case PlaceOrder(_, _, items, _, _) => RequoteIsLawful(b, isNew, row, row.lines + items);
      case EditBill(_, _, AddLine(line)) => RequoteIsLawful(b, isNew, row, row.lines + [line]);
      case EditBill(_, _, SetLine(i, subtotal)) =>
        if i < |row.lines| {
          RequoteIsLawful(b, isNew, row, row.lines[i := row.lines[i].(subtotal := subtotal)]);
        }
      case EditBill(_, _, RemoveLine(i)) =>
        if i < |row.lines| {
          RequoteIsLawful(b, isNew, row, row.lines[..i] + row.lines[i + 1..]);
        }
      case SettleBill(_, _) =>
      case PayBill(_, _, _) =>
    }
  }

  lemma RequoteIsLawful(b: nat, isNew: bool, row: Bill, lines: seq<Line>)
    requires row.status == OPEN
    ensures var r := Requote(b, isNew, row, lines);
            r.Success? ==> Lawful(r.value) && r.value.bill == b && r.value.isNew == isNew && r.value.was == row
  {
    hide Quote, ApplyRate;
  }

  lemma WriteKeeps(s: State, p: nat, q: Request, b: nat, isNew: bool, row: Bill)
    requires Inv(s) && p in s.procs && s.procs[p] == HasBill(q, b, isNew, row)
    ensures Inv(WriteStatements(s, p, q, b, isNew, row))
  {
    assert ProcOk(s, p);
    assert Figures(row) && row.status == OPEN && b !in s.adjustments by {
      if isNew {
        NewBillFigures(q);
      } else {
        assert BillOk(s, b);
      }
    }
    PrepareIsLawful(q, b, isNew, row, false);
    hide Books, OneOpen, Figures, NewBill, Prepare, Lawful;
    match Prepare(q, b, isNew, row, false) {
      case Success(w) => QuietKeeps(s, Goto(s, p, Prepared(q, w)), p);
      case Failure(why) => FinishKeeps(s, p, q, Refused(why));
    }
  }

  // ---- The two steps that write --------------------------------------------

  lemma {:induction false} UnknownIsUnpaid(s: State, b: nat, n: nat)
    requires Books(s) && b !in s.bills && n <= |s.payments|
    ensures PaidOn(s.payments[..n], b) == 0
  {
    if n > 0 {
      UnknownIsUnpaid(s, b, n - 1);
      assert s.payments[..n][..n - 1] == s.payments[..n - 1];
      assert PaymentOk(s, s.payments[n - 1]);
    }
  }

  lemma PaidOnPush(payments: seq<Payment>, p: Payment, b: nat)
    ensures PaidOn(payments + [p], b) == PaidOn(payments, b) + if p.bill == b then p.amount else 0
  {
    assert (payments + [p])[..|payments|] == payments;
  }

  /** What the committing transaction knows about its write and the row it replaces. */
  ghost predicate Committable(s: State, w: Write) {
    && Lawful(w)
    && (if w.isNew then w.bill !in s.bills && w.was.paid == 0 && NoneOpenAt(s.bills, w.now.restaurant, w.now.table)
        else w.bill in s.bills && s.bills[w.bill] == w.was)
    && w.now.table in s.tables && s.tables[w.now.table] == w.now.restaurant
  }

  lemma PreparedIsCommittable(s: State, p: nat, q: Request, w: Write)
    requires Inv(s) && p in s.procs && s.procs[p] == Prepared(q, w)
    ensures Committable(s, w) && w.now.restaurant == q.restaurant
    ensures w.isNew ==> q.table in s.tableLocks && s.tableLocks[q.table] == p && w.now.table == q.table
  {
    assert ProcOk(s, p);
    if w.isNew {
      NewBillFigures(q);
      assert NewBill(q).paid == 0;
    } else {
      assert BillOk(s, w.bill);
    }
    if !q.PostBill? {
      PrepareIsLawful(q, w.bill, w.isNew, w.was, false);
    }
  }

  lemma CommitBillOk(s: State, w: Write, b: nat)
    requires Books(s) && Committable(s, w) && (b in s.bills || b == w.bill)
    ensures BillOk(Commit(s, w), b)
  {
    hide Figures, NoneOpenAt;
    CommitPaid(s, w, b);
    if b in s.bills {
      assert BillOk(s, b);
    }
  }

  /** The ledger of a bill after a commit: what it was, and this payment if it is this bill's. */
  lemma CommitPaid(s: State, w: Write, b: nat)
    requires Books(s)
    ensures PaidOn(Commit(s, w).payments, b) == PaidOn(s.payments, b) + if b == w.bill then Sum(w.payment) else 0
    ensures b !in s.bills ==> PaidOn(s.payments, b) == 0
  {
    hide BillOk;
    if b !in s.bills {
      UnknownIsUnpaid(s, b, |s.payments|);
      assert s.payments[..|s.payments|] == s.payments;
    }
    if w.payment.Some? {
      PaidOnPush(s.payments, Payment(w.now.restaurant, w.bill, w.payment.value), b);
    }
  }

  lemma CommitBooks(s: State, w: Write)
    requires Books(s) && Committable(s, w)
    ensures Books(Commit(s, w))
  {
    hide Figures, NoneOpenAt, BillOk;
    var t := Commit(s, w);
    forall b | b in t.bills ensures BillOk(t, b) {
      CommitBillOk(s, w, b);
    }
    forall i | 0 <= i < |t.payments| ensures PaymentOk(t, t.payments[i]) {
      assert i < |s.payments| ==> PaymentOk(s, s.payments[i]);
    }
  }

  lemma CommitOneOpen(s: State, w: Write)
    requires OneOpen(s.bills) && Committable(s, w)
    ensures OneOpen(Commit(s, w).bills)
  {
    var t := Commit(s, w);
    forall a, b, r, k | IsOpenAt(t.bills, a, r, k) && IsOpenAt(t.bills, b, r, k) ensures a == b {
      assert a != w.bill || !w.isNew ==> IsOpenAt(s.bills, a, r, k);
      assert b != w.bill || !w.isNew ==> IsOpenAt(s.bills, b, r, k);
    }
  }

  lemma CommitKeeps(s: State, p: nat, q: Request, w: Write)
    requires Inv(s) && p in s.procs && s.procs[p] == Prepared(q, w)
    ensures Inv(Finish(Commit(s, w), p, q, Accepted))
  {
    hide Books, OneOpen, Figures, Asked, Lawful;
    assert ProcOk(s, p);
    PreparedIsCommittable(s, p, q, w);
    CommitBooks(s, w);
    CommitOneOpen(s, w);
    var t := Finish(Commit(s, w), p, q, Accepted);
    SameBooks(Commit(s, w), t);
    CommitAlone(s, p, q, w);
    DoneKeeps(s, t, p);
  }

  lemma DoneKeeps(s: State, t: State, p: nat)
    requires Inv(s) && MovesAlone(s, t, p) && Books(t) && OneOpen(t.bills) && t.procs[p].Done?
    ensures Inv(t)
  {
    hide Books, OneOpen;
    Settles(s, t, p);
  }

  lemma CommitAlone(s: State, p: nat, q: Request, w: Write)
    requires p in s.procs && s.procs[p] == Prepared(q, w) && ProcOk(s, p) && Committable(s, w)
    requires w.isNew ==> q.table in s.tableLocks && s.tableLocks[q.table] == p && w.now.table == q.table
    ensures MovesAlone(s, Finish(Commit(s, w), p, q, Accepted), p)
  {
    hide Figures, Asked, NewBill;
    CommitAdvances(s, w);
    CommitOpens(s, p, w);
    hide Lawful, IsOpenAt, NoneOpenAt, Advances;
  }

  /** The only bill a commit can open stands on a table the transaction has locked. */
  lemma CommitOpens(s: State, p: nat, w: Write)
    requires Committable(s, w) && (w.isNew ==> w.now.table in s.tableLocks && s.tableLocks[w.now.table] == p)
    ensures forall b, r, k :: IsOpenAt(Commit(s, w).bills, b, r, k) ==>
              IsOpenAt(s.bills, b, r, k) || (k in s.tableLocks && s.tableLocks[k] == p)
  {
    hide Figures;
    CommitAdvances(s, w);
  }

  lemma CommitAdvances(s: State, w: Write)
    requires Committable(s, w)
    ensures forall b :: b in s.bills ==> Advances(s.bills[b], Commit(s, w).bills[b])
    ensures w.now.restaurant == w.was.restaurant && w.now.table == w.was.table && w.was.status == OPEN
  {
    hide Figures, NoneOpenAt;
  }

  lemma VoidKeeps(s: State, p: nat, q: Request)
    requires Inv(s) && p in s.procs && s.procs[p] == Voiding(q)
    ensures Inv(TryVoid(s, p, q))
  {
    assert ProcOk(s, p);
    if q.bill !in s.bills || s.bills[q.bill].restaurant != q.restaurant {
      GotoKeeps(s, p, Diagnosing(q, None));
    } else if !Voidable(s.bills[q.bill], q.restaurant) {
      GotoKeeps(s, p, Diagnosing(q, Some(s.bills[q.bill])));
    } else if q.bill !in s.billLocks {
      VoidBooks(s, p, q);
      VoidAlone(s, p, q);
      hide Books, OneOpen;
      DoneKeeps(s, TryVoid(s, p, q), p);
    }
  }

  lemma VoidAlone(s: State, p: nat, q: Request)
    requires p in s.procs && s.procs[p] == Voiding(q) && OneOpen(s.bills)
    requires q.VoidBill? && q.bill in s.bills && Voidable(s.bills[q.bill], q.restaurant) && q.bill !in s.billLocks
    ensures MovesAlone(s, TryVoid(s, p, q), p) && OneOpen(TryVoid(s, p, q).bills)
  {
    var t := TryVoid(s, p, q);
    assert forall b, r, k :: IsOpenAt(t.bills, b, r, k) ==> IsOpenAt(s.bills, b, r, k);
  }

  lemma VoidBooks(s: State, p: nat, q: Request)
    requires Books(s) && q.VoidBill? && q.bill in s.bills && Voidable(s.bills[q.bill], q.restaurant)
    requires q.bill !in s.billLocks
    ensures Books(TryVoid(s, p, q))
  {
    hide Figures;
    var t := TryVoid(s, p, q);
    forall b | b in t.bills ensures BillOk(t, b) {
      assert BillOk(s, b);
      SameFigures(s.bills[b], t.bills[b]);
    }
    forall i | 0 <= i < |t.payments| ensures PaymentOk(t, t.payments[i]) {
      assert PaymentOk(s, s.payments[i]);
    }
  }

  lemma SameFigures(was: Bill, now: Bill)
    requires Figures(was) && now == was.(status := now.status)
    ensures Figures(now)
  {
  }

  // ---- Every run -----------------------------------------------------------

  lemma Mine(s: State, p: nat)
    requires Inv(s) && p in s.procs
    ensures ProcOk(s, p)
  {
  }

  lemma ReadKeeps(s: State, p: nat, q: Request)
    requires Inv(s) && p in s.procs && q.PlaceOrder?
    ensures Inv(Goto(s, p, WantsTable(q, OpenAt(s.bills, q.restaurant, q.table))))
  {
    hide Books, OneOpen;
    GotoKeeps(s, p, WantsTable(q, OpenAt(s.bills, q.restaurant, q.table)));
  }

  lemma StepKeeps(s: State, p: nat, id: nat)
    requires Inv(s)
    ensures Inv(Step(s, p, id))
  {
    if p in s.procs {
      Mine(s, p);
      hide Inv, LockTable, LookForOpen, InsertBill, LockBill, WriteStatements, Commit, TryVoid, Owns, Targets;
      match s.procs[p] {
        case Reading(q) => ReadKeeps(s, p, q);
        case WantsTable(q, existing) => LockTableKeeps(s, p, q, existing);
        case HasTable(q, existing) => LookForOpenKeeps(s, p, q, existing);
        case Inserting(q) => InsertKeeps(s, p, q, id);
        case WantsBill(q, b) => LockBillKeeps(s, p, q, b);
        case HasBill(q, b, isNew, row) => WriteKeeps(s, p, q, b, isNew, row);
        case Prepared(q, w) => CommitKeeps(s, p, q, w);
        case Voiding(q) => VoidKeeps(s, p, q);
        case Diagnosing(q, _) => GotoKeeps(s, p, Done(q, Refused(Diagnosis(s, q.restaurant, q.bill))));
        case Done(_, _) =>
      }
    }
  }

  lemma ExecKeeps(s: State, e: Event)
    requires Inv(s)
    ensures Inv(Exec(s, e))
  {
    hide Books, OneOpen;
    match e {
      case Arrive(p, q) =>
        if p !in s.procs {
          GotoKeeps(s, p, Start(q));
        }
      case Advance(p, id) => StepKeeps(s, p, id);
      case Crash(p) =>
        if p in s.procs {
          FinishKeeps(s, p, s.procs[p].q, Refused(RolledBack));
        }
    }
  }

  lemma {:induction false} RunKeeps(tables: map<nat, nat>, es: seq<Event>)
    ensures Inv(Run(Empty(tables), es))
  {
    if es != [] {
      RunKeeps(tables, es[..|es| - 1]);
      ExecKeeps(Run(Empty(tables), es[..|es| - 1]), es[|es| - 1]);
    }
  }
}
