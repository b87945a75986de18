/**
 * The handlers as they run: one object holds the tables and the locks, and each
 * method is one statement of one handler, updating it in place. Every method
 * lands where `BillState` says, and keeps what `BillSafety` promises.
 */
module BillServer {
  import opened Wrappers
  import opened BillState
  import opened BillSafety

  class Server {
    var tables: map<nat, nat>
    var bills: map<nat, Bill>
    var payments: seq<Payment>
    var adjustments: map<nat, nat>
    var tableLocks: map<nat, nat>
    var billLocks: map<nat, nat>
    var procs: map<nat, Proc>

    ghost function View(): State
      reads this
    {
      State(tables, bills, payments, adjustments, tableLocks, billLocks, procs)
    }

    ghost predicate Valid()
      reads this
    {
      Inv(View())
    }

    constructor (active: map<nat, nat>)
      ensures Valid() && View() == Empty(active)
    {
      tables, bills, payments, adjustments := active, map[], [], map[];
      tableLocks, billLocks, procs := map[], map[], map[];
    }

    /** The open bill of a table: a scan, which the unique index leaves at most one row to find. */
    method FindOpen(restaurant: nat, table: nat) returns (r: Option<nat>)
      requires Valid()
      ensures r == OpenAt(bills, restaurant, table)
    {
      var left := bills.Keys;
      while left != {}
        invariant left <= bills.Keys
        invariant forall b :: b in bills && b !in left ==> !IsOpenAt(bills, b, restaurant, table)
        decreases |left|
      {
        var b :| b in left;
        if IsOpenAt(bills, b, restaurant, table) {
          return Some(b);
        }
        left := left - {b};
      }
      return None;
    }

    /** COMMIT or ROLLBACK: the locks go and the handler answers. */
    method Release(p: nat, q: Request, reply: Reply)
      modifies this
      ensures View() == Finish(old(View()), p, q, reply)
    {
      tableLocks := map t | t in tableLocks && tableLocks[t] != p :: tableLocks[t];
      billLocks := map b | b in billLocks && billLocks[b] != p :: billLocks[b];
      procs := procs[p := Done(q, reply)];
    }

    method Arrive(p: nat, q: Request)
      requires Valid()
      modifies this
      ensures Valid() && View() == Exec(old(View()), Event.Arrive(p, q))
    {
      ExecKeeps(View(), Event.Arrive(p, q));
      if p !in procs {
        procs := procs[p := Start(q)];
      }
    }

    /** An error, a timeout or a lost connection, between any two statements. */
    method Crash(p: nat)
      requires Valid()
      modifies this
      ensures Valid() && View() == Exec(old(View()), Event.Crash(p))
    {
      ExecKeeps(View(), Event.Crash(p));
      if p in procs && !procs[p].Done? {
        Release(p, procs[p].q, Refused(RolledBack));
      }
    }

    /** `SELECT … FROM tables … FOR UPDATE`. */
    method TakeTable(p: nat, q: Request, existing: Option<nat>)
      requires Opener(q)
      modifies this
      ensures View() == LockTable(old(View()), p, q, existing)
    {
      if q.table !in tables || tables[q.table] != q.restaurant {
        Release(p, q, Refused(TableNotFound));
      } else if q.table !in tableLocks {
        tableLocks := tableLocks[q.table := p];
        procs := procs[p := HasTable(q, existing)];
      }
    }

    method ChooseBill(p: nat, q: Request, existing: Option<nat>)
      requires Valid() && Opener(q)
      modifies this
      ensures View() == LookForOpen(old(View()), p, q, existing)
    {
      if q.PostBill? {
        var open := FindOpen(q.restaurant, q.table);
        if open.Some? {
          Release(p, q, Refused(OpenBillExists));
        } else {
          procs := procs[p := Inserting(q)];
        }
      } else if existing.Some? {
        procs := procs[p := WantsBill(q, existing.value)];
      } else {
        procs := procs[p := Inserting(q)];
      }
    }

    /** `INSERT INTO bills`, under the unique index. */
    method Insert(p: nat, q: Request, id: nat)
      requires Valid() && Opener(q)
      modifies this
      ensures View() == InsertBill(old(View()), p, q, id)
    {
      var taken := id in bills || exists o :: o in procs && HoldsNew(procs[o], id);
      if !taken {
        var open := FindOpen(q.restaurant, q.table);
        if open.Some? {
          Release(p, q, Refused(if q.PostBill? then OpenBillExists else UniqueViolation));
        } else if q.PostBill? {
          procs := procs[p := Prepared(q, Write(id, true, NewBill(q), NewBill(q), None, None))];
        } else {
          procs := procs[p := HasBill(q, id, true, NewBill(q))];
        }
      }
    }

    /** `SELECT … FROM bills … FOR UPDATE`. */
    method TakeBill(p: nat, q: Request, b: nat)
      modifies this
      ensures View() == LockBill(old(View()), p, q, b)
    {
      if b !in bills || bills[b].restaurant != q.restaurant {
        Release(p, q, Refused(BillNotFound));
      } else if b !in billLocks {
        if bills[b].status != OPEN {
          Release(p, q, Refused(BillNotOpen(bills[b].status)));
        } else {
          billLocks := billLocks[b := p];
          procs := procs[p := HasBill(q, b, false, bills[b])];
        }
      }
    }

    /** The statements between the lock and COMMIT. */
    method WriteAll(p: nat, q: Request, b: nat, isNew: bool, row: Bill)
      requires !q.VoidBill? && !q.PostBill?
      modifies this
      ensures View() == WriteStatements(old(View()), p, q, b, isNew, row)
    {
      var written := Prepare(q, b, isNew, row, b in adjustments);
      if written.Success? {
        procs := procs[p := Prepared(q, written.value)];
      } else {
        Release(p, q, Refused(written.error));
      }
    }

    method CommitWrite(p: nat, q: Request, w: Write)
      modifies this
      ensures View() == Finish(Commit(old(View()), w), p, q, Accepted)
    {
      bills := bills[w.bill := w.now];
      if w.payment.Some? {
        payments := payments + [Payment(w.now.restaurant, w.bill, w.payment.value)];
      }
      if w.adjustment.Some? {
        adjustments := adjustments[w.bill := w.adjustment.value];
      }
      Release(p, q, Accepted);
    }

    /** `UPDATE bills SET status = 'VOID' WHERE … AND status = 'OPEN' AND amount_paid_ves = 0`. */
    method UpdateToVoid(p: nat, q: Request)
      requires q.VoidBill?
      modifies this
      ensures View() == TryVoid(old(View()), p, q)
    {
      if q.bill !in bills || bills[q.bill].restaurant != q.restaurant {
        procs := procs[p := Diagnosing(q, None)];
      } else if !Voidable(bills[q.bill], q.restaurant) {
        procs := procs[p := Diagnosing(q, Some(bills[q.bill]))];
      } else if q.bill !in billLocks {
        bills := bills[q.bill := bills[q.bill].(status := VOID)];
        procs := procs[p := Done(q, Accepted)];
      }
    }

    method ReadWhyNotVoid(p: nat, q: Request)
      requires q.VoidBill?
      modifies this
      ensures View() == Goto(old(View()), p, Done(q, Refused(Diagnosis(old(View()), q.restaurant, q.bill))))
    {
      var why;
      if q.bill !in bills || bills[q.bill].restaurant != q.restaurant {
        why := BillNotFound;
      } else if bills[q.bill].paid != 0 {
        why := BillHasPayments;
      } else {
        why := BillNotOpen(bills[q.bill].status);
      }
      procs := procs[p := Done(q, Refused(why))];
    }

    /** The next statement of handler `p`. */
    method Advance(p: nat, id: nat)
      requires Valid()
      modifies this
      ensures Valid() && View() == Exec(old(View()), Event.Advance(p, id))
    {
      StepKeeps(View(), p, id);
      if p in procs {
        assert ProcOk(View(), p);
        match procs[p] {
          case Reading(q) =>
            var existing := FindOpen(q.restaurant, q.table);
            procs := procs[p := WantsTable(q, existing)];
          case WantsTable(q, existing) => TakeTable(p, q, existing);
          case HasTable(q, existing) => ChooseBill(p, q, existing);
          case Inserting(q) => Insert(p, q, id);
          case WantsBill(q, b) => TakeBill(p, q, b);
          case HasBill(q, b, isNew, row) => WriteAll(p, q, b, isNew, row);
          case Prepared(q, w) => CommitWrite(p, q, w);
          case Voiding(q) => UpdateToVoid(p, q);
          case Diagnosing(q, _) => ReadWhyNotVoid(p, q);
          case Done(_, _) =>
        }
      }
    }
  }
}
