/**
 * Bills as the database sees them (src/routes/bills.js, src/services/locks.js,
 * src/services/billItems.js, src/services/guestOrders.js).
 *
 * Every handler is a program that stops between any two statements, so any
 * number of them interleave. A transaction's writes are its own until COMMIT;
 * until then the row locks it took keep everybody else off the rows it read.
 */
module BillState {
  import opened Wrappers
  import opened Money

  datatype Status = OPEN | CLOSED | VOID
  datatype Line = Line(vatBps: nat, subtotal: nat)
  datatype Bill = Bill(restaurant: nat, table: nat, status: Status, quoted: nat, due: nat, paid: nat,
                       rate: nat, serviceBps: nat, lines: seq<Line>)
  datatype Payment = Payment(restaurant: nat, bill: nat, amount: nat)

  datatype Edit = AddLine(line: Line) | SetLine(index: nat, subtotal: nat) | RemoveLine(index: nat)

  datatype Request =
    | PostBill(restaurant: nat, table: nat, total: nat, rate: nat, serviceBps: nat)
    | PlaceOrder(restaurant: nat, table: nat, items: seq<Line>, rate: nat, serviceBps: nat)
    | EditBill(restaurant: nat, bill: nat, edit: Edit)
    | SettleBill(restaurant: nat, bill: nat)
    | VoidBill(restaurant: nat, bill: nat)
    | PayBill(restaurant: nat, bill: nat, amount: int)

  datatype Refusal =
    | TableNotFound | OpenBillExists | UniqueViolation
    | BillNotFound | BillNotOpen(status: Status) | BillHasPayments
    | BillNotItemised | LineNotFound | TotalBelowAmountPaid
    | InvalidAmount | PaymentExceedsBalance(remaining: int)
    | RolledBack

  datatype Reply = Accepted | Refused(why: Refusal)

  /** What a transaction has written and not yet committed. */
  datatype Write = Write(bill: nat, isNew: bool, was: Bill, now: Bill, payment: Option<nat>, adjustment: Option<nat>)

  datatype Proc =
    | Reading(q: Request)                                    // the order's read before its transaction
    | WantsTable(q: Request, existing: Option<nat>)
    | HasTable(q: Request, existing: Option<nat>)
    | Inserting(q: Request)                                  // found no open bill, or did not look again
    | WantsBill(q: Request, bill: nat)
    | HasBill(q: Request, bill: nat, isNew: bool, row: Bill) // the row as read under its lock
    | Prepared(q: Request, w: Write)
    | Voiding(q: Request)
    | Diagnosing(q: Request, missed: Option<Bill>)     // what the conditional update found
    | Done(q: Request, reply: Reply)

  datatype State = State(
    tables: map<nat, nat>,        // active tables and the restaurant each belongs to
    bills: map<nat, Bill>,
    payments: seq<Payment>,
    adjustments: map<nat, nat>,
    tableLocks: map<nat, nat>,
    billLocks: map<nat, nat>,
    procs: map<nat, Proc>)

  // ---- Totals --------------------------------------------------------------

  function Subtotal(lines: seq<Line>): nat {
    if lines == [] then 0 else Subtotal(lines[..|lines| - 1]) + lines[|lines| - 1].subtotal
  }

  function BaseAt(lines: seq<Line>, rate: nat): nat {
    if lines == [] then 0
    else
      var n := |lines| - 1;
      BaseAt(lines[..n], rate) + if lines[n].vatBps == rate then lines[n].subtotal else 0
  }

  function RatesIn(lines: seq<Line>): seq<nat> {
    if lines == [] then []
    else
      var n := |lines| - 1;
      var rates := RatesIn(lines[..n]);
      if lines[n].vatBps in rates then rates else rates + [lines[n].vatBps]
  }

  /** One rounding per rate, on that rate's whole base. */
  function VatOver(lines: seq<Line>, rates: seq<nat>): nat {
    if rates == [] then 0
    else
      var n := |rates| - 1;
      VatOver(lines, rates[..n]) + ApplyBps(BaseAt(lines, rates[n]), rates[n])
  }

  /** What the lines come to, in the menu's currency. */
  function Quote(lines: seq<Line>, serviceBps: nat): nat {
    Subtotal(lines) + VatOver(lines, RatesIn(lines)) + ApplyBps(Subtotal(lines), serviceBps)
  }

  function Requoted(bill: Bill, lines: seq<Line>): Bill {
    var quoted := Quote(lines, bill.serviceBps);
    bill.(lines := lines, quoted := quoted, due := ApplyRate(quoted, bill.rate))
  }

  // ---- One transaction's statements ----------------------------------------

  predicate IsOpenAt(bills: map<nat, Bill>, b: nat, restaurant: nat, table: nat) {
    b in bills && bills[b].status == OPEN && bills[b].restaurant == restaurant && bills[b].table == table
  }

  ghost predicate NoneOpenAt(bills: map<nat, Bill>, restaurant: nat, table: nat) {
    forall b :: b in bills ==> !IsOpenAt(bills, b, restaurant, table)
  }

  /** The open bill of a table, if it has one. */
  ghost function OpenAt(bills: map<nat, Bill>, restaurant: nat, table: nat): (r: Option<nat>)
    ensures r.None? <==> NoneOpenAt(bills, restaurant, table)
    ensures r.Some? ==> IsOpenAt(bills, r.value, restaurant, table)
  {
    if NoneOpenAt(bills, restaurant, table) then None
    else
      var b :| IsOpenAt(bills, b, restaurant, table);
      Some(b)
  }

  predicate Opener(q: Request) { q.PostBill? || q.PlaceOrder? }

  /** The row an opener inserts: POST with a fixed total, an order with none yet. */
  function NewBill(q: Request): Bill
    requires Opener(q)
  {
    match q
    case PostBill(r, t, total, rate, serviceBps) =>
      Bill(r, t, OPEN, total, ApplyRate(total, rate), 0, rate, serviceBps, [])
    case PlaceOrder(r, t, _, rate, serviceBps) =>
      Bill(r, t, OPEN, 0, ApplyRate(0, rate), 0, rate, serviceBps, [])
  }

  function Requote(b: nat, isNew: bool, row: Bill, lines: seq<Line>): Result<Write, Refusal> {
    var now := Requoted(row, lines);
    if now.due < row.paid then Failure(TotalBelowAmountPaid)
    else Success(Write(b, isNew, row, now, None, None))
  }

  /** What the statements between the lock and COMMIT write, given the locked row. */
  function Prepare(q: Request, b: nat, isNew: bool, row: Bill, adjusted: bool): Result<Write, Refusal>
    requires !q.VoidBill? && !q.PostBill?
  {
    match q
    case PlaceOrder(_, _, items, _, _) =>
      if row.lines == [] && row.quoted > 0 then Failure(BillNotItemised)
      else Requote(b, isNew, row, row.lines + items)
    case EditBill(_, _, AddLine(line)) =>
      if row.lines == [] && row.quoted > 0 then Failure(BillNotItemised)
      else Requote(b, isNew, row, row.lines + [line])
    case EditBill(_, _, SetLine(i, subtotal)) =>
      if i >= |row.lines| then Failure(LineNotFound)
      else Requote(b, isNew, row, row.lines[i := row.lines[i].(subtotal := subtotal)])
    case EditBill(_, _, RemoveLine(i)) =>
      if i >= |row.lines| then Failure(LineNotFound)
      else Requote(b, isNew, row, row.lines[..i] + row.lines[i + 1..])
    case SettleBill(_, _) =>
      var shortfall := row.due - row.paid;
      if shortfall > 0 && adjusted then Failure(UniqueViolation)
      else Success(Write(b, isNew, row, row.(status := CLOSED), None, if shortfall > 0 then Some(shortfall) else None))
    case PayBill(_, _, amount) =>
      if amount <= 0 then Failure(InvalidAmount)
      else if row.paid + amount > row.due then Failure(PaymentExceedsBalance(row.due - row.paid))
      else
        var paid := row.paid + amount;
        Success(Write(b, isNew, row, row.(paid := paid, status := if paid == row.due then CLOSED else OPEN),
                      Some(amount), None))
  }

  // ---- Steps ---------------------------------------------------------------

  function Without(locks: map<nat, nat>, p: nat): (r: map<nat, nat>)
    ensures forall k :: k in r <==> k in locks && locks[k] != p
    ensures forall k :: k in r ==> r[k] == locks[k]
  {
    map k | k in locks && locks[k] != p :: locks[k]
  }

  /** Nothing committed differs. */
  predicate SameData(s: State, t: State) {
    t.tables == s.tables && t.bills == s.bills && t.payments == s.payments && t.adjustments == s.adjustments
  }

  /** `p` moved on, or waited; it wrote nothing and has not succeeded. */
  predicate OnlyReads(s: State, t: State, p: nat) {
    SameData(s, t) && (t == s || (Moved(s, t, p) && !(t.procs[p].Done? && t.procs[p].reply == Accepted)))
  }

  predicate Moved(s: State, t: State, p: nat) {
    p in t.procs && t.procs == s.procs[p := t.procs[p]]
  }

  /** The transaction is over, one way or the other: its locks go, its handler answers. */
  function Finish(s: State, p: nat, q: Request, reply: Reply): (t: State)
    ensures SameData(s, t) && Moved(s, t, p)
  {
    s.(tableLocks := Without(s.tableLocks, p), billLocks := Without(s.billLocks, p),
       procs := s.procs[p := Done(q, reply)])
  }

  function Goto(s: State, p: nat, at: Proc): (t: State)
    ensures SameData(s, t) && Moved(s, t, p)
  {
    s.(procs := s.procs[p := at])
  }

  function Commit(s: State, w: Write): State {
    s.(bills := s.bills[w.bill := w.now],
       payments := if w.payment.Some? then s.payments + [Payment(w.now.restaurant, w.bill, w.payment.value)]
                   else s.payments,
       adjustments := if w.adjustment.Some? then s.adjustments[w.bill := w.adjustment.value] else s.adjustments)
  }

  /** A row nobody has: not in the table, not in anybody's transaction. */
  predicate Unused(s: State, b: nat) {
    && b !in s.bills
    && forall p :: p in s.procs ==> !HoldsNew(s.procs[p], b)
  }

  predicate HoldsNew(at: Proc, b: nat) {
    (at.HasBill? && at.isNew && at.bill == b) || (at.Prepared? && at.w.isNew && at.w.bill == b)
  }

  function Start(q: Request): Proc {
    match q
    case PostBill(_, _, _, _, _) => WantsTable(q, None)
    case PlaceOrder(_, _, _, _, _) => Reading(q)
    case VoidBill(_, _) => Voiding(q)
    case EditBill(_, b, _) => WantsBill(q, b)
    case SettleBill(_, b) => WantsBill(q, b)
    case PayBill(_, b, amount) => if amount <= 0 then Done(q, Refused(InvalidAmount)) else WantsBill(q, b)
  }

  /** The next statement of handler `p`; one that has to wait for a lock changes nothing. */
  ghost function Step(s: State, p: nat, id: nat): (t: State)
    ensures !(p in s.procs && (s.procs[p].Prepared? || s.procs[p].Voiding?)) ==> OnlyReads(s, t, p)
    ensures p in s.procs ==> Moved(s, t, p)
    ensures p in s.procs && s.procs[p].Done? ==> t == s
  {
    if p !in s.procs then s
    else
      match s.procs[p]
      case Reading(q) => if Opener(q) then Goto(s, p, WantsTable(q, OpenAt(s.bills, q.restaurant, q.table))) else s
      case WantsTable(q, existing) => LockTable(s, p, q, existing)
      case HasTable(q, existing) => LookForOpen(s, p, q, existing)
      case Inserting(q) => InsertBill(s, p, q, id)
      case WantsBill(q, b) => LockBill(s, p, q, b)
      case HasBill(q, b, isNew, row) => WriteStatements(s, p, q, b, isNew, row)
      case Prepared(q, w) => Finish(Commit(s, w), p, q, Accepted)
      case Voiding(q) => TryVoid(s, p, q)
      case Diagnosing(q, _) =>
        if q.VoidBill? then Goto(s, p, Done(q, Refused(Diagnosis(s, q.restaurant, q.bill)))) else s
      case Done(_, _) => s
  }

  function LockTable(s: State, p: nat, q: Request, existing: Option<nat>): (t: State)
    ensures OnlyReads(s, t, p)
  {
    if !Opener(q) then s
    else if q.table !in s.tables || s.tables[q.table] != q.restaurant then Finish(s, p, q, Refused(TableNotFound))
    else if q.table in s.tableLocks then s
    else Goto(s, p, HasTable(q, existing)).(tableLocks := s.tableLocks[q.table := p])
  }

  /** POST looks for an open bill under the table lock; an order trusts what it read before. */
  ghost function LookForOpen(s: State, p: nat, q: Request, existing: Option<nat>): (t: State)
    ensures OnlyReads(s, t, p)
  {
    if q.PostBill? then
      if OpenAt(s.bills, q.restaurant, q.table).Some? then Finish(s, p, q, Refused(OpenBillExists))
      else Goto(s, p, Inserting(q))
    else if existing.Some? then Goto(s, p, WantsBill(q, existing.value))
    else Goto(s, p, Inserting(q))
  }

  /** The insert and its unique index: one open bill for a restaurant and table. */
  ghost function InsertBill(s: State, p: nat, q: Request, id: nat): (t: State)
    ensures OnlyReads(s, t, p)
  {
    if !Opener(q) || !Unused(s, id) then s
    else if OpenAt(s.bills, q.restaurant, q.table).Some? then
      Finish(s, p, q, Refused(if q.PostBill? then OpenBillExists else UniqueViolation))
    else if q.PostBill? then Goto(s, p, Prepared(q, Write(id, true, NewBill(q), NewBill(q), None, None)))
    else Goto(s, p, HasBill(q, id, true, NewBill(q)))
  }

  /** `SELECT … FOR UPDATE`: waits for the row, then reads what was last committed. */
  function LockBill(s: State, p: nat, q: Request, b: nat): (t: State)
    ensures OnlyReads(s, t, p)
  {
    if b !in s.bills || s.bills[b].restaurant != q.restaurant then Finish(s, p, q, Refused(BillNotFound))
    else if b in s.billLocks then s
    else if s.bills[b].status != OPEN then Finish(s, p, q, Refused(BillNotOpen(s.bills[b].status)))
    else Goto(s, p, HasBill(q, b, false, s.bills[b])).(billLocks := s.billLocks[b := p])
  }

  function WriteStatements(s: State, p: nat, q: Request, b: nat, isNew: bool, row: Bill): (t: State)
    ensures OnlyReads(s, t, p)
  {
    if q.VoidBill? || q.PostBill? then s
    else
      match Prepare(q, b, isNew, row, b in s.adjustments)
      case Success(w) => Goto(s, p, Prepared(q, w))
      case Failure(why) => Finish(s, p, q, Refused(why))
  }

  predicate Voidable(row: Bill, restaurant: nat) {
    row.restaurant == restaurant && row.status == OPEN && row.paid == 0
  }

  /** One statement: where the row matches it waits for its lock and voids it; where it does not, nothing happened. */
  ghost function TryVoid(s: State, p: nat, q: Request): State {
    if !q.VoidBill? then s
    else if q.bill !in s.bills || s.bills[q.bill].restaurant != q.restaurant then Goto(s, p, Diagnosing(q, None))
    else if !Voidable(s.bills[q.bill], q.restaurant) then Goto(s, p, Diagnosing(q, Some(s.bills[q.bill])))
    else if q.bill in s.billLocks then s
    else Goto(s, p, Done(q, Accepted)).(bills := s.bills[q.bill := s.bills[q.bill].(status := VOID)])
  }

  /** The read that words the error. */
  function Diagnosis(s: State, restaurant: nat, b: nat): Refusal {
    if b !in s.bills || s.bills[b].restaurant != restaurant then BillNotFound
    else if s.bills[b].paid != 0 then BillHasPayments
    else BillNotOpen(s.bills[b].status)
  }

  datatype Event =
    | Arrive(p: nat, q: Request)
    | Advance(p: nat, id: nat)   // `id` is the identifier an insert draws
    | Crash(p: nat)              // any error, timeout or lost connection: ROLLBACK

  ghost function Exec(s: State, e: Event): State {
    match e
    case Arrive(p, q) => if p in s.procs then s else Goto(s, p, Start(q))
    case Advance(p, id) => Step(s, p, id)
    case Crash(p) => if p in s.procs && !s.procs[p].Done? then Finish(s, p, s.procs[p].q, Refused(RolledBack)) else s
  }

  ghost function Run(s: State, es: seq<Event>): State {
    if es == [] then s else Exec(Run(s, es[..|es| - 1]), es[|es| - 1])
  }

  /** A database with tables and nothing on them. */
  function Empty(tables: map<nat, nat>): State {
    State(tables, map[], [], map[], map[], map[], map[])
  }
}
