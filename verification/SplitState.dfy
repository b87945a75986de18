/**
 * Stored splits and the money that settles them (src/services/splits.js,
 * src/services/payments.js, src/services/paymentClaims.js, and the constraints
 * of migrations 020 and 022).
 *
 * Transactions stop between any two statements. Row locks come in two kinds:
 * FOR UPDATE, and the FOR KEY SHARE of a foreign key, which an insert into
 * `payments` takes on the share it names and an insert into `bill_splits` on
 * its bill. `advanceShare` locks the share only, and reads the split's status
 * from the snapshot its statement began with, which may be older than the lock
 * it waited for.
 *
 * PENDING stands for the three unresolved payment statuses, which the code
 * treats alike.
 */
module SplitState {
  import opened Wrappers
  import LargestRemainder
  import SplitEngine

  /**
   * A bill's row. `direct` is money that credited no share and `shared` money
   * that did; `edits` and `receipts` count the edits that changed the total and
   * the payments that landed. The row the source keeps has only their sum and
   * none of the counters.
   */
  datatype Bill = Bill(open: bool, due: nat, direct: nat, shared: nat, edits: nat, receipts: nat)

  function Paid(bill: Bill): nat { bill.direct + bill.shared }

  datatype Status = ACTIVE | STALE | VOID

  /**
   * A plan. `readAt` is the bill it was computed from, `insertedAt` the bill as
   * the plan was inserted, `voidedAt` how long the ledger was when it was voided.
   */
  datatype Split = Split(bill: nat, basis: nat, status: Status, members: seq<nat>,
                         readAt: Bill, insertedAt: Bill, ask: Ask, voidedAt: nat)
  datatype Share = Share(split: nat, amount: int, paid: nat)
  datatype PayStatus = PENDING | SUCCEEDED | FAILED
  datatype Payment = Payment(bill: nat, share: Option<nat>, amount: nat, status: PayStatus)

  /** What a table asks the engine: the lines it reads and the validated request. */
  datatype Ask = Ask(items: seq<SplitEngine.Item>, request: SplitEngine.Request)

  datatype Request =
    | Pay(bill: nat, share: Option<nat>, amount: nat)     // processSplitPayment
    | Declare(bill: nat, share: Option<nat>, amount: nat) // declareClaim
    | Confirm(payment: nat, detach: bool)                 // confirmClaim, and rails that let a refusal through
    | Reject(payment: nat)
    | Agree(bill: nat, ask: Ask)                          // createSplit
    | Discard(bill: nat, split: nat)                      // voidSplit
    | EditLines(bill: nat, due: nat)                      // any edit of lines, and the total it comes to

  /** What a transaction has written and not yet committed. */
  datatype Effect =
    | Record(payment: Payment)
    | Settle(index: nat, credited: bool)
    | Fail(index: nat)
    | Retire(bill: nat, due: nat, live: Option<nat>)

  /** The bill as read, and the amounts the engine made of it. */
  datatype Plan = Plan(read: Bill, amounts: seq<int>)

  datatype Proc =
    | WantsPayment(q: Request)
    | WantsBill(q: Request, bill: nat)
    | HasBill(q: Request, bill: nat)                                     // locked, open, and it fits
    | Crediting(q: Request, bill: nat)                                   // advanceShare is next
    | WantsShare(q: Request, bill: nat, share: nat, seen: Option<Split>) // its snapshot taken, its lock not
    | Marking(q: Request, bill: nat, live: Option<nat>)                  // the edit's UPDATE found this split live
    | Ready(q: Request, effect: Effect)
    | ReadsBill(q: Request)
    | Seeks(q: Request, plan: Option<Plan>)
    | WantsSplit(q: Request, plan: Option<Plan>, split: nat)
    | HasSplit(q: Request, plan: Option<Plan>, split: nat)               // its row locked, and ACTIVE
    | Summed(q: Request, plan: Option<Plan>, split: nat)                 // its shares locked, none paid
    | Clear(q: Request, plan: Option<Plan>, prior: Option<nat>)          // nothing in the way any more
    | Inserted(q: Request, plan: Option<Plan>, prior: Option<nat>, at: Bill, id: nat, ids: seq<nat>)
    | Done(q: Request, ok: bool)

  /** Two locks the source takes; without either a promise breaks (`SplitRaces`). */
  datatype Rules = Rules(keyShare: bool, discardLocks: bool)

  datatype Tables = Tables(bills: map<nat, Bill>, splits: map<nat, Split>, shares: map<nat, Share>,
                           payments: seq<Payment>)

  /** FOR UPDATE: row to transaction. FOR KEY SHARE: transaction to row. */
  datatype Locks = Locks(bills: map<nat, nat>, splits: map<nat, nat>, payments: map<nat, nat>, shares: map<nat, nat>,
                         shareKeys: map<nat, nat>, billKeys: map<nat, nat>)

  datatype State = State(tables: Tables, locks: Locks, procs: map<nat, Proc>)

  // ---- Locks ---------------------------------------------------------------

  function Without(locks: map<nat, nat>, p: nat): map<nat, nat> {
    map k | k in locks && locks[k] != p :: locks[k]
  }

  predicate Free(locks: map<nat, nat>, k: nat, p: nat) { k in locks ==> locks[k] == p }

  /** Nobody else has the key of this row. */
  predicate KeyFree(keys: map<nat, nat>, k: nat, p: nat) { forall o :: o in keys && o != p ==> keys[o] != k }

  predicate ShareFree(l: Locks, x: nat, p: nat) { Free(l.shares, x, p) && KeyFree(l.shareKeys, x, p) }

  predicate BillFree(l: Locks, b: nat, p: nat) { Free(l.bills, b, p) && KeyFree(l.billKeys, b, p) }

  predicate AllFree(l: Locks, members: seq<nat>, p: nat) {
    forall i :: 0 <= i < |members| ==> ShareFree(l, members[i], p)
  }

  function LockAll(locks: map<nat, nat>, members: seq<nat>, p: nat): map<nat, nat> {
    map k | k in locks.Keys + (set x | x in members) :: if k in members then p else locks[k]
  }

  /** COMMIT or ROLLBACK. */
  function Released(l: Locks, p: nat): Locks {
    Locks(Without(l.bills, p), Without(l.splits, p), Without(l.payments, p), Without(l.shares, p),
          l.shareKeys - {p}, l.billKeys - {p})
  }

  // ---- Statements ----------------------------------------------------------

  /** What a transaction's next statement does: wait, fail, go on with these locks, or commit these tables. */
  datatype Move = Wait | Refuse | To(at: Proc, locks: Locks) | Commit(tables: Tables)

  /** The amount a request is about to bring to its bill, if it brings any. */
  function AmountOf(d: Tables, q: Request): nat {
    match q
    case Pay(_, _, amount) => amount
    case Declare(_, _, amount) => amount
    case Confirm(i, _) => if i < |d.payments| then d.payments[i].amount else 0
    case _ => 0
  }

  /** The share a settling request credits, if it names one. */
  function ShareOf(d: Tables, q: Request): Option<nat> {
    match q
    case Pay(_, x, _) => x
    case Confirm(i, _) => if i < |d.payments| then d.payments[i].share else None
    case _ => None
  }

  /** Locks the claim and insists that it is still pending. */
  function LockPayment(d: Tables, l: Locks, p: nat, q: Request): Move
    requires q.Confirm? || q.Reject?
  {
    if q.payment >= |d.payments| then Refuse
    else if !Free(l.payments, q.payment, p) then Wait
    else if d.payments[q.payment].status != PENDING then Refuse
    else
      To(if q.Reject? then Ready(q, Fail(q.payment)) else WantsBill(q, d.payments[q.payment].bill),
         l.(payments := l.payments[q.payment := p]))
  }

  /** The bill is open, and what is about to happen to it keeps what is paid within what is due. */
  predicate Fits(d: Tables, q: Request, bill: Bill) {
    bill.open && (if q.EditLines? then Paid(bill) <= q.due else Paid(bill) + AmountOf(d, q) <= bill.due)
  }

  function LockBill(d: Tables, l: Locks, p: nat, q: Request, b: nat): Move {
    if b !in d.bills then Refuse
    else if !BillFree(l, b, p) then Wait
    else if !Fits(d, q, d.bills[b]) then Refuse
    else To(HasBill(q, b), l.(bills := l.bills[b := p]))
  }

  /** The statement after the bill is locked: the payment's row, or the edit's look for a live split. */
  ghost function WithBill(rules: Rules, d: Tables, l: Locks, p: nat, q: Request, b: nat): Move {
    match q
    case Pay(_, Some(x), _) => NameShare(rules, d, l, p, x, Crediting(q, b))
    case Pay(_, None, amount) => To(Ready(q, Record(Payment(b, None, amount, SUCCEEDED))), l)
    case Declare(_, Some(x), amount) =>
      NameShare(rules, d, l, p, x, Ready(q, Record(Payment(b, Some(x), amount, PENDING))))
    case Declare(_, None, amount) => To(Ready(q, Record(Payment(b, None, amount, PENDING))), l)
    case Confirm(i, _) => To(if ShareOf(d, q).Some? then Crediting(q, b) else Ready(q, Settle(i, false)), l)
    case EditLines(_, due) =>
      if b !in d.bills then Refuse
      else if due == d.bills[b].due then To(Ready(q, Retire(b, due, None)), l)
      else To(Marking(q, b, LiveOn(d, b)), l)
    case _ => Wait
  }

  /** INSERT INTO payments: the foreign key wants the share to exist, and holds its key. */
  function NameShare(rules: Rules, d: Tables, l: Locks, p: nat, x: nat, next: Proc): Move {
    if x !in d.shares then Refuse
    else if !rules.keyShare then To(next, l)
    else if !Free(l.shares, x, p) then Wait
    else To(next, l.(shareKeys := l.shareKeys[p := x]))
  }

  /** advanceShare's statement begins: this is all it will ever see of the split. */
  function TakeSnapshot(d: Tables, l: Locks, q: Request, b: nat): Move {
    match ShareOf(d, q)
    case None => Wait
    case Some(x) =>
      var seen := if x in d.shares && d.shares[x].split in d.splits then Some(d.splits[d.shares[x].split]) else None;
      To(WantsShare(q, b, x, seen), l)
  }

  /** The share as locked, and the split as it was. */
  predicate Refuses(d: Tables, b: nat, x: nat, amount: nat, seen: Option<Split>) {
    || x !in d.shares || seen.None? || seen.value.bill != b || seen.value.status != ACTIVE
    || d.shares[x].paid + amount > d.shares[x].amount
  }

  function LockShare(d: Tables, l: Locks, p: nat, q: Request, b: nat, x: nat, seen: Option<Split>): Move {
    if !ShareFree(l, x, p) then Wait
    else if !Refuses(d, b, x, AmountOf(d, q), seen) then
      To(Ready(q, if q.Confirm? then Settle(q.payment, true)
                  else Record(Payment(b, Some(x), AmountOf(d, q), SUCCEEDED))),
         l.(shares := l.shares[x := p]))
    else if q.Confirm? && q.detach then To(Ready(q, Settle(q.payment, false)), l)
    else Refuse
  }

  predicate IsLive(d: Tables, k: nat, b: nat) { k in d.splits && d.splits[k].bill == b && d.splits[k].status == ACTIVE }

  /** The split that governs a bill, if one does. */
  ghost function LiveOn(d: Tables, b: nat): (r: Option<nat>)
    ensures r.Some? ==> IsLive(d, r.value, b)
    ensures r.None? ==> forall k: nat :: !IsLive(d, k, b)
  {
    if k :| IsLive(d, k, b) then Some(k) else None
  }

  /** The edit's UPDATE: waits for the row it found, and marks it if it is still ACTIVE. */
  function MarkStale(d: Tables, l: Locks, p: nat, q: Request, b: nat, live: Option<nat>): Move
    requires q.EditLines?
  {
    if live.Some? && !Free(l.splits, live.value, p) then Wait
    else if live.Some? && IsLive(d, live.value, b) then
      To(Ready(q, Retire(b, q.due, live)), l.(splits := l.splits[live.value := p]))
    else To(Ready(q, Retire(b, q.due, None)), l)
  }

  /** Before its transaction: the bill must be open, and the engine divides what is outstanding. */
  ghost function ReadBill(d: Tables, l: Locks, q: Request): Move
    requires q.Agree?
  {
    if q.bill !in d.bills || !d.bills[q.bill].open || q.ask.request.participants == [] then Refuse
    else
      var row := d.bills[q.bill];
      match SplitEngine.PreviewOutcome(row.due, Paid(row), q.ask.items, q.ask.request)
      case Failure(_) => Refuse
      case Success(amounts) => To(Seeks(q, Some(Plan(row, amounts))), l)
  }

  ghost function SeekLive(d: Tables, l: Locks, q: Request, plan: Option<Plan>): Move
    requires q.Agree?
  {
    match LiveOn(d, q.bill)
    case Some(k) => To(WantsSplit(q, plan, k), l)
    case None => To(Clear(q, plan, None), l)
  }

  function LockSplit(d: Tables, l: Locks, p: nat, q: Request, plan: Option<Plan>, k: nat): Move
    requires q.Agree? || q.Discard?
  {
    if k !in d.splits || d.splits[k].bill != q.bill then Refuse
    else if !Free(l.splits, k, p) then Wait
    else if d.splits[k].status != ACTIVE then if q.Agree? then To(Clear(q, plan, None), l) else Refuse
    else To(HasSplit(q, plan, k), l.(splits := l.splits[k := p]))
  }

  predicate AnyPaid(d: Tables, members: seq<nat>) {
    exists i :: 0 <= i < |members| && members[i] in d.shares && d.shares[members[i]].paid > 0
  }

  predicate NamesOne(payment: Payment, members: seq<nat>) {
    payment.status == PENDING && payment.share.Some? && payment.share.value in members
  }

  predicate AnyPending(payments: seq<Payment>, members: seq<nat>) {
    exists i :: 0 <= i < |payments| && NamesOne(payments[i], members)
  }

  function SumShares(rules: Rules, d: Tables, l: Locks, p: nat, q: Request, plan: Option<Plan>, k: nat): Move {
    if k !in d.splits then Wait
    else
      var members := d.splits[k].members;
      if rules.discardLocks && !AllFree(l, members, p) then Wait
      else if AnyPaid(d, members) then Refuse
      else To(Summed(q, plan, k), if rules.discardLocks then l.(shares := LockAll(l.shares, members, p)) else l)
  }

  function CountPending(d: Tables, l: Locks, q: Request, plan: Option<Plan>, k: nat): Move {
    if k !in d.splits then Wait
    else if AnyPending(d.payments, d.splits[k].members) then Refuse
    else To(Clear(q, plan, Some(k)), l)
  }

  /** Identifiers the tables do not have. */
  predicate Unused(d: Tables, id: nat, ids: seq<nat>) {
    && id !in d.splits
    && (forall i :: 0 <= i < |ids| ==> ids[i] !in d.shares)
    && (forall i, j :: 0 <= i < j < |ids| ==> ids[i] != ids[j])
  }

  /** Two inserts that can be pending together: other rows, and splits of other bills. */
  predicate Apart(at: Proc, b: nat, id: nat, ids: seq<nat>) {
    at.Inserted? ==>
      && at.q.Agree? && at.q.bill != b && at.id != id
      && forall i :: 0 <= i < |ids| ==> ids[i] !in at.ids
  }

  /**
   * INSERT INTO bill_splits: under one_active_per_bill it waits for another's
   * pending insert and fails on a committed live split; its foreign key waits
   * for whoever has the bill FOR UPDATE, and then keeps them off it.
   */
  function InsertSplit(d: Tables, l: Locks, procs: map<nat, Proc>, p: nat, q: Request, plan: Option<Plan>,
                       prior: Option<nat>,
                       id: nat, ids: seq<nat>): Move
    requires q.Agree?
  {
    if plan.None? || q.bill !in d.bills || !Unused(d, id, ids) || |ids| != |plan.value.amounts| then Wait
    else if exists o :: o in procs && o != p && !Apart(procs[o], q.bill, id, ids) then Wait
    else if exists k :: k in d.splits && IsLive(d, k, q.bill) && prior != Some(k) then Refuse
    else if !Free(l.bills, q.bill, p) then Wait
    else To(Inserted(q, plan, prior, d.bills[q.bill], id, ids), l.(billKeys := l.billKeys[p := q.bill]))
  }

  // ---- Commits -------------------------------------------------------------

  function Void(d: Tables, prior: Option<nat>): map<nat, Split> {
    if prior.Some? && prior.value in d.splits then
      d.splits[prior.value := d.splits[prior.value].(status := VOID, voidedAt := |d.payments|)]
    else d.splits
  }

  /** Migration 020's constraints: a positive basis, shares that are not negative, and their sum is the basis. */
  predicate AddsUp(plan: Plan) {
    && plan.read.due > Paid(plan.read)
    && SplitEngine.NonNegative(plan.amounts)
    && LargestRemainder.Sum(plan.amounts) == plan.read.due - Paid(plan.read)
  }

  function WithShares(shares: map<nat, Share>, id: nat, ids: seq<nat>, amounts: seq<int>): map<nat, Share>
    requires |ids| == |amounts|
  {
    if ids == [] then shares
    else
      var n := |ids| - 1;
      WithShares(shares, id, ids[..n], amounts[..n])[ids[n] := Share(id, amounts[n], 0)]
  }

  /** The old plan void, the new one live, with its shares. */
  function Agreed(d: Tables, q: Request, plan: Plan, prior: Option<nat>, at: Bill, id: nat, ids: seq<nat>): Tables
    requires q.Agree? && AddsUp(plan) && |ids| == |plan.amounts|
  {
    var split := Split(q.bill, plan.read.due - Paid(plan.read), ACTIVE, ids, plan.read, at, q.ask, 0);
    d.(splits := Void(d, prior)[id := split], shares := WithShares(d.shares, id, ids, plan.amounts))
  }

  function CommitSplit(d: Tables, q: Request, plan: Option<Plan>, prior: Option<nat>, at: Bill, id: nat,
                       ids: seq<nat>): Move
    requires q.Agree?
  {
    if plan.None? || !AddsUp(plan.value) || |ids| != |plan.value.amounts| then Refuse
    else Commit(Agreed(d, q, plan.value, prior, at, id, ids))
  }

  function Credit(shares: map<nat, Share>, x: nat, amount: nat): map<nat, Share> {
    if x in shares then shares[x := shares[x].(paid := shares[x].paid + amount)] else shares
  }

  /** `applyToBill`: closed on exact equality and nowhere else. */
  function Landed(bill: Bill, amount: nat, viaShare: bool): Bill {
    var paid := if viaShare then bill.(shared := bill.shared + amount) else bill.(direct := bill.direct + amount);
    paid.(receipts := bill.receipts + 1, open := Paid(paid) != bill.due)
  }

  function Edited(bill: Bill, due: nat): Bill {
    if due == bill.due then bill else bill.(due := due, edits := bill.edits + 1)
  }

  /** A payment settled: on its bill, and on its share where it credits one. */
  function Receive(d: Tables, payments: seq<Payment>, b: nat, x: Option<nat>, amount: nat): Tables {
    d.(payments := payments,
       bills := if b in d.bills then d.bills[b := Landed(d.bills[b], amount, x.Some?)] else d.bills,
       shares := if x.Some? then Credit(d.shares, x.value, amount) else d.shares)
  }

  function Apply(d: Tables, e: Effect): Tables {
    match e
    case Record(payment) =>
      if payment.status == SUCCEEDED then
        Receive(d, d.payments + [payment], payment.bill, payment.share, payment.amount)
      else d.(payments := d.payments + [payment])
    case Settle(i, credited) =>
      if i >= |d.payments| then d
      else
        var was := d.payments[i];
        var x := if credited then was.share else None;
        Receive(d, d.payments[i := was.(status := SUCCEEDED, share := x)], was.bill, x, was.amount)
    case Fail(i) =>
      if i >= |d.payments| then d else d.(payments := d.payments[i := d.payments[i].(status := FAILED)])
    case Retire(b, due, live) =>
      d.(bills := if b in d.bills then d.bills[b := Edited(d.bills[b], due)] else d.bills,
         splits := if live.Some? && live.value in d.splits then
                     d.splits[live.value := d.splits[live.value].(status := STALE)]
                   else d.splits)
  }

  // ---- Steps ---------------------------------------------------------------

  function Start(q: Request): Proc {
    match q
    case Pay(b, _, amount) => if amount == 0 then Done(q, false) else WantsBill(q, b)
    case Declare(b, _, amount) => if amount == 0 then Done(q, false) else WantsBill(q, b)
    case EditLines(b, _) => WantsBill(q, b)
    case Confirm(_, _) => WantsPayment(q)
    case Reject(_) => WantsPayment(q)
    case Agree(_, _) => ReadsBill(q)
    case Discard(_, k) => WantsSplit(q, None, k)
  }

  /** The next statement of `p`; an insert draws `id` and `ids`. */
  ghost function Next(rules: Rules, s: State, p: nat, id: nat, ids: seq<nat>): Move
    requires p in s.procs
  {
    var d, l := s.tables, s.locks;
    match s.procs[p]
    case WantsPayment(q) => if q.Confirm? || q.Reject? then LockPayment(d, l, p, q) else Wait
    case WantsBill(q, b) => LockBill(d, l, p, q, b)
    case HasBill(q, b) => WithBill(rules, d, l, p, q, b)
    case Crediting(q, b) => TakeSnapshot(d, l, q, b)
    case WantsShare(q, b, x, seen) => LockShare(d, l, p, q, b, x, seen)
    case Marking(q, b, live) => if q.EditLines? then MarkStale(d, l, p, q, b, live) else Wait
    case Ready(q, effect) => Commit(Apply(d, effect))
    case ReadsBill(q) => if q.Agree? then ReadBill(d, l, q) else Wait
    case Seeks(q, plan) => if q.Agree? then SeekLive(d, l, q, plan) else Wait
    case WantsSplit(q, plan, k) => if q.Agree? || q.Discard? then LockSplit(d, l, p, q, plan, k) else Wait
    case HasSplit(q, plan, k) => SumShares(rules, d, l, p, q, plan, k)
    case Summed(q, plan, k) => CountPending(d, l, q, plan, k)
    case Clear(q, plan, prior) =>
      if q.Discard? then Commit(d.(splits := Void(d, prior)))
      else if q.Agree? then InsertSplit(d, l, s.procs, p, q, plan, prior, id, ids)
      else Wait
    case Inserted(q, plan, prior, at, k, ks) => if q.Agree? then CommitSplit(d, q, plan, prior, at, k, ks) else Wait
    case Done(_, _) => Wait
  }

  function Finish(s: State, p: nat, q: Request, ok: bool): State {
    s.(locks := Released(s.locks, p), procs := s.procs[p := Done(q, ok)])
  }

  function Perform(s: State, p: nat, move: Move): State
    requires p in s.procs
  {
    match move
    case Wait => s
    case Refuse => Finish(s, p, s.procs[p].q, false)
    case To(at, locks) => s.(locks := locks, procs := s.procs[p := at])
    case Commit(tables) => Finish(s.(tables := tables), p, s.procs[p].q, true)
  }

  datatype Event =
    | Arrive(p: nat, q: Request)
    | Advance(p: nat, id: nat, ids: seq<nat>)
    | Crash(p: nat)

  ghost function Exec(rules: Rules, s: State, e: Event): State {
    match e
    case Arrive(p, q) => if p in s.procs then s else s.(procs := s.procs[p := Start(q)])
    case Advance(p, id, ids) => if p in s.procs then Perform(s, p, Next(rules, s, p, id, ids)) else s
    case Crash(p) => if p in s.procs && !s.procs[p].Done? then Finish(s, p, s.procs[p].q, false) else s
  }

  ghost function Run(rules: Rules, s: State, es: seq<Event>): State {
    if es == [] then s else Exec(rules, Run(rules, s, es[..|es| - 1]), es[|es| - 1])
  }

  /** Open bills with these totals, and nothing paid or planned. */
  function Opened(dues: map<nat, nat>): State {
    State(Tables(map b | b in dues :: Bill(true, dues[b], 0, 0, 0, 0), map[], map[], []),
          Locks(map[], map[], map[], map[], map[], map[]), map[])
  }
}
