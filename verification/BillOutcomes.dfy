/**
 * What an accepted request adds to the tables, what a refused one is told, and
 * when a handler waits, in terms of the request and the committed rows alone.
 */
module BillOutcomes {
  import opened Wrappers
  import opened Money
  import opened BillState
  import opened BillSafety
  import opened BillTheorems

  // ---- What is gained ------------------------------------------------------

  /** No row but `b` differs. */
  ghost predicate OnlyBill(s: State, t: State, b: nat) {
    && t.tables == s.tables && b in t.bills
    && (forall c :: c in t.bills && c != b ==> c in s.bills && t.bills[c] == s.bills[c])
    && (forall c :: c in s.bills ==> c in t.bills)
  }

  /** The lines changed, and the total with them; nothing else of the row did. */
  predicate Relined(was: Bill, now: Bill, lines: seq<Line>) {
    && now.lines == lines
    && now.quoted == Quote(lines, was.serviceBps) && now.due == ApplyRate(now.quoted, was.rate)
    && now == was.(lines := now.lines, quoted := now.quoted, due := now.due)
  }

  /** A row nobody had before, open at this table. */
  predicate Opened(s: State, t: State, b: nat, restaurant: nat, table: nat, rate: nat, serviceBps: nat) {
    && b !in s.bills && b in t.bills
    && var row := t.bills[b];
       && row.restaurant == restaurant && row.table == table && row.status == OPEN && row.paid == 0
       && row.rate == rate && row.serviceBps == serviceBps
  }

  /** The table's bill has the order's items after whatever it had, and there is one now if there was none. */
  ghost predicate Ordered(s: State, t: State, restaurant: nat, table: nat, items: seq<Line>, rate: nat,
                          serviceBps: nat)
  {
    && t.payments == s.payments && t.adjustments == s.adjustments
    && exists b: nat ::
         && OnlyBill(s, t, b) && IsOpenAt(t.bills, b, restaurant, table)
         && (if b in s.bills then
               IsOpenAt(s.bills, b, restaurant, table) && Relined(s.bills[b], t.bills[b], s.bills[b].lines + items)
             else
               && NoneOpenAt(s.bills, restaurant, table)
               && Opened(s, t, b, restaurant, table, rate, serviceBps) && Relined(t.bills[b], t.bills[b], items))
  }

  ghost predicate Posted(s: State, t: State, restaurant: nat, table: nat, total: nat, rate: nat, serviceBps: nat) {
    && t.payments == s.payments && t.adjustments == s.adjustments && NoneOpenAt(s.bills, restaurant, table)
    && exists b: nat ::
         && OnlyBill(s, t, b) && Opened(s, t, b, restaurant, table, rate, serviceBps)
         && t.bills[b].quoted == total && t.bills[b].due == ApplyRate(total, rate) && t.bills[b].lines == []
  }

  predicate WasOpen(s: State, b: nat, restaurant: nat) {
    b in s.bills && s.bills[b].status == OPEN && s.bills[b].restaurant == restaurant
  }

  /** The lines after an edit: one more at the end, one with another subtotal, or one fewer. */
  predicate EditedLines(was: seq<Line>, now: seq<Line>, edit: Edit) {
    match edit
    case AddLine(line) => |now| == |was| + 1 && now[..|was|] == was && now[|was|] == line
    case SetLine(i, subtotal) =>
      && i < |was| == |now| && now[i] == Line(was[i].vatBps, subtotal)
      && forall k :: 0 <= k < |was| && k != i ==> now[k] == was[k]
    case RemoveLine(i) =>
      && i < |was| == |now| + 1
      && forall k :: 0 <= k < |now| ==> now[k] == if k < i then was[k] else was[k + 1]
  }

  ghost predicate Edited(s: State, t: State, restaurant: nat, b: nat, edit: Edit) {
    && t.payments == s.payments && t.adjustments == s.adjustments
    && WasOpen(s, b, restaurant) && OnlyBill(s, t, b)
    && EditedLines(s.bills[b].lines, t.bills[b].lines, edit) && Relined(s.bills[b], t.bills[b], t.bills[b].lines)
  }

  ghost predicate PaidIn(s: State, t: State, restaurant: nat, b: nat, amount: int) {
    && amount > 0 && t.payments == s.payments + [Payment(restaurant, b, amount)] && t.adjustments == s.adjustments
    && WasOpen(s, b, restaurant) && OnlyBill(s, t, b)
    && var was, now := s.bills[b], t.bills[b];
       && now.paid == was.paid + amount <= was.due
       && now.status == (if was.paid + amount == was.due then CLOSED else OPEN)
       && now == was.(paid := now.paid, status := now.status)
  }

  ghost predicate SettledUp(s: State, t: State, restaurant: nat, b: nat) {
    && t.payments == s.payments && WasOpen(s, b, restaurant) && OnlyBill(s, t, b)
    && t.bills[b] == s.bills[b].(status := CLOSED)
    && var short := s.bills[b].due - s.bills[b].paid;
       && short >= 0 && b !in s.adjustments
       && t.adjustments == if short > 0 then s.adjustments[b := short] else s.adjustments
  }

  ghost predicate Voided(s: State, t: State, restaurant: nat, b: nat) {
    && t.payments == s.payments && t.adjustments == s.adjustments
    && WasOpen(s, b, restaurant) && OnlyBill(s, t, b)
    && s.bills[b].paid == 0 && t.bills[b] == s.bills[b].(status := VOID)
  }

  /** What the tables gained by a request. */
  ghost predicate Gained(s: State, t: State, q: Request) {
    match q
    case PostBill(r, table, total, rate, service) => Posted(s, t, r, table, total, rate, service)
    case PlaceOrder(r, table, items, rate, service) => Ordered(s, t, r, table, items, rate, service)
    case EditBill(r, b, edit) => Edited(s, t, r, b, edit)
    case SettleBill(r, b) => SettledUp(s, t, r, b)
    case VoidBill(r, b) => Voided(s, t, r, b)
    case PayBill(r, b, amount) => PaidIn(s, t, r, b, amount)
  }

  lemma OrderGains(s: State, q: Request, w: Write)
    requires q.PlaceOrder? && Asked(q, w)
    requires if w.isNew then w.bill !in s.bills && w.was == NewBill(q) && NoneOpenAt(s.bills, q.restaurant, q.table)
             else IsOpenAt(s.bills, w.bill, q.restaurant, q.table) && s.bills[w.bill] == w.was
    ensures Gained(s, Commit(s, w), q)
  {
    hide Quote, ApplyRate, NoneOpenAt;
    var t := Commit(s, w);
    assert OnlyBill(s, t, w.bill) && IsOpenAt(t.bills, w.bill, q.restaurant, q.table);
    if w.isNew {
      assert [] + q.items == q.items;
      assert Opened(s, t, w.bill, q.restaurant, q.table, q.rate, q.serviceBps);
      assert Relined(t.bills[w.bill], t.bills[w.bill], q.items);
    } else {
      assert Relined(s.bills[w.bill], t.bills[w.bill], s.bills[w.bill].lines + q.items);
    }
  }

  lemma PostGains(s: State, q: Request, w: Write)
    requires q.PostBill? && Asked(q, w) && w.bill !in s.bills && NoneOpenAt(s.bills, q.restaurant, q.table)
    ensures Gained(s, Commit(s, w), q)
  {
    hide Quote, ApplyRate, NoneOpenAt;
    assert OnlyBill(s, Commit(s, w), w.bill);
    assert Opened(s, Commit(s, w), w.bill, q.restaurant, q.table, q.rate, q.serviceBps);
  }

  lemma RowGains(s: State, q: Request, w: Write)
    requires (q.EditBill? || q.SettleBill? || q.PayBill?) && Asked(q, w) && !w.isNew && w.bill == q.bill
    requires WasOpen(s, w.bill, q.restaurant) && s.bills[w.bill] == w.was && w.bill !in s.adjustments
    requires w.was.paid <= w.was.due && (q.PayBill? ==> w.now.restaurant == q.restaurant)
    ensures Gained(s, Commit(s, w), q)
  {
    hide Quote, ApplyRate;
    assert OnlyBill(s, Commit(s, w), w.bill);
  }

  lemma PreparedGains(s: State, p: nat, q: Request, w: Write)
    requires Inv(s) && p in s.procs && s.procs[p] == Prepared(q, w)
    ensures Gained(s, Commit(s, w), q)
  {
    hide Gained, Quote, ApplyRate, Asked;
    assert ProcOk(s, p);
    PreparedIsCommittable(s, p, q, w);
    if !w.isNew {
      assert BillOk(s, w.bill);
    }
    if q.PlaceOrder? {
      OrderGains(s, q, w);
    } else if q.PostBill? {
      NewIsPosted(q, w);
      PostGains(s, q, w);
    } else {
      OldIsAsked(q, w);
      RowGains(s, q, w);
    }
  }

  lemma NewIsPosted(q: Request, w: Write)
    requires q.PostBill? && Asked(q, w)
    ensures w.isNew
  {
  }

  lemma OldIsAsked(q: Request, w: Write)
    requires !Opener(q) && Asked(q, w)
    ensures !q.VoidBill?
  {
  }

  /**
   * In every reachable state and for every event that accepts a request: the
   * tables gained exactly what was asked for.
   */
  lemma AcceptedIsGained(s: State, e: Event)
    requires Reachable(s) && Accepts(s, e)
    ensures Gained(s, Exec(s, e), s.procs[e.p].q)
  {
    hide Inv, Gained, LockTable, LookForOpen, InsertBill, LockBill, WriteStatements, TryVoid, Commit, Reachable;
    ReachableInv(s);
    if !Writes(s, e) {
      OnlyWritersAccept(s, e);
    } else if s.procs[e.p].Prepared? {
      var w := s.procs[e.p].w;
      PreparedGains(s, e.p, s.procs[e.p].q, w);
      FinishingGains(s, Commit(s, w), Exec(s, e), s.procs[e.p].q);
    } else {
      VoidersVoid(s, e.p, s.procs[e.p].q);
      VoidGains(s, e.p, s.procs[e.p].q);
    }
  }

  lemma FinishingGains(s: State, m: State, t: State, q: Request)
    requires Gained(s, m, q) && SameData(m, t)
    ensures Gained(s, t, q)
  {
    hide NoneOpenAt, Relined, Opened, Quote, ApplyRate, EditedLines;
    match q {
      case PostBill(r, table, total, rate, service) =>
        var b: nat :| OnlyBill(s, m, b) && Opened(s, m, b, r, table, rate, service)
                   && m.bills[b].quoted == total && m.bills[b].due == ApplyRate(total, rate) && m.bills[b].lines == [];
        SameOpened(s, m, t, b, r, table, rate, service);
        assert OnlyBill(s, t, b);
      case PlaceOrder(r, table, items, rate, service) =>
        var b: nat :|
          && OnlyBill(s, m, b) && IsOpenAt(m.bills, b, r, table)
          && (if b in s.bills then
                IsOpenAt(s.bills, b, r, table) && Relined(s.bills[b], m.bills[b], s.bills[b].lines + items)
              else
                && NoneOpenAt(s.bills, r, table)
                && Opened(s, m, b, r, table, rate, service) && Relined(m.bills[b], m.bills[b], items));
        SameOpened(s, m, t, b, r, table, rate, service);
        assert OnlyBill(s, t, b);
      case _ =>
    }
  }

  lemma SameOpened(s: State, m: State, t: State, b: nat, r: nat, table: nat, rate: nat, service: nat)
    requires SameData(m, t)
    ensures Opened(s, m, b, r, table, rate, service) == Opened(s, t, b, r, table, rate, service)
  {
  }

  lemma VoidGains(s: State, p: nat, q: Request)
    requires q.VoidBill? && p in s.procs && s.procs[p] == Voiding(q) && TryVoid(s, p, q).procs[p] == Done(q, Accepted)
    ensures Gained(s, TryVoid(s, p, q), q)
  {
    assert OnlyBill(s, TryVoid(s, p, q), q.bill);
  }

  lemma VoidersVoid(s: State, p: nat, q: Request)
    requires Inv(s) && p in s.procs && s.procs[p] == Voiding(q)
    ensures q.VoidBill?
  {
    hide Books, OneOpen;
    assert ProcOk(s, p);
  }

  // ---- Why a request is refused --------------------------------------------

  /** What the lines would come to in bolívares. */
  function Owed(row: Bill, lines: seq<Line>): nat { ApplyRate(Quote(lines, row.serviceBps), row.rate) }

  predicate Itemised(row: Bill) { row.lines != [] || row.quoted == 0 }

  /** The reason for which the row, as locked, cannot be given what is asked; none if it can. */
  ghost function WhyNot(q: Request, row: Bill): Option<Refusal>
    requires !Opener(q) || q.PlaceOrder?
  {
    match q
    case PlaceOrder(_, _, items, _, _) =>
      if !Itemised(row) then Some(BillNotItemised)
      else if Owed(row, row.lines + items) < row.paid then Some(TotalBelowAmountPaid)
      else None
    case EditBill(_, _, AddLine(line)) =>
      if !Itemised(row) then Some(BillNotItemised)
      else if Owed(row, row.lines + [line]) < row.paid then Some(TotalBelowAmountPaid)
      else None
    case EditBill(_, _, SetLine(i, subtotal)) =>
      if i >= |row.lines| then Some(LineNotFound)
      else if Owed(row, row.lines[i := Line(row.lines[i].vatBps, subtotal)]) < row.paid then Some(TotalBelowAmountPaid)
      else None
    case EditBill(_, _, RemoveLine(i)) =>
      if i >= |row.lines| then Some(LineNotFound)
      else if Owed(row, row.lines[..i] + row.lines[i + 1..]) < row.paid then Some(TotalBelowAmountPaid)
      else None
    case PayBill(_, _, amount) =>
      if amount <= 0 then Some(InvalidAmount)
      else if amount > row.due - row.paid then Some(PaymentExceedsBalance(row.due - row.paid))
      else None
    case _ => None
  }

  /** With its row locked, or its new row inserted, a handler goes on to commit, unless there is a reason not to. */
  lemma GoesOnUnlessWhyNot(s: State, p: nat, q: Request, b: nat, isNew: bool, row: Bill, id: nat)
    requires Inv(s) && p in s.procs && s.procs[p] == HasBill(q, b, isNew, row)
    ensures (!Opener(q) || q.PlaceOrder?) && !q.VoidBill? && p in Step(s, p, id).procs
    ensures var why, at := WhyNot(q, row), Step(s, p, id).procs[p];
            if why.Some? then at == Done(q, Refused(why.value)) else at.Prepared?
  {
    hide WhyNot, Prepare, Books, OneOpen, Owns, WriteStatements;
    assert ProcOk(s, p);
    OwnsNoAdjustment(s, p, q, b, isNew, row);
    assert Step(s, p, id) == WriteStatements(s, p, q, b, isNew, row);
    PreparesUnlessWhyNot(q, b, isNew, row);
    WritesWhatIsPrepared(s, p, q, b, isNew, row);
  }

  lemma OwnsNoAdjustment(s: State, p: nat, q: Request, b: nat, isNew: bool, row: Bill)
    requires Books(s) && Owns(s, p, q, b, isNew, row)
    ensures b !in s.adjustments
  {
    hide Figures;
    if b in s.bills {
      assert BillOk(s, b);
    }
  }

  lemma WritesWhatIsPrepared(s: State, p: nat, q: Request, b: nat, isNew: bool, row: Bill)
    requires p in s.procs && !q.VoidBill? && !q.PostBill?
    ensures var t, r := WriteStatements(s, p, q, b, isNew, row), Prepare(q, b, isNew, row, b in s.adjustments);
            && p in t.procs
            && (if r.Success? then t.procs[p].Prepared? else t.procs[p] == Done(q, Refused(r.error)))
  {
    hide Prepare, Without;
  }

  lemma PreparesUnlessWhyNot(q: Request, b: nat, isNew: bool, row: Bill)
    requires !q.VoidBill? && !q.PostBill?
    ensures var why, r := WhyNot(q, row), Prepare(q, b, isNew, row, false);
            if why.Some? then r == Failure(why.value) else r.Success?
  {
    hide Quote, ApplyRate;
  }

  /** And what is prepared commits. */
  lemma PreparedCommits(s: State, p: nat, q: Request, w: Write, id: nat)
    requires p in s.procs && s.procs[p] == Prepared(q, w)
    ensures p in Step(s, p, id).procs && Step(s, p, id).procs[p] == Done(q, Accepted)
  {
    hide Commit;
  }

  /** What a handler is told of the tables is true of them as it is told. */
  ghost predicate IsTrue(s: State, at: Proc, why: Refusal) {
    match why
    case TableNotFound => Opener(at.q) && !(at.q.table in s.tables && s.tables[at.q.table] == at.q.restaurant)
    case OpenBillExists => at.q.PostBill? && !NoneOpenAt(s.bills, at.q.restaurant, at.q.table)
    case UniqueViolation => at.q.PlaceOrder? && !NoneOpenAt(s.bills, at.q.restaurant, at.q.table)
    case BillNotFound => at.WantsBill? && !(at.bill in s.bills && s.bills[at.bill].restaurant == at.q.restaurant)
    case BillNotOpen(status) =>
      at.WantsBill? && at.bill in s.bills && s.bills[at.bill].status == status && status != OPEN
    case _ => at.HasBill? && (!Opener(at.q) || at.q.PlaceOrder?) && WhyNot(at.q, at.row) == Some(why)
  }

  lemma StepIsTrue(s: State, p: nat, id: nat, why: Refusal)
    requires Inv(s) && p in s.procs && !s.procs[p].Diagnosing? && !s.procs[p].Done?
    requires Step(s, p, id).procs[p] == Done(s.procs[p].q, Refused(why))
    ensures IsTrue(s, s.procs[p], why)
  {
    hide IsTrue, LockTable, LookForOpen, InsertBill, LockBill, WriteStatements, TryVoid, Commit, Inv, WhyNot;
    match s.procs[p] {
      case WantsTable(q, existing) => TableIsTrue(s, p, q, existing, why);
      case HasTable(q, existing) => LookIsTrue(s, p, q, existing, why);
      case Inserting(q) => InsertIsTrue(s, p, q, id, why);
      case WantsBill(q, b) => BillIsTrue(s, p, q, b, why);
      case HasBill(q, b, isNew, row) =>
        GoesOnUnlessWhyNot(s, p, q, b, isNew, row, id);
        RowIsTrue(s, q, b, isNew, row, why);
      case Voiding(q) => VoidingIsNotRefused(s, p, q);
      case _ =>
    }
  }

  lemma TableIsTrue(s: State, p: nat, q: Request, existing: Option<nat>, why: Refusal)
    requires p in s.procs && s.procs[p] == WantsTable(q, existing)
    requires LockTable(s, p, q, existing).procs[p] == Done(q, Refused(why))
    ensures IsTrue(s, s.procs[p], why)
  {
    hide WhyNot;
  }

  lemma LookIsTrue(s: State, p: nat, q: Request, existing: Option<nat>, why: Refusal)
    requires p in s.procs && s.procs[p] == HasTable(q, existing)
    requires LookForOpen(s, p, q, existing).procs[p] == Done(q, Refused(why))
    ensures IsTrue(s, s.procs[p], why)
  {
    hide WhyNot, NoneOpenAt;
  }

  lemma InsertIsTrue(s: State, p: nat, q: Request, id: nat, why: Refusal)
    requires p in s.procs && s.procs[p] == Inserting(q) && InsertBill(s, p, q, id).procs[p] == Done(q, Refused(why))
    ensures IsTrue(s, s.procs[p], why)
  {
    hide WhyNot, NoneOpenAt, Unused;
  }

  lemma BillIsTrue(s: State, p: nat, q: Request, b: nat, why: Refusal)
    requires p in s.procs && s.procs[p] == WantsBill(q, b) && LockBill(s, p, q, b).procs[p] == Done(q, Refused(why))
    ensures IsTrue(s, s.procs[p], why)
  {
    hide WhyNot;
  }

  lemma RowIsTrue(s: State, q: Request, b: nat, isNew: bool, row: Bill, why: Refusal)
    requires (!Opener(q) || q.PlaceOrder?) && WhyNot(q, row) == Some(why)
    ensures IsTrue(s, HasBill(q, b, isNew, row), why)
  {
    hide WhyNot;
    WhyNotIsOfTheRow(q, row);
  }

  lemma VoidingIsNotRefused(s: State, p: nat, q: Request)
    requires p in s.procs && s.procs[p] == Voiding(q)
    ensures p in TryVoid(s, p, q).procs
    ensures TryVoid(s, p, q).procs[p].Done? ==> TryVoid(s, p, q).procs[p].reply == Accepted
  {
    hide Voidable;
  }

  lemma WhyNotIsOfTheRow(q: Request, row: Bill)
    requires !Opener(q) || q.PlaceOrder?
    ensures var why := WhyNot(q, row);
            why.Some? ==>
              || why.value.BillNotItemised? || why.value.LineNotFound? || why.value.TotalBelowAmountPaid?
              || why.value.InvalidAmount? || why.value.PaymentExceedsBalance?
  {
    hide Owed;
  }

  /**
   * Every refusal is of one of these reasons, and it is true: of the tables, or of
   * the row the handler has locked. The void route's answers are
   * `DiagnosisIsTrue`'s, and a crash is told that it was rolled back.
   */
  lemma RefusalsAreTrue(s: State, p: nat, id: nat, why: Refusal)
    requires Reachable(s) && p in s.procs && !s.procs[p].Diagnosing? && !s.procs[p].Done?
    requires Step(s, p, id).procs[p] == Done(s.procs[p].q, Refused(why))
    ensures IsTrue(s, s.procs[p], why)
  {
    hide Inv, IsTrue, Step, Reachable;
    ReachableInv(s);
    StepIsTrue(s, p, id, why);
  }

  // ---- When a handler waits ------------------------------------------------

  /** What keeps a handler where it is: its table's lock, its bill's lock, or an identifier that is taken. */
  ghost predicate Waits(s: State, at: Proc, id: nat) {
    match at
    case WantsTable(q, _) => Opener(q) && q.table in s.tableLocks
    case WantsBill(_, b) => b in s.billLocks
    case Voiding(q) => q.VoidBill? && q.bill in s.billLocks
    case Inserting(_) => !Unused(s, id)
    case _ => false
  }

  /** A handler that is not done moves on, unless it waits. */
  lemma MovesUnlessWaiting(s: State, p: nat, id: nat)
    requires Reachable(s) && p in s.procs && !s.procs[p].Done?
    ensures Waits(s, s.procs[p], id) || (p in Step(s, p, id).procs && Step(s, p, id).procs[p] != s.procs[p])
  {
    hide Inv, Step, Waits, Reachable;
    ReachableInv(s);
    StepMoves(s, p, id);
  }

  lemma StepMoves(s: State, p: nat, id: nat)
    requires Inv(s) && p in s.procs && !s.procs[p].Done?
    ensures Waits(s, s.procs[p], id) || (p in Step(s, p, id).procs && Step(s, p, id).procs[p] != s.procs[p])
  {
    hide Books, OneOpen, NoneOpenAt, Commit, Owns, Missed, Unused, LockTable, LookForOpen, InsertBill, LockBill,
         WriteStatements, TryVoid, WhyNot;
    assert ProcOk(s, p);
    match s.procs[p] {
      case WantsTable(q, existing) =>
        if q.table !in s.tableLocks {
          TableMoves(s, p, q, existing);
        }
      case HasTable(q, existing) => LookMoves(s, p, q, existing);
      case Inserting(q) =>
        if Unused(s, id) {
          InsertMoves(s, p, q, id);
        }
      case WantsBill(q, b) =>
        if b !in s.billLocks {
          BillMoves(s, p, q, b);
        }
      case HasBill(q, b, isNew, row) => GoesOnUnlessWhyNot(s, p, q, b, isNew, row, id);
      case Voiding(q) =>
        if q.bill !in s.billLocks {
          VoidingMoves(s, p, q);
        }
      case _ =>
    }
  }

  lemma TableMoves(s: State, p: nat, q: Request, existing: Option<nat>)
    requires p in s.procs && Opener(q) && q.table !in s.tableLocks
    ensures var t := LockTable(s, p, q, existing); p in t.procs && t.procs[p] != WantsTable(q, existing)
  {
  }

  lemma LookMoves(s: State, p: nat, q: Request, existing: Option<nat>)
    requires p in s.procs
    ensures var t := LookForOpen(s, p, q, existing); p in t.procs && t.procs[p] != HasTable(q, existing)
  {
    hide NoneOpenAt;
  }

  lemma InsertMoves(s: State, p: nat, q: Request, id: nat)
    requires p in s.procs && Opener(q) && Unused(s, id)
    ensures var t := InsertBill(s, p, q, id); p in t.procs && t.procs[p] != Inserting(q)
  {
    hide NoneOpenAt, Unused;
  }

  lemma BillMoves(s: State, p: nat, q: Request, b: nat)
    requires p in s.procs && b !in s.billLocks
    ensures var t := LockBill(s, p, q, b); p in t.procs && t.procs[p] != WantsBill(q, b)
  {
  }

  lemma VoidingMoves(s: State, p: nat, q: Request)
    requires p in s.procs && q.VoidBill? && q.bill !in s.billLocks
    ensures var t := TryVoid(s, p, q); p in t.procs && t.procs[p] != Voiding(q)
  {
    hide Voidable;
  }

  // ---- Locks are given back ------------------------------------------------

  /** The handlers that are inside a transaction with locks. */
  predicate InTransaction(at: Proc) {
    at.HasTable? || at.Inserting? || at.WantsBill? || at.HasBill? || at.Prepared?
  }

  ghost predicate LocksAreInUse(s: State) {
    && (forall k :: k in s.tableLocks ==> s.tableLocks[k] in s.procs && InTransaction(s.procs[s.tableLocks[k]]))
    && (forall b :: b in s.billLocks ==> s.billLocks[b] in s.procs && InTransaction(s.procs[s.billLocks[b]]))
  }

  /** A statement takes locks for a handler that goes on inside its transaction, or gives up all the handler has. */
  predicate TakesOrReleases(s: State, t: State, p: nat) {
    && p in t.procs && t.procs == s.procs[p := t.procs[p]]
    && (forall k :: k in t.tableLocks ==>
          t.tableLocks[k] == p || (k in s.tableLocks && t.tableLocks[k] == s.tableLocks[k]))
    && (forall b :: b in t.billLocks ==>
          t.billLocks[b] == p || (b in s.billLocks && t.billLocks[b] == s.billLocks[b]))
    && (InTransaction(t.procs[p])
        || (&& (forall k :: k in t.tableLocks ==> t.tableLocks[k] != p)
            && (forall b :: b in t.billLocks ==> t.billLocks[b] != p)))
  }

  lemma UseGoesOn(s: State, t: State, p: nat)
    requires LocksAreInUse(s) && TakesOrReleases(s, t, p)
    ensures LocksAreInUse(t)
  {
  }

  lemma StepTakesOrReleases(s: State, p: nat, id: nat)
    requires LocksAreInUse(s) && p in s.procs
    ensures TakesOrReleases(s, Step(s, p, id), p)
  {
    hide TakesOrReleases, LocksAreInUse, LockTable, LookForOpen, InsertBill, LockBill, WriteStatements, TryVoid, Commit,
         Diagnosis, Finish, Goto;
    match s.procs[p] {
      case WantsTable(q, existing) => TableTakes(s, p, q, existing);
      case HasTable(q, existing) => LookTakes(s, p, q, existing);
      case Inserting(q) => InsertTakes(s, p, q, id);
      case WantsBill(q, b) => BillTakes(s, p, q, b);
      case HasBill(q, b, isNew, row) => WritingTakes(s, p, q, b, isNew, row);
      case Voiding(q) => VoidingTakes(s, p, q);
      case Prepared(q, w) => CommitTakes(s, p, q, w);
      case _ => OutsideTakesNothing(s, p);
    }
  }

  lemma OutsideTakesNothing(s: State, p: nat)
    requires LocksAreInUse(s) && p in s.procs && !InTransaction(s.procs[p])
    ensures TakesOrReleases(s, s, p) && forall at: Proc :: TakesOrReleases(s, Goto(s, p, at), p)
  {
  }

  lemma TableTakes(s: State, p: nat, q: Request, existing: Option<nat>)
    requires LocksAreInUse(s) && p in s.procs && s.procs[p] == WantsTable(q, existing)
    ensures TakesOrReleases(s, LockTable(s, p, q, existing), p)
  {
  }

  lemma LookTakes(s: State, p: nat, q: Request, existing: Option<nat>)
    requires LocksAreInUse(s) && p in s.procs && s.procs[p] == HasTable(q, existing)
    ensures TakesOrReleases(s, LookForOpen(s, p, q, existing), p)
  {
    hide NoneOpenAt;
  }

  lemma InsertTakes(s: State, p: nat, q: Request, id: nat)
    requires LocksAreInUse(s) && p in s.procs && s.procs[p] == Inserting(q)
    ensures TakesOrReleases(s, InsertBill(s, p, q, id), p)
  {
    hide NoneOpenAt, Unused, NewBill;
  }

  lemma BillTakes(s: State, p: nat, q: Request, b: nat)
    requires LocksAreInUse(s) && p in s.procs && s.procs[p] == WantsBill(q, b)
    ensures TakesOrReleases(s, LockBill(s, p, q, b), p)
  {
  }

  lemma WritingTakes(s: State, p: nat, q: Request, b: nat, isNew: bool, row: Bill)
    requires LocksAreInUse(s) && p in s.procs && s.procs[p] == HasBill(q, b, isNew, row)
    ensures TakesOrReleases(s, WriteStatements(s, p, q, b, isNew, row), p)
  {
    hide Prepare;
  }

  lemma VoidingTakes(s: State, p: nat, q: Request)
    requires LocksAreInUse(s) && p in s.procs && s.procs[p] == Voiding(q)
    ensures TakesOrReleases(s, TryVoid(s, p, q), p)
  {
    hide Voidable;
  }

  lemma CommitTakes(s: State, p: nat, q: Request, w: Write)
    requires p in s.procs
    ensures TakesOrReleases(s, Finish(Commit(s, w), p, q, Accepted), p)
  {
  }

  lemma ExecKeepsInUse(s: State, e: Event)
    requires LocksAreInUse(s)
    ensures LocksAreInUse(Exec(s, e))
  {
    hide Step, Start, LocksAreInUse;
    match e {
      case Arrive(p, q) =>
        if p !in s.procs {
          NewcomersTakeNothing(s, p, q);
        }
      case Advance(p, id) =>
        if p in s.procs {
          StepTakesOrReleases(s, p, id);
          UseGoesOn(s, Step(s, p, id), p);
        } else {
          NobodySteps(s, p, id);
        }
      case Crash(p) =>
        if p in s.procs && !s.procs[p].Done? {
          UseGoesOn(s, Finish(s, p, s.procs[p].q, Refused(RolledBack)), p);
        }
    }
  }

  lemma NewcomersTakeNothing(s: State, p: nat, q: Request)
    requires LocksAreInUse(s) && p !in s.procs
    ensures LocksAreInUse(Goto(s, p, Start(q)))
  {
    hide Start;
  }

  /** In every state of every run, whoever has a lock is inside its transaction: nothing stays locked for good. */
  lemma {:induction false} LocksAreGivenBack(tables: map<nat, nat>, es: seq<Event>)
    ensures LocksAreInUse(Run(Empty(tables), es))
  {
    if es != [] {
      hide LocksAreInUse, Exec;
      LocksAreGivenBack(tables, es[..|es| - 1]);
      ExecKeepsInUse(Run(Empty(tables), es[..|es| - 1]), es[|es| - 1]);
    }
  }
}
