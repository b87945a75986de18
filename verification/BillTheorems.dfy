/**
 * What the bill handlers promise, over every run.
 */
module BillTheorems {
  import opened Wrappers
  import opened Money
  import opened BillState
  import opened BillSafety

  /** Any moment any set of handlers can reach. */
  ghost predicate Reachable(s: State) {
    exists tables, es: seq<Event> :: s == Run(Empty(tables), es)
  }

  lemma ReachableInv(s: State)
    requires Reachable(s)
    ensures Inv(s)
  {
    hide Inv;
    var tables, es: seq<Event> :| s == Run(Empty(tables), es);
    RunKeeps(tables, es);
  }

  // ---- Money ---------------------------------------------------------------

  /**
   * The cache of a bill is its ledger; nothing is overpaid; a closed bill is
   * paid but for what was forgiven; a void bill never took money.
   */
  lemma MoneyIsConserved(s: State, b: nat)
    requires Reachable(s) && b in s.bills
    ensures s.bills[b].paid == PaidOn(s.payments, b) <= s.bills[b].due
    ensures s.bills[b].status == CLOSED ==> s.bills[b].paid + Forgiven(s, b) == s.bills[b].due
    ensures s.bills[b].status == VOID ==> PaidOn(s.payments, b) == 0
    ensures b in s.adjustments ==> s.bills[b].status == CLOSED && s.adjustments[b] > 0
  {
    ReachableInv(s);
    assert BillOk(s, b);
  }

  /** However its lines were changed and by how many at once, an itemised bill comes to its lines. */
  lemma TotalsFollowTheLines(s: State, b: nat)
    requires Reachable(s) && b in s.bills
    ensures s.bills[b].due == ApplyRate(s.bills[b].quoted, s.bills[b].rate)
    ensures s.bills[b].lines != [] ==> s.bills[b].quoted == Quote(s.bills[b].lines, s.bills[b].serviceBps)
  {
    ReachableInv(s);
    assert BillOk(s, b);
  }

  /** Settling closes a bill once: its adjustment is never a second one. */
  lemma SettleWritesTheOnlyAdjustment(s: State, p: nat, q: Request, b: nat, row: Bill)
    requires Reachable(s) && p in s.procs && s.procs[p] == HasBill(q, b, false, row) && q.SettleBill?
    ensures b !in s.adjustments && Prepare(q, b, false, row, b in s.adjustments).Success?
    ensures b in s.bills && row == s.bills[b]
  {
    ReachableInv(s);
    assert ProcOk(s, p);
    assert BillOk(s, b);
  }

  // ---- Forward only --------------------------------------------------------

  /** Between two moments: no bill is lost, money only comes in, and what is no longer open stays as it is. */
  ghost predicate Onward(s: State, t: State) {
    && (forall b :: b in s.bills ==> b in t.bills && Advances(s.bills[b], t.bills[b]))
    && s.payments <= t.payments
    && (forall b :: b in s.adjustments ==> b in t.adjustments && t.adjustments[b] == s.adjustments[b])
  }

  /** Only a COMMIT and the voiding statement write. */
  predicate Writes(s: State, e: Event) {
    e.Advance? && e.p in s.procs && (s.procs[e.p].Prepared? || s.procs[e.p].Voiding?)
  }

  lemma OthersOnlyRead(s: State, e: Event)
    requires !Writes(s, e)
    ensures SameData(s, Exec(s, e))
  {
    hide Step, Start;
  }

  lemma StepIsOnward(s: State, e: Event)
    requires Inv(s)
    ensures Onward(s, Exec(s, e))
  {
    hide Inv, SameData, LockTable, LookForOpen, InsertBill, LockBill, WriteStatements, Commit, TryVoid;
    if !Writes(s, e) {
      OthersOnlyRead(s, e);
      SameIsOnward(s, Exec(s, e));
    } else if s.procs[e.p].Prepared? {
      PreparedIsCommittable(s, e.p, s.procs[e.p].q, s.procs[e.p].w);
      CommitIsOnward(s, s.procs[e.p].w);
    } else {
      VoidIsOnward(s, e.p, s.procs[e.p].q);
    }
  }

  lemma SameIsOnward(s: State, t: State)
    requires SameData(s, t)
    ensures Onward(s, t)
  {
  }

  lemma VoidIsOnward(s: State, p: nat, q: Request)
    ensures Onward(s, TryVoid(s, p, q))
  {
    var t := TryVoid(s, p, q);
    if SameData(s, t) {
      SameIsOnward(s, t);
    } else {
      assert t.bills == s.bills[q.bill := s.bills[q.bill].(status := VOID)];
      assert Advances(s.bills[q.bill], t.bills[q.bill]);
      OneRowIsOnward(s, t, q.bill);
    }
  }

  lemma OneRowIsOnward(s: State, t: State, b: nat)
    requires b in s.bills && b in t.bills && t.bills == s.bills[b := t.bills[b]] && Advances(s.bills[b], t.bills[b])
    requires t.payments == s.payments && t.adjustments == s.adjustments
    ensures Onward(s, t)
  {
  }

  lemma CommitIsOnward(s: State, w: Write)
    requires Inv(s) && Committable(s, w)
    ensures Onward(s, Commit(s, w))
  {
    CommitAdvances(s, w);
    assert w.adjustment.Some? && !w.isNew ==> BillOk(s, w.bill);
  }

  lemma {:induction false} RunIsOnward(s: State, es: seq<Event>)
    requires Inv(s)
    ensures Inv(Run(s, es)) && Onward(s, Run(s, es))
  {
    if es != [] {
      hide Inv;
      var m := Run(s, es[..|es| - 1]);
      RunIsOnward(s, es[..|es| - 1]);
      StepIsOnward(m, es[|es| - 1]);
      ExecKeeps(m, es[|es| - 1]);
      OnwardTwice(s, m, Run(s, es));
    }
  }

  lemma OnwardTwice(s: State, m: State, t: State)
    requires Onward(s, m) && Onward(m, t)
    ensures Onward(s, t)
  {
    forall b | b in s.bills ensures b in t.bills && Advances(s.bills[b], t.bills[b]) {
      assert b in m.bills && Advances(s.bills[b], m.bills[b]);
    }
  }

  /** A closed or void bill is never touched again: not its figures, not its money, not its adjustment. */
  lemma SettledIsFinal(s: State, es: seq<Event>, b: nat)
    requires Reachable(s) && b in s.bills && s.bills[b].status != OPEN
    ensures b in Run(s, es).bills && Run(s, es).bills[b] == s.bills[b]
    ensures PaidOn(Run(s, es).payments, b) == PaidOn(s.payments, b)
    ensures Forgiven(Run(s, es), b) == Forgiven(s, b)
  {
    ReachableInv(s);
    RunIsOnward(s, es);
    assert BillOk(s, b) && BillOk(Run(s, es), b);
  }

  // ---- One open bill -------------------------------------------------------

  /** A table has one current bill, whoever opens it and however they interleave. */
  lemma OneOpenBillPerTable(s: State, a: nat, b: nat)
    requires Reachable(s) && a in s.bills && b in s.bills && s.bills[a].status == s.bills[b].status == OPEN
    requires s.bills[a].restaurant == s.bills[b].restaurant && s.bills[a].table == s.bills[b].table
    ensures a == b
  {
    ReachableInv(s);
    assert IsOpenAt(s.bills, a, s.bills[a].restaurant, s.bills[a].table);
    assert IsOpenAt(s.bills, b, s.bills[a].restaurant, s.bills[a].table);
  }

  /** POST looks under the table lock, so its insert never meets the unique index. */
  lemma PostNeverConflicts(s: State, p: nat, q: Request, id: nat)
    requires Reachable(s) && p in s.procs && s.procs[p] == Inserting(q) && q.PostBill? && Unused(s, id)
    ensures NoneOpenAt(s.bills, q.restaurant, q.table)
    ensures Step(s, p, id).procs[p] == Prepared(q, Write(id, true, NewBill(q), NewBill(q), None, None))
  {
    ReachableInv(s);
    assert ProcOk(s, p);
  }

  /** The state after the first `n` events. */
  ghost function At(tables: map<nat, nat>, es: seq<Event>, n: nat): State
    requires n <= |es|
  {
    Run(Empty(tables), es[..n])
  }

  lemma NextState(tables: map<nat, nat>, es: seq<Event>, n: nat)
    requires n < |es|
    ensures At(tables, es, n + 1) == Exec(At(tables, es, n), es[n])
    ensures Inv(At(tables, es, n))
  {
    hide Exec, Inv;
    assert es[..n + 1][..n] == es[..n];
    RunKeeps(tables, es[..n]);
  }

  /** Event `i` is order `p` looking for the table's bill, and finding none. */
  ghost predicate LooksInVain(tables: map<nat, nat>, es: seq<Event>, i: nat, p: nat, q: Request) {
    && i < |es| && es[i].Advance? && es[i].p == p && q.PlaceOrder?
    && var s := At(tables, es, i);
       p in s.procs && s.procs[p] == Reading(q) && NoneOpenAt(s.bills, q.restaurant, q.table)
  }

  /** An order that is going to open a bill. */
  predicate FoundNone(at: Proc, q: Request) {
    q.PlaceOrder? && (at == WantsTable(q, None) || at == HasTable(q, None) || at == Inserting(q))
  }

  lemma FoundNoneFrom(s: State, e: Event, p: nat, q: Request)
    requires p in Exec(s, e).procs && FoundNone(Exec(s, e).procs[p], q)
    ensures p in s.procs
    ensures FoundNone(s.procs[p], q)
         || (e.Advance? && e.p == p && s.procs[p] == Reading(q) && NoneOpenAt(s.bills, q.restaurant, q.table))
  {
    hide Step;
    if e.Advance? && e.p == p && p in s.procs {
      StepFindsNone(s, p, e.id, q);
    } else if e.Advance? && e.p in s.procs {
      assert Moved(s, Step(s, e.p, e.id), e.p);
    } else if e.Advance? {
      NobodySteps(s, e.p, e.id);
    }
  }

  lemma NobodySteps(s: State, p: nat, id: nat)
    requires p !in s.procs
    ensures Step(s, p, id) == s
  {
  }

  lemma StepFindsNone(s: State, p: nat, id: nat, q: Request)
    requires p in s.procs && FoundNone(Step(s, p, id).procs[p], q)
    ensures FoundNone(s.procs[p], q)
         || (s.procs[p] == Reading(q) && NoneOpenAt(s.bills, q.restaurant, q.table))
  {
    hide NoneOpenAt, LockTable, LookForOpen, InsertBill, LockBill, WriteStatements, TryVoid, Commit, Diagnosis;
    match s.procs[p] {
      case Reading(_) =>
      case WantsTable(u, existing) => TableFindsNone(s, p, u, existing, q);
      case HasTable(u, existing) => LookFindsNone(s, p, u, existing, q);
      case Inserting(u) => InsertFindsNone(s, p, u, id, q);
      case WantsBill(u, b) => BillFindsNone(s, p, u, b, q);
      case HasBill(u, b, isNew, row) => WritingFindsNone(s, p, u, b, isNew, row, q);
      case Prepared(_, _) =>
      case Voiding(u) => VoidingFindsNone(s, p, u, q);
      case Diagnosing(_, _) =>
      case Done(_, _) =>
    }
  }

  lemma TableFindsNone(s: State, p: nat, u: Request, existing: Option<nat>, q: Request)
    requires p in s.procs && s.procs[p] == WantsTable(u, existing)
    requires FoundNone(LockTable(s, p, u, existing).procs[p], q)
    ensures FoundNone(s.procs[p], q)
  {
    hide Without;
  }

  lemma LookFindsNone(s: State, p: nat, u: Request, existing: Option<nat>, q: Request)
    requires p in s.procs && s.procs[p] == HasTable(u, existing)
    requires FoundNone(LookForOpen(s, p, u, existing).procs[p], q)
    ensures FoundNone(s.procs[p], q)
  {
    hide Without, NoneOpenAt;
  }

  lemma InsertFindsNone(s: State, p: nat, u: Request, id: nat, q: Request)
    requires p in s.procs && s.procs[p] == Inserting(u) && FoundNone(InsertBill(s, p, u, id).procs[p], q)
    ensures FoundNone(s.procs[p], q)
  {
    hide Without, NoneOpenAt, Unused, NewBill;
  }

  lemma BillFindsNone(s: State, p: nat, u: Request, b: nat, q: Request)
    requires p in s.procs && s.procs[p] == WantsBill(u, b)
    ensures !FoundNone(LockBill(s, p, u, b).procs[p], q)
  {
    hide Without;
  }

  lemma WritingFindsNone(s: State, p: nat, u: Request, b: nat, isNew: bool, row: Bill, q: Request)
    requires p in s.procs && s.procs[p] == HasBill(u, b, isNew, row)
    ensures !FoundNone(WriteStatements(s, p, u, b, isNew, row).procs[p], q)
  {
    hide Without, Prepare;
  }

  lemma VoidingFindsNone(s: State, p: nat, u: Request, q: Request)
    requires p in s.procs && s.procs[p] == Voiding(u)
    ensures p in TryVoid(s, p, u).procs && !FoundNone(TryVoid(s, p, u).procs[p], q)
  {
    hide Voidable, FoundNone;
    var at := TryVoid(s, p, u).procs[p];
    assert at.Voiding? || at.Diagnosing? || at.Done?;
    NoOrderThere(at, q);
  }

  lemma NoOrderThere(at: Proc, q: Request)
    requires at.Voiding? || at.Diagnosing? || at.Done?
    ensures !FoundNone(at, q)
  {
  }

  lemma {:induction false} OrdersLook(tables: map<nat, nat>, es: seq<Event>, n: nat, p: nat, q: Request)
    requires n <= |es| && p in At(tables, es, n).procs && FoundNone(At(tables, es, n).procs[p], q)
    ensures exists i: nat :: i < n && LooksInVain(tables, es, i, p, q)
  {
    hide Run, Exec, Inv, NoneOpenAt;
    if n == 0 {
      NothingRan(tables, es);
    } else {
      NextState(tables, es, n - 1);
      FoundNoneFrom(At(tables, es, n - 1), es[n - 1], p, q);
      if FoundNone(At(tables, es, n - 1).procs[p], q) {
        OrdersLook(tables, es, n - 1, p, q);
      } else {
        assert LooksInVain(tables, es, n - 1, p, q);
      }
    }
  }

  lemma NothingRan(tables: map<nat, nat>, es: seq<Event>)
    ensures At(tables, es, 0) == Empty(tables)
  {
  }

  lemma {:induction false} BetweenIsOnward(tables: map<nat, nat>, es: seq<Event>, i: nat, j: nat)
    requires i <= j <= |es|
    ensures Onward(At(tables, es, i), At(tables, es, j))
  {
    hide At, Exec, Inv, Onward;
    if i == j {
      SameIsOnward(At(tables, es, i), At(tables, es, i));
    } else {
      BetweenIsOnward(tables, es, i, j - 1);
      NextState(tables, es, j - 1);
      StepIsOnward(At(tables, es, j - 1), es[j - 1]);
      OnwardTwice(At(tables, es, i), At(tables, es, j - 1), At(tables, es, j));
    }
  }

  /** Some event from `i` up to `j` opened bill `b`. */
  ghost predicate OpenedBetween(tables: map<nat, nat>, es: seq<Event>, i: nat, j: nat, b: nat)
    requires j <= |es|
  {
    exists t: nat :: i <= t < j && b !in At(tables, es, t).bills && b in At(tables, es, t + 1).bills
  }

  lemma {:induction false} NewIsOpenedBetween(tables: map<nat, nat>, es: seq<Event>, i: nat, j: nat, b: nat)
    requires i <= j <= |es| && b !in At(tables, es, i).bills && b in At(tables, es, j).bills
    ensures OpenedBetween(tables, es, i, j, b)
  {
    hide At;
    if b in At(tables, es, j - 1).bills {
      NewIsOpenedBetween(tables, es, i, j - 1, b);
    }
  }

  /** A bill of the order's table was opened after `i` and is still open at `j`. */
  ghost predicate Overtaken(tables: map<nat, nat>, es: seq<Event>, i: nat, j: nat, q: Request)
    requires j <= |es| && q.PlaceOrder?
  {
    exists b: nat :: IsOpenAt(At(tables, es, j).bills, b, q.restaurant, q.table) && OpenedBetween(tables, es, i, j, b)
  }

  lemma NotThereBefore(s: State, t: State, b: nat, q: Request)
    requires Onward(s, t) && q.PlaceOrder? && NoneOpenAt(s.bills, q.restaurant, q.table)
    requires IsOpenAt(t.bills, b, q.restaurant, q.table)
    ensures b !in s.bills && b in t.bills
  {
    assert !IsOpenAt(s.bills, b, q.restaurant, q.table);
  }

  lemma OpenMeansOvertaken(tables: map<nat, nat>, es: seq<Event>, i: nat, j: nat, p: nat, q: Request)
    requires i < j <= |es| && LooksInVain(tables, es, i, p, q)
    ensures Overtaken(tables, es, i, j, q) <==> !NoneOpenAt(At(tables, es, j).bills, q.restaurant, q.table)
  {
    hide At, OpenedBetween;
    if !NoneOpenAt(At(tables, es, j).bills, q.restaurant, q.table) {
      var b :| IsOpenAt(At(tables, es, j).bills, b, q.restaurant, q.table);
      BetweenIsOnward(tables, es, i, j);
      NotThereBefore(At(tables, es, i), At(tables, es, j), b, q);
      NewIsOpenedBetween(tables, es, i, j, b);
    }
  }

  /**
   * An order's insert fails on the index exactly when a bill of its table was
   * opened after the event in which it looked and is still open.
   */
  lemma OrderConflictsExactlyWhenOvertaken(tables: map<nat, nat>, es: seq<Event>, j: nat, p: nat, q: Request)
    requires j < |es| && es[j].Advance? && es[j].p == p && q.PlaceOrder?
    requires var s := At(tables, es, j); p in s.procs && s.procs[p] == Inserting(q) && Unused(s, es[j].id)
    ensures SameData(At(tables, es, j), At(tables, es, j + 1)) && p in At(tables, es, j + 1).procs
    ensures exists i: nat ::
              && i < j && LooksInVain(tables, es, i, p, q)
              && (At(tables, es, j + 1).procs[p] == Done(q, Refused(UniqueViolation))
                  <==> Overtaken(tables, es, i, j, q))
  {
    hide At, Inv, Overtaken, Unused;
    OrdersLook(tables, es, j, p, q);
    var i: nat :| i < j && LooksInVain(tables, es, i, p, q);
    NextState(tables, es, j);
    OpenMeansOvertaken(tables, es, i, j, p, q);
    InsertsOrFails(At(tables, es, j), p, q, es[j].id);
  }

  lemma InsertsOrFails(s: State, p: nat, q: Request, id: nat)
    requires p in s.procs && s.procs[p] == Inserting(q) && q.PlaceOrder? && Unused(s, id)
    ensures SameData(s, Step(s, p, id)) && p in Step(s, p, id).procs
    ensures Step(s, p, id).procs[p] == Done(q, Refused(UniqueViolation))
       <==> !NoneOpenAt(s.bills, q.restaurant, q.table)
  {
    hide Unused, NoneOpenAt;
  }

  /** Two inserts for one table are never in flight together, so neither waits for the other's outcome. */
  lemma OneInsertInFlight(s: State, p: nat, o: nat, q: Request, u: Request, b: nat, c: nat, x: Bill, y: Bill)
    requires Reachable(s) && p in s.procs && o in s.procs
    requires s.procs[p] == HasBill(q, b, true, x) && s.procs[o] == HasBill(u, c, true, y)
    requires Opener(q) && Opener(u) && q.table == u.table
    ensures p == o
  {
    ReachableInv(s);
    assert ProcOk(s, p) && ProcOk(s, o);
  }

  /** A POST for a free table, run by itself: the bill is there and the table is free again. */
  lemma PostAlone(s: State, p: nat, q: Request, id: nat) returns (es: seq<Event>)
    requires q.PostBill? && p !in s.procs && Unused(s, id) && NoneOpenAt(s.bills, q.restaurant, q.table)
    requires q.table in s.tables && s.tables[q.table] == q.restaurant && q.table !in s.tableLocks
    ensures var t := Run(s, es);
            t.tables == s.tables && t.bills == s.bills[id := NewBill(q)] && q.table !in t.tableLocks
            && t.procs == s.procs[p := Done(q, Accepted)]
  {
    hide NewBill, Step, Run, NoneOpenAt;
    var s1 := Goto(s, p, WantsTable(q, None));
    var first := [Arrive(p, q)];
    RunOf(s, first, [s, s1]);
    var second := TakeAndLook(s1, p, q);
    var s3 := Run(s1, second);
    var third := InsertAndCommit(s3, p, q, id);
    RunAppend(s, first, second);
    RunAppend(s, first + second, third);
    es := first + second + third;
    assert s3.procs[p := Done(q, Accepted)] == s.procs[p := Done(q, Accepted)];
  }

  /** From the door to the insert. */
  lemma TakeAndLook(s: State, p: nat, q: Request) returns (es: seq<Event>)
    requires p in s.procs && s.procs[p] == WantsTable(q, None) && Opener(q)
    requires q.table in s.tables && s.tables[q.table] == q.restaurant && q.table !in s.tableLocks
    requires q.PostBill? ==> NoneOpenAt(s.bills, q.restaurant, q.table)
    ensures Run(s, es) == Goto(s, p, Inserting(q)).(tableLocks := s.tableLocks[q.table := p])
  {
    hide Step;
    var s1 := Goto(s, p, HasTable(q, None)).(tableLocks := s.tableLocks[q.table := p]);
    var s2 := Goto(s1, p, Inserting(q));
    TakesTable(s, p, q, None);
    LooksUnderLock(s1, p, q);
    es := [Advance(p, 0), Advance(p, 0)];
    RunOf(s, es, [s, s1, s2]);
    assert s2.procs == s.procs[p := Inserting(q)];
  }

  lemma InsertAndCommit(s: State, p: nat, q: Request, id: nat) returns (es: seq<Event>)
    requires p in s.procs && s.procs[p] == Inserting(q) && q.PostBill? && Unused(s, id)
    requires NoneOpenAt(s.bills, q.restaurant, q.table) && q.table in s.tableLocks && s.tableLocks[q.table] == p
    ensures var t := Run(s, es);
            t.tables == s.tables && t.bills == s.bills[id := NewBill(q)] && q.table !in t.tableLocks
            && t.procs == s.procs[p := Done(q, Accepted)]
  {
    hide NewBill, Step;
    var w := Write(id, true, NewBill(q), NewBill(q), None, None);
    var s1 := Goto(s, p, Prepared(q, w));
    var s2 := Finish(Commit(s1, w), p, q, Accepted);
    Inserts(s, p, q, id);
    Commits(s1, p, q, w);
    es := [Advance(p, id), Advance(p, 0)];
    RunOf(s, es, [s, s1, s2]);
    assert s2.procs == s.procs[p := Done(q, Accepted)];
  }

  /** An order that looked before the table had a bill loses once it does, and takes nothing with it. */
  lemma OvertakenOrderLoses(s: State, p: nat, q: Request, id: nat) returns (es: seq<Event>)
    requires q.PlaceOrder? && p in s.procs && s.procs[p] == WantsTable(q, None) && Unused(s, id)
    requires !NoneOpenAt(s.bills, q.restaurant, q.table)
    requires q.table in s.tables && s.tables[q.table] == q.restaurant && q.table !in s.tableLocks
    ensures Run(s, es).procs == s.procs[p := Done(q, Refused(UniqueViolation))]
    ensures SameData(s, Run(s, es)) && q.table !in Run(s, es).tableLocks
  {
    hide NewBill, Step;
    var first := TakeAndLook(s, p, q);
    var s2 := Run(s, first);
    IsOvertaken(s2, p, q, id);
    var second := [Advance(p, id)];
    RunOf(s2, second, [s2, Finish(s2, p, q, Refused(UniqueViolation))]);
    RunAppend(s, first, second);
    es := first + second;
    assert Run(s, es).procs == s.procs[p := Done(q, Refused(UniqueViolation))];
  }

  /**
   * The order route reads before its transaction and does not look again: here
   * it loses to a POST on the index, and leaves neither bill nor lines behind.
   */
  lemma OrderCanLose() returns (es: seq<Event>, s: State)
    ensures s == Run(Empty(map[7 := 1]), es)
    ensures 20 in s.procs && s.procs[20].Done? && s.procs[20].reply == Refused(UniqueViolation)
    ensures s.bills.Keys == {100} && s.bills[100].lines == []
  {
    hide Step, Run;
    var post, order := PostBill(1, 7, 500, RATE_SCALE, 0), PlaceOrder(1, 7, [Line(1600, 300)], RATE_SCALE, 0);
    var s0 := Empty(map[7 := 1]);
    var s1 := Goto(s0, 20, Reading(order));
    var s2 := Goto(s1, 20, WantsTable(order, None));
    LooksAround(s1, 20, order);
    var first := [Arrive(20, order), Advance(20, 0)];
    RunOf(s0, first, [s0, s1, s2]);
    var second := PostAlone(s2, 10, post, 100);
    var s3 := Run(s2, second);
    NewBillFigures(post);
    assert IsOpenAt(s3.bills, 100, 1, 7);
    var third := OvertakenOrderLoses(s3, 20, order, 200);
    s := Run(s3, third);
    es := first + second + third;
    RunAppend(s0, first, second);
    RunAppend(s0, first + second, third);
  }

  lemma {:induction false} RunAppend(s: State, a: seq<Event>, b: seq<Event>)
    ensures Run(s, a + b) == Run(Run(s, a), b)
  {
    if b == [] {
      assert a + b == a;
    } else {
      assert (a + b)[..|a + b| - 1] == a + b[..|b| - 1];
      RunAppend(s, a, b[..|b| - 1]);
    }
  }

  lemma LooksAround(s: State, p: nat, q: Request)
    requires p in s.procs && s.procs[p] == Reading(q) && Opener(q) && NoneOpenAt(s.bills, q.restaurant, q.table)
    ensures Step(s, p, 0) == Goto(s, p, WantsTable(q, None))
  {
  }

  lemma TakesTable(s: State, p: nat, q: Request, existing: Option<nat>)
    requires p in s.procs && s.procs[p] == WantsTable(q, existing) && Opener(q)
    requires q.table in s.tables && s.tables[q.table] == q.restaurant && q.table !in s.tableLocks
    ensures Step(s, p, 0) == Goto(s, p, HasTable(q, existing)).(tableLocks := s.tableLocks[q.table := p])
  {
  }

  lemma LooksUnderLock(s: State, p: nat, q: Request)
    requires p in s.procs && s.procs[p] == HasTable(q, None) && Opener(q)
    requires q.PostBill? ==> NoneOpenAt(s.bills, q.restaurant, q.table)
    ensures Step(s, p, 0) == Goto(s, p, Inserting(q))
  {
  }

  lemma Commits(s: State, p: nat, q: Request, w: Write)
    requires p in s.procs && s.procs[p] == Prepared(q, w)
    ensures Step(s, p, 0) == Finish(Commit(s, w), p, q, Accepted)
  {
  }

  lemma IsOvertaken(s: State, p: nat, q: Request, id: nat)
    requires p in s.procs && s.procs[p] == Inserting(q) && q.PlaceOrder? && Unused(s, id)
    requires !NoneOpenAt(s.bills, q.restaurant, q.table)
    ensures Step(s, p, id) == Finish(s, p, q, Refused(UniqueViolation))
  {
  }

  lemma Inserts(s: State, p: nat, q: Request, id: nat)
    requires p in s.procs && s.procs[p] == Inserting(q) && q.PostBill? && Unused(s, id)
    requires NoneOpenAt(s.bills, q.restaurant, q.table)
    ensures Step(s, p, id) == Goto(s, p, Prepared(q, Write(id, true, NewBill(q), NewBill(q), None, None)))
  {
  }

  lemma {:induction false} RunOf(s: State, es: seq<Event>, states: seq<State>)
    requires |states| == |es| + 1 && states[0] == s
    requires forall k :: 0 <= k < |es| ==> states[k + 1] == Exec(states[k], es[k])
    ensures Run(s, es) == states[|es|]
  {
    if es != [] {
      RunOf(s, es[..|es| - 1], states[..|es|]);
    }
  }

  // ---- The void route's second read ----------------------------------------

  /** The reason the void route gives, read off one row. */
  function ReasonIn(row: Bill): Refusal {
    if row.paid != 0 then BillHasPayments else BillNotOpen(row.status)
  }

  /**
   * The second read happens later, and anything may commit in between; still the
   * reason it words is the one the update met, and never "it is OPEN".
   */
  lemma DiagnosisIsTrue(s: State, p: nat, q: Request, row: Bill)
    requires Reachable(s) && p in s.procs && s.procs[p] == Diagnosing(q, Some(row))
    ensures q.VoidBill? && Step(s, p, 0).procs[p] == Done(q, Refused(ReasonIn(row)))
    ensures ReasonIn(row) != BillNotOpen(OPEN)
  {
    ReachableInv(s);
    assert ProcOk(s, p);
  }

  /** What the update met is what was committed at that moment. */
  lemma MissedIsWhatWasThere(s: State, p: nat, q: Request)
    requires p in s.procs && s.procs[p] == Voiding(q) && q.VoidBill?
    requires Step(s, p, 0).procs[p].Diagnosing?
    ensures Step(s, p, 0).procs[p].missed.Some? <==> q.bill in s.bills && s.bills[q.bill].restaurant == q.restaurant
    ensures Step(s, p, 0).procs[p].missed.Some? ==>
              Step(s, p, 0).procs[p].missed.value == s.bills[q.bill] && !Voidable(s.bills[q.bill], q.restaurant)
  {
  }

  /** "A bill that is OPEN is not open" can be said of exactly one bill: one created after the update missed it. */
  lemma OpenIsNotOpenOnlyIfNew(s: State, p: nat, q: Request, missed: Option<Bill>)
    requires Reachable(s) && p in s.procs && s.procs[p] == Diagnosing(q, missed)
    ensures q.VoidBill?
    ensures Step(s, p, 0).procs[p] == Done(q, Refused(BillNotOpen(OPEN))) <==>
              missed == None && q.bill in s.bills && Voidable(s.bills[q.bill], q.restaurant)
  {
    ReachableInv(s);
    assert ProcOk(s, p);
    if missed.Some? {
      DiagnosisIsTrue(s, p, q, missed.value);
    }
  }

  /** And it can: the bill is opened between the update that missed it and the read. */
  lemma VoidCanSayOpen() returns (es: seq<Event>, s: State)
    ensures s == Run(Empty(map[7 := 1]), es)
    ensures 20 in s.procs && s.procs[20] == Done(VoidBill(1, 100), Refused(BillNotOpen(OPEN)))
  {
    hide Run;
    var post, void := PostBill(1, 7, 500, RATE_SCALE, 0), VoidBill(1, 100);
    var s0 := Empty(map[7 := 1]);
    var s1 := Goto(s0, 20, Voiding(void));
    var s2 := Goto(s1, 20, Diagnosing(void, None));
    var first := [Arrive(20, void), Advance(20, 0)];
    MissesAbsent(s1, 20, void);
    RunOf(s0, first, [s0, s1, s2]);
    hide Step;
    var second := PostAlone(s2, 10, post, 100);
    var s3 := Run(s2, second);
    NewBillFigures(post);
    assert NewBill(post).paid == 0;
    DiagnosesOpen(s3, 20, void);
    var third := [Advance(20, 0)];
    s := Goto(s3, 20, Done(void, Refused(BillNotOpen(OPEN))));
    RunOf(s3, third, [s3, s]);
    es := first + second + third;
    RunAppend(s0, first, second);
    RunAppend(s0, first + second, third);
  }

  lemma MissesAbsent(s: State, p: nat, q: Request)
    requires p in s.procs && s.procs[p] == Voiding(q) && q.VoidBill? && q.bill !in s.bills
    ensures Step(s, p, 0) == Goto(s, p, Diagnosing(q, None))
  {
  }

  lemma DiagnosesOpen(s: State, p: nat, q: Request)
    requires p in s.procs && s.procs[p] == Diagnosing(q, None) && q.VoidBill? && q.bill in s.bills
    requires Voidable(s.bills[q.bill], q.restaurant)
    ensures Step(s, p, 0) == Goto(s, p, Done(q, Refused(BillNotOpen(OPEN))))
  {
  }

  // ---- Whole handlers, one after another -----------------------------------

  datatype Data = Data(tables: map<nat, nat>, bills: map<nat, Bill>, payments: seq<Payment>, adjustments: map<nat, nat>)

  function DataOf(s: State): Data { Data(s.tables, s.bills, s.payments, s.adjustments) }

  function Applied(d: Data, w: Write): Data {
    d.(bills := d.bills[w.bill := w.now],
       payments := if w.payment.Some? then d.payments + [Payment(w.now.restaurant, w.bill, w.payment.value)]
                   else d.payments,
       adjustments := if w.adjustment.Some? then d.adjustments[w.bill := w.adjustment.value] else d.adjustments)
  }

  function AppliedIf(d: Data, r: Result<Write, Refusal>): Option<Data> {
    if r.Success? then Some(Applied(d, r.value)) else None
  }

  /** A handler as if nobody else were there; None where it refuses. */
  ghost function Handle(d: Data, q: Request, id: nat): Option<Data> {
    if Opener(q) && (q.table !in d.tables || d.tables[q.table] != q.restaurant) then None
    else if !Opener(q) && (q.bill !in d.bills || d.bills[q.bill].restaurant != q.restaurant) then None
    else
      match q
      case PostBill(r, t, _, _, _) =>
        if NoneOpenAt(d.bills, r, t) && id !in d.bills then Some(d.(bills := d.bills[id := NewBill(q)])) else None
      case PlaceOrder(r, t, _, _, _) =>
        if OpenAt(d.bills, r, t).Some? then
          var b := OpenAt(d.bills, r, t).value;
          AppliedIf(d, Prepare(q, b, false, d.bills[b], b in d.adjustments))
        else if id !in d.bills then AppliedIf(d, Prepare(q, id, true, NewBill(q), false))
        else None
      case VoidBill(_, b) =>
        if Voidable(d.bills[b], q.restaurant) then Some(d.(bills := d.bills[b := d.bills[b].(status := VOID)]))
        else None
      case _ =>
        if d.bills[q.bill].status == OPEN then
          AppliedIf(d, Prepare(q, q.bill, false, d.bills[q.bill], q.bill in d.adjustments))
        else None
  }

  /** The handler this event brings to its end with success. */
  ghost predicate Accepts(s: State, e: Event) {
    && e.Advance? && e.p in s.procs && !s.procs[e.p].Done?
    && Step(s, e.p, e.id).procs[e.p] == Done(s.procs[e.p].q, Accepted)
  }

  /** The identifier it gave its bill, if it opened one. */
  function NewId(s: State, e: Event): nat
    requires e.Advance? && e.p in s.procs
  {
    if s.procs[e.p].Prepared? then s.procs[e.p].w.bill else 0
  }

  lemma PreparedHandles(s: State, p: nat, q: Request, w: Write)
    requires Inv(s) && p in s.procs && s.procs[p] == Prepared(q, w)
    ensures Handle(DataOf(s), q, w.bill) == Some(DataOf(Commit(s, w)))
  {
    assert ProcOk(s, p);
    PreparedIsCommittable(s, p, q, w);
    if !w.isNew {
      assert BillOk(s, w.bill);
      if q.PlaceOrder? {
        assert IsOpenAt(s.bills, w.bill, q.restaurant, q.table);
      }
    }
  }

  /**
   * One event either changes nothing that is committed, or ends a handler with
   * success; and then the whole handler, run alone on what was committed at
   * that instant, does exactly the same.
   */
  lemma EachCommitIsAWholeHandler(s: State, e: Event)
    requires Inv(s)
    ensures Accepts(s, e) ==> Handle(DataOf(s), s.procs[e.p].q, NewId(s, e)) == Some(DataOf(Exec(s, e)))
    ensures !Accepts(s, e) ==> DataOf(Exec(s, e)) == DataOf(s)
  {
    hide Inv, LockTable, LookForOpen, InsertBill, LockBill, WriteStatements, Commit, TryVoid, Handle;
    if !Writes(s, e) {
      OthersOnlyRead(s, e);
      OnlyWritersAccept(s, e);
    } else if s.procs[e.p].Prepared? {
      PreparedHandles(s, e.p, s.procs[e.p].q, s.procs[e.p].w);
    } else {
      VoidingHandles(s, e.p, s.procs[e.p].q);
    }
  }

  lemma OnlyWritersAccept(s: State, e: Event)
    requires !Writes(s, e)
    ensures !Accepts(s, e)
  {
    hide Step;
  }

  lemma VoidingHandles(s: State, p: nat, q: Request)
    requires Inv(s) && p in s.procs && s.procs[p] == Voiding(q)
    ensures var t := TryVoid(s, p, q);
            if t.procs[p] == Done(q, Accepted) then Handle(DataOf(s), q, 0) == Some(DataOf(t)) else SameData(s, t)
  {
    hide Handle;
    assert ProcOk(s, p);
    HandlesVoid(DataOf(s), q);
  }

  lemma HandlesVoid(d: Data, q: Request)
    requires q.VoidBill?
    ensures q.bill in d.bills && Voidable(d.bills[q.bill], q.restaurant) ==>
              Handle(d, q, 0) == Some(d.(bills := d.bills[q.bill := d.bills[q.bill].(status := VOID)]))
  {
  }

  /** The requests accepted in a run, in the order in which they committed. */
  ghost function Served(s: State, es: seq<Event>): seq<(Request, nat)> {
    if es == [] then []
    else
      var m, e := Run(s, es[..|es| - 1]), es[|es| - 1];
      Served(s, es[..|es| - 1]) + if Accepts(m, e) then [(m.procs[e.p].q, NewId(m, e))] else []
  }

  ghost function HandleAll(d: Data, qs: seq<(Request, nat)>): Option<Data> {
    if qs == [] then Some(d)
    else
      var before := HandleAll(d, qs[..|qs| - 1]);
      if before.None? then None else Handle(before.value, qs[|qs| - 1].0, qs[|qs| - 1].1)
  }

  /**
   * Every run, however interleaved and whatever crashed, ends where its accepted
   * requests, one at a time, would have.
   */
  lemma {:induction false} Serializable(tables: map<nat, nat>, es: seq<Event>)
    ensures HandleAll(DataOf(Empty(tables)), Served(Empty(tables), es)) == Some(DataOf(Run(Empty(tables), es)))
  {
    if es != [] {
      hide Inv, Exec, Handle, HandleAll, Accepts, Run;
      var s, n := Empty(tables), |es| - 1;
      Serializable(tables, es[..n]);
      RunKeeps(tables, es[..n]);
      RunNext(s, es, n);
      assert es[..n + 1] == es;
      var m := Run(s, es[..n]);
      EachCommitIsAWholeHandler(m, es[n]);
      if Accepts(m, es[n]) {
        OneMore(DataOf(s), Served(s, es[..n]), (m.procs[es[n].p].q, NewId(m, es[n])));
      } else {
        assert Served(s, es) == Served(s, es[..n]);
      }
    } else {
      assert Served(Empty(tables), es) == [];
    }
  }

  lemma OneMore(d: Data, qs: seq<(Request, nat)>, q: (Request, nat))
    requires HandleAll(d, qs).Some?
    ensures HandleAll(d, qs + [q]) == Handle(HandleAll(d, qs).value, q.0, q.1)
  {
    hide Handle;
    assert (qs + [q])[..|qs|] == qs;
  }

  // ---- Refusals ------------------------------------------------------------

  lemma AnswersAreFinal(s: State, e: Event, p: nat)
    requires p in s.procs && s.procs[p].Done?
    ensures p in Exec(s, e).procs && Exec(s, e).procs[p] == s.procs[p]
  {
    hide Step;
  }

  lemma {:induction false} AnswersLast(s: State, es: seq<Event>, p: nat)
    requires p in s.procs && s.procs[p].Done?
    ensures p in Run(s, es).procs && Run(s, es).procs[p] == s.procs[p]
  {
    if es != [] {
      hide Exec;
      AnswersLast(s, es[..|es| - 1], p);
      AnswersAreFinal(Run(s, es[..|es| - 1]), es[|es| - 1], p);
    }
  }

  /** A request that was refused, for whatever reason and at whatever point, wrote nothing on its way. */
  lemma RefusedWroteNothing(tables: map<nat, nat>, es: seq<Event>, p: nat, k: nat)
    requires k < |es| && es[k].p == p
    requires var end := Run(Empty(tables), es); p in end.procs && end.procs[p].Done? && end.procs[p].reply != Accepted
    ensures DataOf(Run(Empty(tables), es[..k + 1])) == DataOf(Run(Empty(tables), es[..k]))
  {
    hide Inv, Exec, Handle, Run, Accepts;
    RunKeeps(tables, es[..k]);
    RunNext(Empty(tables), es, k);
    EachCommitIsAWholeHandler(Run(Empty(tables), es[..k]), es[k]);
    if Accepts(Run(Empty(tables), es[..k]), es[k]) {
      AcceptedForGood(tables, es, k);
    }
  }

  lemma AcceptedForGood(tables: map<nat, nat>, es: seq<Event>, k: nat)
    requires k < |es| && Accepts(Run(Empty(tables), es[..k]), es[k])
    ensures var end := Run(Empty(tables), es);
            es[k].p in end.procs && end.procs[es[k].p].Done? && end.procs[es[k].p].reply == Accepted
  {
    hide Exec, Run, Accepts;
    var s := Empty(tables);
    RunNext(s, es, k);
    AcceptedIsDone(Run(s, es[..k]), es[k]);
    AnswersLast(Run(s, es[..k + 1]), es[k + 1..], es[k].p);
    RunAppend(s, es[..k + 1], es[k + 1..]);
    assert es[..k + 1] + es[k + 1..] == es;
  }

  lemma AcceptedIsDone(s: State, e: Event)
    requires Accepts(s, e)
    ensures e.p in Exec(s, e).procs && Exec(s, e).procs[e.p].Done? && Exec(s, e).procs[e.p].reply == Accepted
  {
    hide Step;
  }

  lemma RunNext(s: State, es: seq<Event>, k: nat)
    requires k < |es|
    ensures Run(s, es[..k + 1]) == Exec(Run(s, es[..k]), es[k])
  {
    hide Exec;
    assert es[..k + 1][..k] == es[..k];
  }
}
