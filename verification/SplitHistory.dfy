/**
 * How a stored split came about: the moment its bill was read, the moment it was
 * inserted, and what landed on the bill between the two.
 */
module SplitHistory {
  import opened Wrappers
  import opened SplitState
  import opened SplitSafety
  import opened SplitCommits
  import opened SplitTheorems

  /** The state after the first `i` events. */
  ghost function At(dues: map<nat, nat>, es: seq<Event>, i: nat): State
    requires i <= |es|
  {
    Run(AsBuilt, Opened(dues), es[..i])
  }

  lemma Earlier(dues: map<nat, nat>, es: seq<Event>, n: nat, i: nat)
    requires i <= n <= |es|
    ensures At(dues, es[..n], i) == At(dues, es, i)
  {
    assert es[..n][..i] == es[..i];
  }

  lemma Later(dues: map<nat, nat>, es: seq<Event>, i: nat)
    requires i < |es|
    ensures At(dues, es, i + 1) == Exec(AsBuilt, At(dues, es, i), es[i])
    ensures Inv(At(dues, es, i)) && Inv(At(dues, es, i + 1))
  {
    hide Exec, Inv;
    assert es[..i + 1][..i] == es[..i];
    RunKeeps(dues, es[..i]);
    RunKeeps(dues, es[..i + 1]);
  }

  // ---- The three moments of an agreement -----------------------------------

  predicate StepOf(es: seq<Event>, i: nat, p: nat) { i < |es| && es[i].Advance? && es[i].p == p }

  /** Event `i` is `p` reading the bill, and this is the row. */
  ghost predicate Reads(dues: map<nat, nat>, es: seq<Event>, p: nat, i: nat, b: nat, row: Bill) {
    StepOf(es, i, p) &&
    var s := At(dues, es, i);
    && p in s.procs && s.procs[p].ReadsBill? && s.procs[p].q.Agree? && s.procs[p].q.bill == b
    && b in s.tables.bills && s.tables.bills[b] == row
  }

  /** Event `j` is `p` inserting split `k`, and this is its bill's row then. */
  ghost predicate Inserts(dues: map<nat, nat>, es: seq<Event>, p: nat, j: nat, k: nat, b: nat, row: Bill) {
    StepOf(es, j, p) &&
    var s, t := At(dues, es, j), At(dues, es, j + 1);
    && p in s.procs && s.procs[p].Clear?
    && p in t.procs && t.procs[p].Inserted? && t.procs[p].id == k
    && b in s.tables.bills && s.tables.bills[b] == row
  }

  /** Event `c` is `p` committing split `k`. */
  ghost predicate Commits(dues: map<nat, nat>, es: seq<Event>, p: nat, c: nat, k: nat) {
    StepOf(es, c, p) &&
    k !in At(dues, es, c).tables.splits && k in At(dues, es, c + 1).tables.splits
  }

  ghost predicate Pending(dues: map<nat, nat>, es: seq<Event>, p: nat, i: nat, j: nat, k: nat, b: nat, read: Bill,
                          inserted: Bill) {
    i < j && Reads(dues, es, p, i, b, read) && Inserts(dues, es, p, j, k, b, inserted)
  }

  lemma ReadsStays(dues: map<nat, nat>, es: seq<Event>, n: nat, p: nat, i: nat, b: nat, row: Bill)
    requires n <= |es| && Reads(dues, es[..n], p, i, b, row)
    ensures Reads(dues, es, p, i, b, row)
  {
    Earlier(dues, es, n, i);
  }

  lemma PendingStays(dues: map<nat, nat>, es: seq<Event>, n: nat, p: nat, i: nat, j: nat, k: nat, b: nat, read: Bill,
                     inserted: Bill)
    requires n <= |es| && Pending(dues, es[..n], p, i, j, k, b, read, inserted)
    ensures Pending(dues, es, p, i, j, k, b, read, inserted)
  {
    hide At;
    ReadsStays(dues, es, n, p, i, b, read);
    Earlier(dues, es, n, j);
    Earlier(dues, es, n, j + 1);
  }

  lemma CommitsStays(dues: map<nat, nat>, es: seq<Event>, n: nat, p: nat, c: nat, k: nat)
    requires n <= |es| && Commits(dues, es[..n], p, c, k)
    ensures Commits(dues, es, p, c, k)
  {
    hide At;
    Earlier(dues, es, n, c);
    Earlier(dues, es, n, c + 1);
  }

  // ---- Where a pending plan comes from -------------------------------------

  function PlanOf(at: Proc): Option<Plan> {
    match at
    case Seeks(_, plan) => plan
    case WantsSplit(_, plan, _) => plan
    case HasSplit(_, plan, _) => plan
    case Summed(_, plan, _) => plan
    case Clear(_, plan, _) => plan
    case Inserted(_, plan, _, _, _, _) => plan
    case _ => None
  }

  /** A plan is made by reading the bill, and carried from statement to statement after that. */
  predicate Carries(s: State, was: Proc, now: Proc) {
    PlanOf(now).Some? ==>
      && now.q == was.q
      && (PlanOf(now) == PlanOf(was)
          || (was.ReadsBill? && was.q.Agree? && was.q.bill in s.tables.bills
              && s.tables.bills[was.q.bill] == PlanOf(now).value.read))
  }

  /** Only an INSERT makes a split pending, and it keeps the bill's row. */
  predicate Begins(s: State, was: Proc, now: Proc) {
    now.Inserted? ==>
      was.Clear? && now.q.Agree? && now.q.bill in s.tables.bills && s.tables.bills[now.q.bill] == now.at
  }

  lemma PayersPlanNothing(s: State, p: nat, id: nat, ids: seq<nat>)
    requires p in s.procs && OnMoney(s.procs[p])
    ensures var move := Next(AsBuilt, s, p, id, ids); move.To? ==> OnMoney(move.at)
  {
    hide Fits, Refuses, BillFree, ShareFree, Apply;
  }

  lemma PlansAreCarried(s: State, p: nat, id: nat, ids: seq<nat>)
    requires p in s.procs
    ensures var move := Next(AsBuilt, s, p, id, ids);
            move.To? ==> Carries(s, s.procs[p], move.at) && Begins(s, s.procs[p], move.at)
  {
    if OnMoney(s.procs[p]) {
      PayersPlanNothing(s, p, id, ids);
    } else {
      PlannersCarry(s, p, id, ids);
    }
  }

  lemma PlannersCarry(s: State, p: nat, id: nat, ids: seq<nat>)
    requires p in s.procs && !OnMoney(s.procs[p])
    ensures var move := Next(AsBuilt, s, p, id, ids);
            move.To? ==> Carries(s, s.procs[p], move.at) && Begins(s, s.procs[p], move.at)
  {
    hide AllFree, AnyPaid, AnyPending, Unused, Apart, Void, AddsUp, Agreed, LockAll;
  }

  // ---- Every plan has its moments ------------------------------------------

  ghost predicate ReadTraced(dues: map<nat, nat>, es: seq<Event>, p: nat, at: Proc) {
    PlanOf(at).Some? ==>
      at.q.Agree? && exists i: nat :: Reads(dues, es, p, i, at.q.bill, PlanOf(at).value.read)
  }

  ghost predicate InsertTraced(dues: map<nat, nat>, es: seq<Event>, p: nat, at: Proc) {
    at.Inserted? && at.plan.Some? ==>
      at.q.Agree? && exists i: nat, j: nat :: Pending(dues, es, p, i, j, at.id, at.q.bill, at.plan.value.read, at.at)
  }

  lemma ReadTraceStays(dues: map<nat, nat>, es: seq<Event>, n: nat, p: nat, at: Proc)
    requires n <= |es| && ReadTraced(dues, es[..n], p, at)
    ensures ReadTraced(dues, es, p, at)
  {
    hide Reads;
    if PlanOf(at).Some? {
      var i: nat :| Reads(dues, es[..n], p, i, at.q.bill, PlanOf(at).value.read);
      ReadsStays(dues, es, n, p, i, at.q.bill, PlanOf(at).value.read);
    }
  }

  lemma InsertTraceStays(dues: map<nat, nat>, es: seq<Event>, n: nat, p: nat, at: Proc)
    requires n <= |es| && InsertTraced(dues, es[..n], p, at)
    ensures InsertTraced(dues, es, p, at)
  {
    hide Pending;
    if at.Inserted? && at.plan.Some? {
      var i: nat, j: nat :| Pending(dues, es[..n], p, i, j, at.id, at.q.bill, at.plan.value.read, at.at);
      PendingStays(dues, es, n, p, i, j, at.id, at.q.bill, at.plan.value.read, at.at);
    }
  }

  /** What others do leaves a transaction where it is; its own end has no plan. */
  lemma OnlyOwnStepsMove(s: State, e: Event, p: nat)
    requires p in Exec(AsBuilt, s, e).procs && !(e.Advance? && e.p == p && p in s.procs)
    ensures var now := Exec(AsBuilt, s, e).procs[p]; PlanOf(now) == None || (p in s.procs && now == s.procs[p])
  {
    hide Next, Released;
  }

  lemma StepIs(s: State, p: nat, id: nat, ids: seq<nat>)
    requires p in s.procs
    ensures var t, move := Exec(AsBuilt, s, Advance(p, id, ids)), Next(AsBuilt, s, p, id, ids);
            && p in t.procs
            && (move.To? ==> t.procs[p] == move.at)
            && (!move.To? ==> t.procs[p] == s.procs[p] || t.procs[p].Done?)
  {
    hide Next, Released;
  }

  lemma {:induction false} PlansAreTraced(dues: map<nat, nat>, es: seq<Event>, p: nat)
    requires p in At(dues, es, |es|).procs
    ensures ReadTraced(dues, es, p, At(dues, es, |es|).procs[p])
    ensures InsertTraced(dues, es, p, At(dues, es, |es|).procs[p])
  {
    hide At, Reads, Pending, Exec, Next, Inv, ReadTraced, InsertTraced;
    if es == [] {
      NobodyYet(dues, es);
    } else {
      var n := |es| - 1;
      var s, t := At(dues, es, n), At(dues, es, n + 1);
      Later(dues, es, n);
      Earlier(dues, es, n, n);
      if p in s.procs {
        PlansAreTraced(dues, es[..n], p);
        ReadTraceStays(dues, es, n, p, s.procs[p]);
        InsertTraceStays(dues, es, n, p, s.procs[p]);
      }
      if StepOf(es, n, p) && p in s.procs {
        StepIsTraced(dues, es, p);
      } else {
        OthersAreTraced(dues, es, p);
      }
    }
  }

  lemma NobodyYet(dues: map<nat, nat>, es: seq<Event>)
    requires es == []
    ensures At(dues, es, 0).procs == map[]
  {
  }

  lemma OthersAreTraced(dues: map<nat, nat>, es: seq<Event>, p: nat)
    requires es != [] && p in At(dues, es, |es|).procs
    requires var s := At(dues, es, |es| - 1);
             p in s.procs ==>
               !StepOf(es, |es| - 1, p) && ReadTraced(dues, es, p, s.procs[p]) && InsertTraced(dues, es, p, s.procs[p])
    ensures ReadTraced(dues, es, p, At(dues, es, |es|).procs[p])
    ensures InsertTraced(dues, es, p, At(dues, es, |es|).procs[p])
  {
    hide At, Inv, Reads, Pending, Next, Perform, Finish;
    var s := At(dues, es, |es| - 1);
    Later(dues, es, |es| - 1);
    OnlyOwnStepsMove(s, es[|es| - 1], p);
  }

  lemma StepIsTraced(dues: map<nat, nat>, es: seq<Event>, p: nat)
    requires es != [] && StepOf(es, |es| - 1, p) && p in At(dues, es, |es| - 1).procs
    requires ReadTraced(dues, es, p, At(dues, es, |es| - 1).procs[p])
    requires InsertTraced(dues, es, p, At(dues, es, |es| - 1).procs[p])
    ensures p in At(dues, es, |es|).procs
    ensures ReadTraced(dues, es, p, At(dues, es, |es|).procs[p])
    ensures InsertTraced(dues, es, p, At(dues, es, |es|).procs[p])
  {
    hide At, Inv, Next, Exec;
    var n := |es| - 1;
    var s, t, e := At(dues, es, n), At(dues, es, n + 1), es[n];
    Later(dues, es, n);
    StepIs(s, p, e.id, e.ids);
    PlansAreCarried(s, p, e.id, e.ids);
    var was, now := s.procs[p], t.procs[p];
    if PlanOf(now).Some? && was.ReadsBill? && Carries(s, was, now) {
      assert Reads(dues, es, p, n, was.q.bill, PlanOf(now).value.read);
    }
    if now.Inserted? && now != was && now.plan.Some? {
      var i: nat :| Reads(dues, es, p, i, was.q.bill, now.plan.value.read);
      assert i < n;
      assert Inserts(dues, es, p, n, now.id, was.q.bill, now.at);
      assert Pending(dues, es, p, i, n, now.id, now.q.bill, now.plan.value.read, now.at);
    }
  }

  // ---- Every split has its moments -----------------------------------------

  ghost predicate SplitTraced(dues: map<nat, nat>, es: seq<Event>, k: nat, split: Split) {
    exists p: nat, i: nat, j: nat, c: nat :: Born(dues, es, p, i, j, c, k, split)
  }

  ghost predicate Born(dues: map<nat, nat>, es: seq<Event>, p: nat, i: nat, j: nat, c: nat, k: nat, split: Split) {
    j < c && Pending(dues, es, p, i, j, k, split.bill, split.readAt, split.insertedAt) && Commits(dues, es, p, c, k)
  }

  lemma SplitTraceStays(dues: map<nat, nat>, es: seq<Event>, n: nat, k: nat, split: Split, now: Split)
    requires n <= |es| && SplitTraced(dues, es[..n], k, split) && SameTerms(split, now)
    ensures SplitTraced(dues, es, k, now)
  {
    hide Pending, Commits;
    var p: nat, i: nat, j: nat, c: nat :| Born(dues, es[..n], p, i, j, c, k, split);
    PendingStays(dues, es, n, p, i, j, k, split.bill, split.readAt, split.insertedAt);
    CommitsStays(dues, es, n, p, c, k);
    assert Born(dues, es, p, i, j, c, k, now);
  }

  /** A split that is new is the one its transaction had pending, and live. */
  lemma NewSplitIs(s: State, e: Event, k: nat)
    requires Inv(s) && k !in s.tables.splits && k in Exec(AsBuilt, s, e).tables.splits
    ensures e.Advance? && e.p in s.procs && s.procs[e.p].Inserted?
    ensures var mine, split := s.procs[e.p], Exec(AsBuilt, s, e).tables.splits[k];
            && k == mine.id && mine.q.Agree? && mine.plan.Some? && split.status == ACTIVE
            && split.bill == mine.q.bill && split.readAt == mine.plan.value.read && split.insertedAt == mine.at
  {
    hide TablesOk, OneLive, Exclude, AllApart, Released, Unused, AddsUp, WithShares, MayVoid, PlanOk, Planning,
         MayAgree,
         LockPayment, LockBill, WithBill, TakeSnapshot, LockShare, MarkStale, ReadBill, SeekLive, LockSplit, SumShares,
         CountPending, InsertSplit;
    ExecMoves(s, e);
    assert ProcOk(s.tables, s.locks, e.p, s.procs[e.p]);
  }

  lemma OldSplitsStay(s: State, e: Event, k: nat)
    requires Inv(s) && k in s.tables.splits
    ensures k in Exec(AsBuilt, s, e).tables.splits
    ensures SameTerms(s.tables.splits[k], Exec(AsBuilt, s, e).tables.splits[k])
  {
    hide Inv, Exec;
    ExecOnward(s, e);
    assert SplitGoesOn(s.tables, Exec(AsBuilt, s, e).tables, k);
  }

  lemma {:induction false} SplitsAreTraced(dues: map<nat, nat>, es: seq<Event>, k: nat)
    requires k in At(dues, es, |es|).tables.splits
    ensures SplitTraced(dues, es, k, At(dues, es, |es|).tables.splits[k])
  {
    hide At, Exec, Inv, SplitTraced, InsertTraced, Pending, SameTerms;
    if es == [] {
      NothingYet(dues, es);
    } else {
      var n := |es| - 1;
      var s, t := At(dues, es, n), At(dues, es, n + 1);
      Later(dues, es, n);
      Earlier(dues, es, n, n);
      if k in s.tables.splits {
        SplitsAreTraced(dues, es[..n], k);
        OldSplitsStay(s, es[n], k);
        SplitTraceStays(dues, es, n, k, s.tables.splits[k], t.tables.splits[k]);
      } else {
        NewSplitIs(s, es[n], k);
        PlansAreTraced(dues, es[..n], es[n].p);
        InsertTraceStays(dues, es, n, es[n].p, s.procs[es[n].p]);
        NewSplitIsTraced(dues, es, k);
      }
    }
  }

  lemma NothingYet(dues: map<nat, nat>, es: seq<Event>)
    requires es == []
    ensures At(dues, es, 0).tables.splits == map[]
  {
  }

  lemma NewSplitIsTraced(dues: map<nat, nat>, es: seq<Event>, k: nat)
    requires es != [] && var n := |es| - 1; StepOf(es, n, es[n].p)
    requires k !in At(dues, es, |es| - 1).tables.splits && k in At(dues, es, |es|).tables.splits
    requires var p, procs := es[|es| - 1].p, At(dues, es, |es| - 1).procs;
             p in procs && procs[p].Inserted? && InsertTraced(dues, es, p, procs[p])
    requires var mine, split := At(dues, es, |es| - 1).procs[es[|es| - 1].p], At(dues, es, |es|).tables.splits[k];
             && k == mine.id && mine.q.Agree? && mine.plan.Some?
             && split.bill == mine.q.bill && split.readAt == mine.plan.value.read && split.insertedAt == mine.at
    ensures SplitTraced(dues, es, k, At(dues, es, |es|).tables.splits[k])
  {
    hide At, Reads;
    var n := |es| - 1;
    var p := es[n].p;
    var mine, split := At(dues, es, n).procs[p], At(dues, es, n + 1).tables.splits[k];
    var i: nat, j: nat :| Pending(dues, es, p, i, j, mine.id, mine.q.bill, mine.plan.value.read, mine.at);
    InsertedAfter(dues, es, p, j, mine.id, mine.q.bill, mine.at);
    assert Born(dues, es, p, i, j, n, k, split);
  }

  /** The INSERT is not the statement that ends at the last state, where the split is still pending. */
  lemma InsertedAfter(dues: map<nat, nat>, es: seq<Event>, p: nat, j: nat, k: nat, b: nat, row: Bill)
    requires es != [] && Inserts(dues, es, p, j, k, b, row)
    requires var procs := At(dues, es, |es| - 1).procs; p in procs && procs[p].Inserted?
    ensures j < |es| - 1
  {
    hide At;
  }

  // ---- What landed between -------------------------------------------------

  ghost predicate Edits(dues: map<nat, nat>, es: seq<Event>, b: nat, t: nat) {
    t < |es| && var was, now := At(dues, es, t).tables.bills, At(dues, es, t + 1).tables.bills;
    b in was && b in now && now[b].due != was[b].due
  }

  ghost predicate Pays(dues: map<nat, nat>, es: seq<Event>, b: nat, t: nat) {
    t < |es| && var was, now := At(dues, es, t).tables.bills, At(dues, es, t + 1).tables.bills;
    b in was && b in now && Paid(now[b]) != Paid(was[b])
  }

  ghost predicate NoEdit(dues: map<nat, nat>, es: seq<Event>, b: nat, i: nat, j: nat) {
    forall t: nat :: i <= t < j ==> !Edits(dues, es, b, t)
  }

  ghost predicate NoPayment(dues: map<nat, nat>, es: seq<Event>, b: nat, i: nat, j: nat) {
    forall t: nat :: i <= t < j ==> !Pays(dues, es, b, t)
  }

  /** One event's worth of a bill's counters. */
  lemma CountersTick(s: State, e: Event, b: nat)
    requires Inv(s) && b in s.tables.bills
    ensures var was, d := s.tables.bills[b], Exec(AsBuilt, s, e).tables;
            && b in d.bills && Since(was, d.bills[b])
            && (d.bills[b].edits == was.edits <==> d.bills[b].due == was.due)
            && (d.bills[b].receipts == was.receipts <==> Paid(d.bills[b]) == Paid(was))
  {
    hide Inv, Exec, SplitMoves, ShareMoves, PaymentMoves, NewRows;
    ExecMoves(s, e);
    if Exec(AsBuilt, s, e).tables != s.tables {
      assert BillMoves(s.tables, Exec(AsBuilt, s, e).tables, s.locks, e.p, b);
    }
  }

  /** The counters stand still exactly while nothing lands. */
  lemma {:induction false} CountersTell(dues: map<nat, nat>, es: seq<Event>, b: nat, i: nat, j: nat)
    requires i <= j <= |es| && b in At(dues, es, i).tables.bills
    ensures b in At(dues, es, j).tables.bills
    ensures var was, now := At(dues, es, i).tables.bills[b], At(dues, es, j).tables.bills[b];
            && Since(was, now)
            && (now.edits == was.edits <==> NoEdit(dues, es, b, i, j))
            && (now.receipts == was.receipts <==> NoPayment(dues, es, b, i, j))
  {
    hide At, Exec, Inv;
    if i < j {
      CountersTell(dues, es, b, i, j - 1);
      Later(dues, es, j - 1);
      CountersTick(At(dues, es, j - 1), es[j - 1], b);
      assert NoEdit(dues, es, b, i, j) <==> NoEdit(dues, es, b, i, j - 1) && !Edits(dues, es, b, j - 1);
      assert NoPayment(dues, es, b, i, j) <==> NoPayment(dues, es, b, i, j - 1) && !Pays(dues, es, b, j - 1);
    }
  }

  // ---- What a live plan is worth -------------------------------------------

  /** The plan divides the bill's present total: no edit has changed it since the plan's figures were read. */
  predicate OnPresentTotal(d: Tables, k: nat)
    requires k in d.splits && d.splits[k].bill in d.bills
  {
    var now := d.bills[d.splits[k].bill];
    d.splits[k].readAt.edits == now.edits && d.splits[k].readAt.due == now.due
  }

  /** What its shares still ask for is what the bill still owes, less whatever came in past them since. */
  predicate SettlesBill(d: Tables, k: nat)
    requires k in d.splits && d.splits[k].bill in d.bills
  {
    var split := d.splits[k];
    var now := d.bills[split.bill];
    split.basis - PaidInto(d.shares, split.members) == now.due - Paid(now) + now.direct - split.insertedAt.direct
  }

  lemma LivePlan(d: Tables, k: nat)
    requires TablesOk(d) && k in d.splits && d.splits[k].status == ACTIVE
    ensures d.splits[k].bill in d.bills
    ensures var was, at, now := d.splits[k].readAt, d.splits[k].insertedAt, d.bills[d.splits[k].bill];
            && d.splits[k].basis == was.due - Paid(was)
            && (was.edits == at.edits ==> was.due == at.due) && at.edits == now.edits && at.due == now.due
            && (was.receipts == at.receipts <==> Paid(was) == Paid(at))
            && PaidInto(d.shares, d.splits[k].members) == now.shared - at.shared
  {
    hide PaymentOk, ShareOk, NonePendingBefore, AllThere, PaidInto;
    assert SplitOk(d, k) && LiveOk(d, k);
  }

  /**
   * An agreement reads its bill without a lock, so the code can store a plan of a
   * total the bill no longer has. It does so exactly when an edit commits between
   * that reading and the INSERT.
   */
  lemma PresentTotalUnlessEditedBetween(dues: map<nat, nat>, es: seq<Event>, k: nat)
    requires var d := At(dues, es, |es|).tables; k in d.splits && d.splits[k].status == ACTIVE
    ensures var d := At(dues, es, |es|).tables; var b := d.splits[k].bill;
            && b in d.bills
            && exists p: nat, i: nat, j: nat, c: nat ::
                 && Born(dues, es, p, i, j, c, k, d.splits[k])
                 && (OnPresentTotal(d, k) <==> NoEdit(dues, es, b, i, j))
  {
    hide At, Inv, TablesOk, Commits, Run, NoEdit, NoPayment, Since;
    var d := At(dues, es, |es|).tables;
    WholeRun(dues, es);
    LivePlan(d, k);
    SplitsAreTraced(dues, es, k);
    var p: nat, i: nat, j: nat, c: nat :| Born(dues, es, p, i, j, c, k, d.splits[k]);
    CountersTell(dues, es, d.splits[k].bill, i, j);
  }

  /** And what it leaves to pay is the bill's own balance exactly when no payment landed in between either. */
  lemma SettlesBillUnlessPaidBetween(dues: map<nat, nat>, es: seq<Event>, k: nat)
    requires var d := At(dues, es, |es|).tables; k in d.splits && d.splits[k].status == ACTIVE
    ensures var d := At(dues, es, |es|).tables; var b := d.splits[k].bill;
            && b in d.bills
            && exists p: nat, i: nat, j: nat, c: nat ::
                 && Born(dues, es, p, i, j, c, k, d.splits[k])
                 && (OnPresentTotal(d, k) && SettlesBill(d, k)
                     <==> NoEdit(dues, es, b, i, j) && NoPayment(dues, es, b, i, j))
  {
    hide At, Inv, TablesOk, Commits, Run, NoEdit, NoPayment, Since, PaidInto;
    var d := At(dues, es, |es|).tables;
    WholeRun(dues, es);
    LivePlan(d, k);
    SplitsAreTraced(dues, es, k);
    var p: nat, i: nat, j: nat, c: nat :| Born(dues, es, p, i, j, c, k, d.splits[k]);
    CountersTell(dues, es, d.splits[k].bill, i, j);
  }

  function Balance(bill: Bill): int { bill.due - Paid(bill) }

  /**
   * By the figures alone, when edits or payments may have cancelled out: the plan
   * was computed from the present total exactly when the total was the same at the
   * reading and at the INSERT, and it settles the bill exactly when the balance was.
   */
  lemma FiguresAgreeIff(dues: map<nat, nat>, es: seq<Event>, k: nat)
    requires var d := At(dues, es, |es|).tables; k in d.splits && d.splits[k].status == ACTIVE
    ensures var d := At(dues, es, |es|).tables; var b := d.splits[k].bill;
            && b in d.bills
            && exists p: nat, i: nat, j: nat, c: nat ::
                 && Born(dues, es, p, i, j, c, k, d.splits[k])
                 && b in At(dues, es, i).tables.bills && b in At(dues, es, j).tables.bills
                 && (d.splits[k].readAt.due == d.bills[b].due
                     <==> At(dues, es, i).tables.bills[b].due == At(dues, es, j).tables.bills[b].due)
                 && (SettlesBill(d, k)
                     <==> Balance(At(dues, es, i).tables.bills[b]) == Balance(At(dues, es, j).tables.bills[b]))
  {
    hide At, Inv, TablesOk, Commits, Run, Since, PaidInto;
    var d := At(dues, es, |es|).tables;
    WholeRun(dues, es);
    LivePlan(d, k);
    SplitsAreTraced(dues, es, k);
    var p: nat, i: nat, j: nat, c: nat :| Born(dues, es, p, i, j, c, k, d.splits[k]);
  }

  lemma WholeRun(dues: map<nat, nat>, es: seq<Event>)
    ensures Inv(At(dues, es, |es|)) && TablesOk(At(dues, es, |es|).tables)
  {
    hide TablesOk, OneLive, Exclude, AllApart, ProcOk;
    RunKeeps(dues, es[..|es|]);
  }

  // ---- Claims against a plan that was voided -------------------------------

  /** Event `j` voids split `k`. */
  ghost predicate Voids(dues: map<nat, nat>, es: seq<Event>, j: nat, k: nat) {
    j < |es| && var was, now := At(dues, es, j).tables.splits, At(dues, es, j + 1).tables.splits;
    k in was && was[k].status == ACTIVE && k in now && now[k].status == VOID
  }

  lemma VoidingRecords(s: State, e: Event, k: nat)
    requires Inv(s) && k in s.tables.splits && s.tables.splits[k].status != VOID
    requires var d := Exec(AsBuilt, s, e).tables; k in d.splits && d.splits[k].status == VOID
    ensures s.tables.splits[k].status == ACTIVE
    ensures var d := Exec(AsBuilt, s, e).tables; d.splits[k].voidedAt == |d.payments| == |s.tables.payments|
  {
    hide Inv, Exec, BillMoves, ShareMoves, PaymentMoves, NewRows;
    ExecMoves(s, e);
    assert SplitMoves(s.tables, Exec(AsBuilt, s, e).tables, s.locks, e.p, k);
  }

  lemma {:induction false} VoidedAtSome(dues: map<nat, nat>, es: seq<Event>, k: nat)
    requires var d := At(dues, es, |es|).tables; k in d.splits && d.splits[k].status == VOID
    ensures exists j: nat ::
              && Voids(dues, es, j, k)
              && |At(dues, es, j + 1).tables.payments| == At(dues, es, |es|).tables.splits[k].voidedAt
  {
    hide At, Exec, Inv;
    if es == [] {
      NothingYet(dues, es);
    } else {
      var n := |es| - 1;
      var s := At(dues, es, n);
      Later(dues, es, n);
      Earlier(dues, es, n, n);
      if k !in s.tables.splits {
        NewSplitIs(s, es[n], k);
      } else if s.tables.splits[k].status != VOID {
        VoidingRecords(s, es[n], k);
        assert Voids(dues, es, n, k);
      } else {
        VoidedAtSome(dues, es[..n], k);
        var j: nat :| Voids(dues, es[..n], j, k)
                   && |At(dues, es[..n], j + 1).tables.payments| == s.tables.splits[k].voidedAt;
        Earlier(dues, es, n, j);
        Earlier(dues, es, n, j + 1);
        VoidStays(s, es[n], k);
        assert Voids(dues, es, j, k);
      }
    }
  }

  lemma VoidStays(s: State, e: Event, k: nat)
    requires Inv(s) && k in s.tables.splits && s.tables.splits[k].status == VOID
    ensures var d := Exec(AsBuilt, s, e).tables; k in d.splits && d.splits[k] == s.tables.splits[k]
  {
    hide Inv, Exec;
    ExecOnward(s, e);
    assert SplitGoesOn(s.tables, Exec(AsBuilt, s, e).tables, k);
  }

  /**
   * Voiding strands no payment in flight: one that is still pending against a
   * share of a voided plan was declared after the voiding had committed.
   */
  lemma VoidStrandsNoClaim(dues: map<nat, nat>, es: seq<Event>, k: nat, i: nat)
    requires var d := At(dues, es, |es|).tables;
             && k in d.splits && d.splits[k].status == VOID
             && i < |d.payments| && NamesOne(d.payments[i], d.splits[k].members)
    ensures exists j: nat :: Voids(dues, es, j, k) && |At(dues, es, j + 1).tables.payments| <= i
  {
    hide At, Voids, Inv, NamesOne, Run;
    var d := At(dues, es, |es|).tables;
    WholeRun(dues, es);
    VoidedAtSome(dues, es, k);
    PendingCameLater(d, k, i);
  }

  lemma PendingCameLater(d: Tables, k: nat, i: nat)
    requires TablesOk(d) && k in d.splits && d.splits[k].status == VOID
    requires i < |d.payments| && NamesOne(d.payments[i], d.splits[k].members)
    ensures d.splits[k].voidedAt <= i
  {
    hide NamesOne, ShareOk, LiveOk, PaymentOk, EngineMade, AllThere, Since;
    assert SplitOk(d, k);
    var before := d.payments[..d.splits[k].voidedAt];
    assert forall m :: 0 <= m < |before| ==> before[m] == d.payments[m];
  }
}
