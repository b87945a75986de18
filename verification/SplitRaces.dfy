/**
 * What each lock of the split life cycle is for, run by run: without it, the
 * promise it keeps is broken. And two runs of the code as it is, where a plan is
 * agreed on figures the bill no longer has.
 */
module SplitRaces {
  import opened Wrappers
  import LargestRemainder
  import SplitEngine
  import opened SplitState
  import opened SplitSafety

  /** One person asks for the whole of bill 7, which comes to a hundred. */
  const Whole: Request :=
    Agree(7, Ask([], SplitEngine.Request(SplitEngine.Full, [SplitEngine.Participant("ana", None)], [])))
  const Row: Bill := Bill(true, 100, 0, 0, 0, 0)
  const Start7: State := Opened(map[7 := 100])
  const Idle: Locks := Locks(map[], map[], map[], map[], map[], map[])

  // ---- Runs, event by event ------------------------------------------------

  /** A run of one transaction's arrival. */
  lemma Arrives(rules: Rules, s: State, p: nat, q: Request)
    requires p !in s.procs
    ensures Run(rules, s, [Arrive(p, q)]) == s.(procs := s.procs[p := Start(q)])
  {
    hide Next;
    assert [Arrive(p, q)][..0] == [];
    assert Run(rules, s, []) == s;
  }

  /** A run, and one more statement of `p`. */
  lemma Proceeds(rules: Rules, s: State, es: seq<Event>, m: State, p: nat, id: nat, ids: seq<nat>)
    requires Run(rules, s, es) == m && p in m.procs
    ensures Run(rules, s, es + [Advance(p, id, ids)]) == Perform(m, p, Next(rules, m, p, id, ids))
  {
    hide Next, Perform;
    assert (es + [Advance(p, id, ids)])[..|es|] == es;
  }

  lemma {:induction false} RunsOn(rules: Rules, s: State, a: seq<Event>, b: seq<Event>)
    ensures Run(rules, s, a + b) == Run(rules, Run(rules, s, a), b)
  {
    hide Exec;
    if b == [] {
      assert a + b == a;
    } else {
      assert (a + b)[..|a + b| - 1] == a + b[..|b| - 1];
      RunsOn(rules, s, a, b[..|b| - 1]);
    }
  }

  function Steps(p: nat, n: nat): seq<Event> {
    if n == 0 then [] else Steps(p, n - 1) + [Advance(p, 0, [])]
  }

  /** The next `n` statements of `p`, with nobody in between. */
  ghost function After(rules: Rules, s: State, p: nat, n: nat): State {
    if n == 0 then s
    else
      var m := After(rules, s, p, n - 1);
      if p in m.procs then Perform(m, p, Next(rules, m, p, 0, [])) else m
  }

  lemma {:induction false} StepsAreAfter(rules: Rules, s: State, p: nat, n: nat)
    ensures Run(rules, s, Steps(p, n)) == After(rules, s, p, n)
  {
    hide Next, Perform;
    if n > 0 {
      StepsAreAfter(rules, s, p, n - 1);
      assert Steps(p, n)[..|Steps(p, n)| - 1] == Steps(p, n - 1);
    }
  }

  /** A transaction arrives and runs `n` statements. */
  lemma ArrivesAndRuns(rules: Rules, s: State, p: nat, q: Request, n: nat) returns (es: seq<Event>)
    requires p !in s.procs
    ensures Run(rules, s, es) == After(rules, s.(procs := s.procs[p := Start(q)]), p, n)
  {
    hide Run, Start;
    es := [Arrive(p, q)] + Steps(p, n);
    Arrives(rules, s, p, q);
    RunsOn(rules, s, [Arrive(p, q)], Steps(p, n));
    StepsAreAfter(rules, s.(procs := s.procs[p := Start(q)]), p, n);
  }

  /** One more statement, when we know what it does. */
  lemma AndThen(rules: Rules, s: State, p: nat, n: nat, m: State, move: Move)
    requires After(rules, s, p, n) == m && p in m.procs && Next(rules, m, p, 0, []) == move
    ensures After(rules, s, p, n + 1) == Perform(m, p, move)
  {
    hide Next, Perform;
  }

  /** Nothing but `p`'s locks were held, so none are. */
  lemma IdleAgain(l: Locks, p: nat)
    requires forall k :: (k in l.bills ==> l.bills[k] == p) && (k in l.splits ==> l.splits[k] == p)
    requires forall k :: (k in l.payments ==> l.payments[k] == p) && (k in l.shares ==> l.shares[k] == p)
    requires forall o :: (o in l.shareKeys ==> o == p) && (o in l.billKeys ==> o == p)
    ensures Released(l, p) == Idle
  {
  }

  // ---- Agreeing ------------------------------------------------------------

  lemma WholeIsAll()
    ensures SplitEngine.PreviewOutcome(100, 0, Whole.ask.items, Whole.ask.request) == Success([100])
  {
  }

  lemma ReadsTheBill(rules: Rules) returns (es: seq<Event>, t: State)
    ensures Run(rules, Start7, es) == t == Start7.(procs := map[1 := Seeks(Whole, Some(Plan(Row, [100])))])
  {
    hide Run, Next;
    var s := Start7.(procs := map[1 := ReadsBill(Whole)]);
    t := Start7.(procs := map[1 := Seeks(Whole, Some(Plan(Row, [100])))]);
    es := [Arrive(1, Whole)] + [Advance(1, 0, [])];
    Arrives(rules, Start7, 1, Whole);
    Divides(rules, s);
    assert map[][1 := ReadsBill(Whole)] == s.procs;
    Proceeds(rules, Start7, [Arrive(1, Whole)], s, 1, 0, []);
  }

  lemma Divides(rules: Rules, s: State)
    requires 1 in s.procs && s.procs[1] == ReadsBill(Whole) && 7 in s.tables.bills && s.tables.bills[7] == Row
    ensures Next(rules, s, 1, 0, []) == To(Seeks(Whole, Some(Plan(Row, [100]))), s.locks)
  {
    hide SplitEngine.PreviewOutcome;
    WholeIsAll();
  }

  /** Its transaction found nothing in its way, and has read the bill some time before. */
  predicate AboutToAgree(s: State) {
    && 1 in s.procs && s.procs[1] == Seeks(Whole, Some(Plan(Row, [100]))) && s.locks == Idle
    && s.tables.splits == map[] && s.tables.shares == map[] && 7 in s.tables.bills
    && forall p :: p in s.procs ==> !s.procs[p].Inserted?
  }

  /** The tables with one more split, of one share. */
  function OnePlan(d: Tables, q: Request, read: Bill, amount: nat, at: Bill, id: nat, x: nat): Tables
    requires q.Agree?
  {
    d.(splits := d.splits[id := Split(q.bill, amount, ACTIVE, [x], read, at, q.ask, 0)],
       shares := d.shares[x := Share(id, amount, 0)])
  }

  /** The tables with the whole of bill 7 planned as share 60 of split 50. */
  function Planned(d: Tables): Tables
    requires 7 in d.bills
  {
    OnePlan(d, Whole, Row, 100, d.bills[7], 50, 60)
  }

  lemma Agrees(rules: Rules, s: State) returns (es: seq<Event>, t: State)
    requires AboutToAgree(s)
    ensures Run(rules, s, es) == t == State(Planned(s.tables), Idle, s.procs[1 := Done(Whole, true)])
  {
    hide Run, Planned, Released, Next;
    var plan, d := Some(Plan(Row, [100])), s.tables;
    var clear := Clear(Whole, plan, None);
    var inserted := Inserted(Whole, plan, None, d.bills[7], 50, [60]);
    var s1 := s.(procs := s.procs[1 := clear]);
    var s2 := State(d, Idle.(billKeys := map[1 := 7]), s.procs[1 := inserted]);
    t := State(Planned(d), Idle, s.procs[1 := Done(Whole, true)]);
    es := [] + [Advance(1, 0, [])] + [Advance(1, 50, [60])] + [Advance(1, 0, [])];
    NoEvents(rules, s);
    FindsNothing(rules, s);
    Inserts(rules, s1);
    Stores(rules, s2, d.bills[7]);
    Proceeds(rules, s, [], s, 1, 0, []);
    Proceeds(rules, s, [] + [Advance(1, 0, [])], s1, 1, 50, [60]);
    Proceeds(rules, s, [] + [Advance(1, 0, [])] + [Advance(1, 50, [60])], s2, 1, 0, []);
    IdleAgain(s2.locks, 1);
    assert s1.procs[1 := inserted] == s2.procs && s2.procs[1 := Done(Whole, true)] == t.procs;
  }

  lemma NoEvents(rules: Rules, s: State)
    ensures Run(rules, s, []) == s
  {
  }

  lemma FindsNothing(rules: Rules, s: State)
    requires AboutToAgree(s)
    ensures Next(rules, s, 1, 0, []) == To(Clear(Whole, Some(Plan(Row, [100])), None), Idle)
  {
    assert forall k: nat :: !IsLive(s.tables, k, 7);
    hide IsLive;
  }

  lemma Inserts(rules: Rules, s: State)
    requires 1 in s.procs && s.procs[1] == Clear(Whole, Some(Plan(Row, [100])), None) && s.locks == Idle
    requires s.tables.splits == map[] && s.tables.shares == map[] && 7 in s.tables.bills
    requires forall p :: p in s.procs ==> !s.procs[p].Inserted?
    ensures Next(rules, s, 1, 50, [60])
         == To(Inserted(Whole, Some(Plan(Row, [100])), None, s.tables.bills[7], 50, [60]),
               Idle.(billKeys := map[1 := 7]))
  {
    assert Unused(s.tables, 50, [60]);
    assert map[][1 := 7] == map[1 := 7];
  }

  lemma Stores(rules: Rules, s: State, row: Bill)
    requires 1 in s.procs && s.procs[1] == Inserted(Whole, Some(Plan(Row, [100])), None, row, 50, [60])
    requires s.tables.splits == map[] && s.tables.shares == map[] && 7 in s.tables.bills && s.tables.bills[7] == row
    ensures Next(rules, s, 1, 0, []) == Commit(Planned(s.tables))
  {
    hide Next, OnePlan, Paid;
    RowOwesAHundred();
    StoresOne(rules, s, 1, Whole, Row, 100, row, 50, 60);
  }

  lemma RowOwesAHundred()
    ensures Row.due - Paid(Row) == 100
  {
  }

  lemma StoresOne(rules: Rules, s: State, p: nat, q: Request, read: Bill, amount: nat, at: Bill, id: nat, x: nat)
    requires q.Agree? && read.due - Paid(read) == amount > 0
    requires p in s.procs && s.procs[p] == Inserted(q, Some(Plan(read, [amount])), None, at, id, [x])
    ensures Next(rules, s, p, 0, []) == Commit(OnePlan(s.tables, q, read, amount, at, id, x))
  {
    hide AddsUp, Agreed, OnePlan, Next;
    OneAmountAddsUp(read, amount);
    CommitsAgreed(rules, s, p, q, Plan(read, [amount]), at, id, [x]);
    OneRow(s.tables, q, read, amount, at, id, x);
  }

  lemma CommitsAgreed(rules: Rules, s: State, p: nat, q: Request, plan: Plan, at: Bill, id: nat, ids: seq<nat>)
    requires p in s.procs && s.procs[p] == Inserted(q, Some(plan), None, at, id, ids) && q.Agree?
    requires AddsUp(plan) && |ids| == |plan.amounts|
    ensures Next(rules, s, p, 0, []) == Commit(Agreed(s.tables, q, plan, None, at, id, ids))
  {
    hide AddsUp, Agreed;
  }

  lemma OneAmountAddsUp(row: Bill, amount: int)
    requires amount > 0 && row.due - Paid(row) == amount
    ensures AddsUp(Plan(row, [amount]))
  {
    SplitEngine.SumOfOne(amount);
  }

  lemma OneRow(d: Tables, q: Request, read: Bill, amount: nat, at: Bill, id: nat, x: nat)
    requires q.Agree? && AddsUp(Plan(read, [amount])) && read.due - Paid(read) == amount
    ensures Agreed(d, q, Plan(read, [amount]), None, at, id, [x]) == OnePlan(d, q, read, amount, at, id, x)
  {
    hide WithShares;
    OneShare(d.shares, id, x, amount);
  }

  lemma OneShare(shares: map<nat, Share>, id: nat, x: nat, amount: int)
    ensures WithShares(shares, id, [x], [amount]) == shares[x := Share(id, amount, 0)]
  {
    assert [x][..0] == [] && [amount][..0] == [];
  }

  // ---- Single statements ---------------------------------------------------

  lemma BillIsFree(rules: Rules, s: State, p: nat, q: Request, b: nat)
    requires p in s.procs && s.procs[p] == WantsBill(q, b) && b in s.tables.bills
    requires BillFree(s.locks, b, p) && Fits(s.tables, q, s.tables.bills[b])
    ensures Next(rules, s, p, 0, []) == To(HasBill(q, b), s.locks.(bills := s.locks.bills[b := p]))
  {
    hide Fits, BillFree;
  }

  lemma NothingIsLive(rules: Rules, s: State, p: nat, q: Request, b: nat)
    requires p in s.procs && s.procs[p] == HasBill(q, b) && q.EditLines? && b in s.tables.bills
    requires s.tables.splits == map[] && q.due != s.tables.bills[b].due
    ensures Next(rules, s, p, 0, []) == To(Marking(q, b, None), s.locks)
  {
    assert forall k: nat :: !IsLive(s.tables, k, b);
  }

  lemma NothingToMark(rules: Rules, s: State, p: nat, q: Request, b: nat)
    requires p in s.procs && s.procs[p] == Marking(q, b, None) && q.EditLines?
    ensures Next(rules, s, p, 0, []) == To(Ready(q, Retire(b, q.due, None)), s.locks)
  {
  }

  lemma NothingToCredit(rules: Rules, s: State, p: nat, q: Request, b: nat)
    requires p in s.procs && s.procs[p] == HasBill(q, b) && q.Pay? && q.share == None
    ensures Next(rules, s, p, 0, []) == To(Ready(q, Record(Payment(b, None, q.amount, SUCCEEDED))), s.locks)
  {
  }

  lemma Writes(rules: Rules, s: State, p: nat, q: Request, e: Effect)
    requires p in s.procs && s.procs[p] == Ready(q, e)
    ensures Next(rules, s, p, 0, []) == Commit(Apply(s.tables, e))
  {
    hide Apply;
  }

  // ---- What can land between -----------------------------------------------

  /** An edit of a bill that nobody has planned, from its lock to its COMMIT. */
  lemma EditRuns(rules: Rules, s: State, p: nat, q: Request, b: nat)
    requires p in s.procs && s.procs[p] == WantsBill(q, b) && q.EditLines? && b in s.tables.bills
    requires BillFree(s.locks, b, p) && Fits(s.tables, q, s.tables.bills[b])
    requires s.tables.splits == map[] && q.due != s.tables.bills[b].due
    ensures After(rules, s, p, 4)
         == State(Apply(s.tables, Retire(b, q.due, None)), Released(s.locks.(bills := s.locks.bills[b := p]), p),
                  s.procs[p := Done(q, true)])
  {
    hide Next, After, Released, Apply, Fits, BillFree;
    var d, locks, retire := s.tables, s.locks.(bills := s.locks.bills[b := p]), Retire(b, q.due, None);
    var s2, s3 := State(d, locks, s.procs[p := HasBill(q, b)]), State(d, locks, s.procs[p := Marking(q, b, None)]);
    var s4 := State(d, locks, s.procs[p := Ready(q, retire)]);
    BeforeAnyStep(rules, s, p);
    BillIsFree(rules, s, p, q, b);
    AndThen(rules, s, p, 0, s, To(HasBill(q, b), locks));
    NothingIsLive(rules, s2, p, q, b);
    AndThen(rules, s, p, 1, s2, To(Marking(q, b, None), locks));
    NothingToMark(rules, s3, p, q, b);
    AndThen(rules, s, p, 2, s3, To(Ready(q, retire), locks));
    Writes(rules, s4, p, q, retire);
    AndThen(rules, s, p, 3, s4, Commit(Apply(d, retire)));
  }

  lemma BeforeAnyStep(rules: Rules, s: State, p: nat)
    ensures After(rules, s, p, 0) == s
  {
  }

  lemma OnlyTheBill(l: Locks, p: nat, b: nat)
    requires l == Idle
    ensures Released(l.(bills := l.bills[b := p]), p) == Idle
  {
  }

  lemma TotalChanges(d: Tables, b: nat, due: nat)
    requires b in d.bills && due != d.bills[b].due
    ensures Apply(d, Retire(b, due, None))
         == d.(bills := d.bills[b := d.bills[b].(due := due, edits := d.bills[b].edits + 1)])
  {
  }

  lemma MoneyLands(d: Tables, b: nat, amount: nat)
    requires b in d.bills
    ensures Apply(d, Record(Payment(b, None, amount, SUCCEEDED)))
         == d.(bills := d.bills[b := Landed(d.bills[b], amount, false)],
               payments := d.payments + [Payment(b, None, amount, SUCCEEDED)])
  {
  }

  /** Nobody else about: the whole edit, from its arrival. */
  lemma EditsAlone(rules: Rules, s: State, p: nat, b: nat, due: nat) returns (es: seq<Event>)
    requires s.locks == Idle && p !in s.procs && b in s.tables.bills && s.tables.bills[b].open
    requires s.tables.splits == map[] && Paid(s.tables.bills[b]) <= due != s.tables.bills[b].due
    ensures var row := s.tables.bills[b].(due := due, edits := s.tables.bills[b].edits + 1);
            Run(rules, s, es)
            == State(s.tables.(bills := s.tables.bills[b := row]), Idle, s.procs[p := Done(EditLines(b, due), true)])
  {
    hide Run, Next, After, Released, Apply;
    var q := EditLines(b, due);
    var s1 := s.(procs := s.procs[p := WantsBill(q, b)]);
    es := ArrivesAndRuns(rules, s, p, q, 4);
    EditRuns(rules, s1, p, q, b);
    OnlyTheBill(Idle, p, b);
    TotalChanges(s.tables, b, due);
    assert s1.procs[p := Done(q, true)] == s.procs[p := Done(q, true)];
  }

  /** A payment that names no share, from the bill's lock to its COMMIT. */
  lemma PlainPaymentRuns(rules: Rules, s: State, p: nat, q: Request, b: nat)
    requires p in s.procs && s.procs[p] == WantsBill(q, b) && q.Pay? && q.share == None && b in s.tables.bills
    requires BillFree(s.locks, b, p) && Fits(s.tables, q, s.tables.bills[b])
    ensures After(rules, s, p, 3)
         == State(Apply(s.tables, Record(Payment(b, None, q.amount, SUCCEEDED))),
                  Released(s.locks.(bills := s.locks.bills[b := p]), p), s.procs[p := Done(q, true)])
  {
    hide Next, After, Released, Apply, Fits, BillFree;
    var d, locks := s.tables, s.locks.(bills := s.locks.bills[b := p]);
    var record := Record(Payment(b, None, q.amount, SUCCEEDED));
    var s2, s3 := State(d, locks, s.procs[p := HasBill(q, b)]), State(d, locks, s.procs[p := Ready(q, record)]);
    BeforeAnyStep(rules, s, p);
    BillIsFree(rules, s, p, q, b);
    AndThen(rules, s, p, 0, s, To(HasBill(q, b), locks));
    NothingToCredit(rules, s2, p, q, b);
    AndThen(rules, s, p, 1, s2, To(Ready(q, record), locks));
    Writes(rules, s3, p, q, record);
    AndThen(rules, s, p, 2, s3, Commit(Apply(d, record)));
  }

  lemma PaysAlone(rules: Rules, s: State, p: nat, b: nat, amount: nat) returns (es: seq<Event>)
    requires s.locks == Idle && p !in s.procs && b in s.tables.bills && s.tables.bills[b].open
    requires 0 < amount <= s.tables.bills[b].due - Paid(s.tables.bills[b])
    ensures Run(rules, s, es)
         == State(s.tables.(bills := s.tables.bills[b := Landed(s.tables.bills[b], amount, false)],
                            payments := s.tables.payments + [Payment(b, None, amount, SUCCEEDED)]),
                  Idle, s.procs[p := Done(Pay(b, None, amount), true)])
  {
    hide Run, Next, After, Released, Apply;
    var q := Pay(b, None, amount);
    var s1 := s.(procs := s.procs[p := WantsBill(q, b)]);
    es := ArrivesAndRuns(rules, s, p, q, 3);
    PlainPaymentRuns(rules, s1, p, q, b);
    OnlyTheBill(Idle, p, b);
    MoneyLands(s.tables, b, amount);
    assert s1.procs[p := Done(q, true)] == s.procs[p := Done(q, true)];
  }

  // ---- Plans of figures the bill no longer has ------------------------------

  /** Split 50 is live, asks for a hundred, and this is what bill 7 has left to pay. */
  predicate AsksAHundred(d: Tables, left: int) {
    IsLive(d, 50, 7) && d.splits[50].basis == 100 && 7 in d.bills && d.bills[7].due - Paid(d.bills[7]) == left
  }

  lemma PlannedAsksAHundred(d: Tables, left: int)
    requires 7 in d.bills && d.bills[7].due - Paid(d.bills[7]) == left
    ensures AsksAHundred(Planned(d), left)
  {
  }

  /** A bill is read, something lands on it, and the plan of what was read is stored. */
  lemma AgreesAround(between: seq<Event>, s1: State, s2: State, left: int) returns (es: seq<Event>)
    requires s1 == Start7.(procs := map[1 := Seeks(Whole, Some(Plan(Row, [100])))])
    requires Run(AsBuilt, s1, between) == s2 && AboutToAgree(s2)
    requires s2.tables.bills[7].due - Paid(s2.tables.bills[7]) == left
    ensures AsksAHundred(Run(AsBuilt, Start7, es).tables, left)
  {
    hide Run, Planned, AsksAHundred;
    var first, s := ReadsTheBill(AsBuilt);
    var third, s3 := Agrees(AsBuilt, s2);
    RunsOn(AsBuilt, Start7, first, between);
    RunsOn(AsBuilt, Start7, first + between, third);
    PlannedAsksAHundred(s2.tables, left);
    es := first + between + third;
  }

  lemma HundredLeft()
    ensures 7 in Start7.tables.bills && Start7.tables.bills[7] == Row && Row.due - Paid(Row) == 100
  {
  }

  lemma LandedLeaves(row: Bill, amount: nat)
    ensures var now := Landed(row, amount, false); now.due - Paid(now) == row.due - Paid(row) - amount
  {
  }

  /** The lines change between the read and the insert, and the plan that becomes live is of the old total. */
  lemma AgreementOnAnOldTotal() returns (es: seq<Event>)
    ensures AsksAHundred(Run(AsBuilt, Start7, es).tables, 150)
  {
    hide Run;
    var s := Start7.(procs := map[1 := Seeks(Whole, Some(Plan(Row, [100])))]);
    var between := EditsAlone(AsBuilt, s, 2, 7, 150);
    es := AgreesAround(between, s, Run(AsBuilt, s, between), 150);
  }

  /** The same with a payment: the plan asks for a hundred, and sixty are left to pay. */
  lemma AgreementOnAnOldBalance() returns (es: seq<Event>)
    ensures AsksAHundred(Run(AsBuilt, Start7, es).tables, 60)
  {
    hide Run, Landed, Paid;
    var s := Start7.(procs := map[1 := Seeks(Whole, Some(Plan(Row, [100])))]);
    LandedLeaves(s.tables.bills[7], 40);
    HundredLeft();
    var between := PaysAlone(AsBuilt, s, 2, 7, 40);
    es := AgreesAround(between, s, Run(AsBuilt, s, between), 60);
  }

  // ---- Paying and voiding, stopped where the race is ------------------------

  lemma KeyTaken(rules: Rules, s: State, p: nat, q: Request, b: nat, x: nat)
    requires p in s.procs && s.procs[p] == HasBill(q, b) && q.Pay? && q.share == Some(x) && x in s.tables.shares
    requires Free(s.locks.shares, x, p)
    ensures Next(rules, s, p, 0, [])
         == To(Crediting(q, b), Keyed(rules, s.locks, p, x))
  {
  }

  lemma SnapshotTaken(rules: Rules, s: State, p: nat, q: Request, b: nat, x: nat)
    requires p in s.procs && s.procs[p] == Crediting(q, b) && q.Pay? && q.share == Some(x)
    requires x in s.tables.shares && s.tables.shares[x].split in s.tables.splits
    ensures Next(rules, s, p, 0, [])
         == To(WantsShare(q, b, x, Some(s.tables.splits[s.tables.shares[x].split])), s.locks)
  {
  }

  /** The locks once the foreign key has its share, where it takes one. */
  function Keyed(rules: Rules, l: Locks, p: nat, x: nat): Locks {
    if rules.keyShare then l.(shareKeys := l.shareKeys[p := x]) else l
  }

  /** The locks a payment has when its statement has seen the split and waits for the share. */
  function Looking(rules: Rules, l: Locks, p: nat, b: nat, x: nat): Locks {
    Keyed(rules, l.(bills := l.bills[b := p]), p, x)
  }

  /** A payment from the bill's lock to the snapshot of its share's split. */
  lemma PayRuns(rules: Rules, s: State, p: nat, q: Request, b: nat, x: nat)
    requires p in s.procs && s.procs[p] == WantsBill(q, b) && q.Pay? && q.share == Some(x) && b in s.tables.bills
    requires BillFree(s.locks, b, p) && Fits(s.tables, q, s.tables.bills[b]) && Free(s.locks.shares, x, p)
    requires x in s.tables.shares && s.tables.shares[x].split in s.tables.splits
    ensures After(rules, s, p, 3)
         == State(s.tables, Looking(rules, s.locks, p, b, x),
                  s.procs[p := WantsShare(q, b, x, Some(s.tables.splits[s.tables.shares[x].split]))])
  {
    hide Next, After, Fits, BillFree, Keyed;
    var d, locks := s.tables, s.locks.(bills := s.locks.bills[b := p]);
    var s2 := State(d, locks, s.procs[p := HasBill(q, b)]);
    var s3 := State(d, Looking(rules, s.locks, p, b, x), s.procs[p := Crediting(q, b)]);
    BeforeAnyStep(rules, s, p);
    BillIsFree(rules, s, p, q, b);
    AndThen(rules, s, p, 0, s, To(HasBill(q, b), locks));
    KeyTaken(rules, s2, p, q, b, x);
    AndThen(rules, s, p, 1, s2, To(Crediting(q, b), s3.locks));
    SnapshotTaken(rules, s3, p, q, b, x);
    AndThen(rules, s, p, 2, s3, To(WantsShare(q, b, x, Some(d.splits[d.shares[x].split])), s3.locks));
  }

  lemma PayLooks(rules: Rules, s: State, p: nat, q: Request, b: nat, x: nat) returns (es: seq<Event>)
    requires q.Pay? && q.bill == b && q.share == Some(x) && q.amount > 0 && p !in s.procs && b in s.tables.bills
    requires BillFree(s.locks, b, p) && Fits(s.tables, q, s.tables.bills[b]) && Free(s.locks.shares, x, p)
    requires x in s.tables.shares && s.tables.shares[x].split in s.tables.splits
    ensures Run(rules, s, es)
         == State(s.tables, Looking(rules, s.locks, p, b, x),
                  s.procs[p := WantsShare(q, b, x, Some(s.tables.splits[s.tables.shares[x].split]))])
  {
    hide Run, After, Fits, BillFree, Looking;
    var s1 := s.(procs := s.procs[p := WantsBill(q, b)]);
    es := ArrivesAndRuns(rules, s, p, q, 3);
    PayRuns(rules, s1, p, q, b, x);
    var seen := Some(s.tables.splits[s.tables.shares[x].split]);
    assert s1.procs[p := WantsShare(q, b, x, seen)] == s.procs[p := WantsShare(q, b, x, seen)];
  }

  lemma ShareTaken(rules: Rules, s: State, p: nat, q: Request, b: nat, x: nat, seen: Option<Split>)
    requires p in s.procs && s.procs[p] == WantsShare(q, b, x, seen) && q.Pay?
    requires ShareFree(s.locks, x, p) && !Refuses(s.tables, b, x, q.amount, seen)
    ensures Next(rules, s, p, 0, [])
         == To(Ready(q, Record(Payment(b, Some(x), q.amount, SUCCEEDED))), s.locks.(shares := s.locks.shares[x := p]))
  {
    hide Refuses;
  }

  /** And the rest of it. */
  lemma PayCredits(rules: Rules, s: State, p: nat, q: Request, b: nat, x: nat, seen: Option<Split>)
    returns (es: seq<Event>)
    requires p in s.procs && s.procs[p] == WantsShare(q, b, x, seen) && q.Pay?
    requires ShareFree(s.locks, x, p) && !Refuses(s.tables, b, x, q.amount, seen)
    ensures Run(rules, s, es)
         == State(Apply(s.tables, Record(Payment(b, Some(x), q.amount, SUCCEEDED))),
                  Released(s.locks.(shares := s.locks.shares[x := p]), p), s.procs[p := Done(q, true)])
  {
    hide Run, Next, After, Released, Apply, Refuses, ShareFree;
    var d, locks := s.tables, s.locks.(shares := s.locks.shares[x := p]);
    var record := Record(Payment(b, Some(x), q.amount, SUCCEEDED));
    var s2 := State(d, locks, s.procs[p := Ready(q, record)]);
    es := Steps(p, 2);
    StepsAreAfter(rules, s, p, 2);
    BeforeAnyStep(rules, s, p);
    ShareTaken(rules, s, p, q, b, x, seen);
    AndThen(rules, s, p, 0, s, To(Ready(q, record), locks));
    Writes(rules, s2, p, q, record);
    AndThen(rules, s, p, 1, s2, Commit(Apply(d, record)));
  }

  // ---- Voiding -------------------------------------------------------------

  lemma SplitTaken(rules: Rules, s: State, p: nat, q: Request, k: nat)
    requires p in s.procs && s.procs[p] == WantsSplit(q, None, k) && q.Discard?
    requires IsLive(s.tables, k, q.bill) && Free(s.locks.splits, k, p)
    ensures Next(rules, s, p, 0, []) == To(HasSplit(q, None, k), s.locks.(splits := s.locks.splits[k := p]))
  {
  }

  lemma NothingPaid(rules: Rules, s: State, p: nat, q: Request, k: nat)
    requires p in s.procs && s.procs[p] == HasSplit(q, None, k) && k in s.tables.splits
    requires !AnyPaid(s.tables, s.tables.splits[k].members)
    requires rules.discardLocks ==> AllFree(s.locks, s.tables.splits[k].members, p)
    ensures Next(rules, s, p, 0, []) == To(Summed(q, None, k), Summing(rules, s.locks, p, s.tables.splits[k].members))
  {
    hide AllFree, AnyPaid, LockAll;
  }

  function Summing(rules: Rules, l: Locks, p: nat, members: seq<nat>): Locks {
    if rules.discardLocks then l.(shares := LockAll(l.shares, members, p)) else l
  }

  lemma NothingComing(rules: Rules, s: State, p: nat, q: Request, k: nat)
    requires p in s.procs && s.procs[p] == Summed(q, None, k) && k in s.tables.splits
    requires !AnyPending(s.tables.payments, s.tables.splits[k].members)
    ensures Next(rules, s, p, 0, []) == To(Clear(q, None, Some(k)), s.locks)
  {
    hide AnyPending;
  }

  lemma SameShareLocks(l: Locks, m: Locks, members: seq<nat>, p: nat)
    requires m.shares == l.shares && m.shareKeys == l.shareKeys
    ensures AllFree(m, members, p) == AllFree(l, members, p)
  {
  }

  /** A voiding from its split's lock up to its last statement. */
  lemma VoidRuns(rules: Rules, s: State, p: nat, q: Request, k: nat)
    requires p in s.procs && s.procs[p] == WantsSplit(q, None, k) && q.Discard? && Free(s.locks.splits, k, p)
    requires k in s.tables.splits && IsLive(s.tables, k, q.bill)
    requires !AnyPaid(s.tables, s.tables.splits[k].members)
    requires !AnyPending(s.tables.payments, s.tables.splits[k].members)
    requires rules.discardLocks ==> AllFree(s.locks, s.tables.splits[k].members, p)
    ensures After(rules, s, p, 3)
         == State(s.tables, Summing(rules, s.locks.(splits := s.locks.splits[k := p]), p, s.tables.splits[k].members),
                  s.procs[p := Clear(q, None, Some(k))])
  {
    hide Next, After, Summing, AnyPaid, AnyPending, AllFree, IsLive;
    var d, locks := s.tables, s.locks.(splits := s.locks.splits[k := p]);
    var summing := Summing(rules, locks, p, d.splits[k].members);
    var s2 := State(d, locks, s.procs[p := HasSplit(q, None, k)]);
    var s3 := State(d, summing, s.procs[p := Summed(q, None, k)]);
    SameShareLocks(s.locks, locks, d.splits[k].members, p);
    BeforeAnyStep(rules, s, p);
    SplitTaken(rules, s, p, q, k);
    AndThen(rules, s, p, 0, s, To(HasSplit(q, None, k), locks));
    NothingPaid(rules, s2, p, q, k);
    AndThen(rules, s, p, 1, s2, To(Summed(q, None, k), summing));
    NothingComing(rules, s3, p, q, k);
    AndThen(rules, s, p, 2, s3, To(Clear(q, None, Some(k)), summing));
  }

  lemma VoidLooks(rules: Rules, s: State, p: nat, q: Request, k: nat) returns (es: seq<Event>)
    requires q.Discard? && q.split == k && p !in s.procs && Free(s.locks.splits, k, p)
    requires k in s.tables.splits && IsLive(s.tables, k, q.bill)
    requires !AnyPaid(s.tables, s.tables.splits[k].members)
    requires !AnyPending(s.tables.payments, s.tables.splits[k].members)
    requires rules.discardLocks ==> AllFree(s.locks, s.tables.splits[k].members, p)
    ensures Run(rules, s, es)
         == State(s.tables, Summing(rules, s.locks.(splits := s.locks.splits[k := p]), p, s.tables.splits[k].members),
                  s.procs[p := Clear(q, None, Some(k))])
  {
    hide Run, After, Summing, AnyPaid, AnyPending, AllFree, IsLive;
    var s1 := s.(procs := s.procs[p := WantsSplit(q, None, k)]);
    es := ArrivesAndRuns(rules, s, p, q, 3);
    VoidRuns(rules, s1, p, q, k);
    assert s1.procs[p := Clear(q, None, Some(k))] == s.procs[p := Clear(q, None, Some(k))];
  }

  lemma VoidCommits(rules: Rules, s: State, p: nat, q: Request, k: nat) returns (es: seq<Event>)
    requires p in s.procs && s.procs[p] == Clear(q, None, Some(k)) && q.Discard?
    ensures Run(rules, s, es)
         == State(s.tables.(splits := Void(s.tables, Some(k))), Released(s.locks, p), s.procs[p := Done(q, true)])
  {
    hide Run, Void, Released;
    es := [] + [Advance(p, 0, [])];
    NoEvents(rules, s);
    Proceeds(rules, s, [], s, p, 0, []);
  }

  // ---- A void plan with money ----------------------------------------------

  /** Split `k` of an open bill `b` is live, and its one share `x` unpaid. */
  predicate Unpaid(d: Tables, b: nat, k: nat, x: nat, amount: nat) {
    && IsLive(d, k, b) && d.splits[k].members == [x] && x in d.shares && d.shares[x] == Share(k, amount, 0)
    && amount > 0 && d.payments == [] && b in d.bills && d.bills[b].open && Paid(d.bills[b]) + amount <= d.bills[b].due
  }

  predicate VoidWithMoney(d: Tables, k: nat, x: nat, amount: nat) {
    k in d.splits && d.splits[k].status == VOID && x in d.shares && d.shares[x] == Share(k, amount, amount)
  }

  lemma NothingOnIt(d: Tables, b: nat, k: nat, x: nat, amount: nat)
    requires Unpaid(d, b, k, x, amount)
    ensures !AnyPaid(d, d.splits[k].members) && !AnyPending(d.payments, d.splits[k].members)
    ensures Fits(d, Pay(b, Some(x), amount), d.bills[b]) && !Refuses(d, b, x, amount, Some(d.splits[k]))
  {
  }

  /** Credited first and voided after, or voided first and credited after: it comes to the same. */
  lemma EitherOrder(d: Tables, b: nat, k: nat, x: nat, amount: nat)
    requires Unpaid(d, b, k, x, amount)
    ensures var record := Record(Payment(b, Some(x), amount, SUCCEEDED));
            var e, f := Apply(d, record), d.(splits := Void(d, Some(k)));
            && VoidWithMoney(e.(splits := Void(e, Some(k))), k, x, amount)
            && !Refuses(f, b, x, amount, Some(d.splits[k]))
            && VoidWithMoney(Apply(f, record), k, x, amount)
  {
  }

  /** Without the voiding's own share locks: it sums, a payment lands, it voids. */
  lemma SumThenPayThenVoid(s: State, b: nat, k: nat, x: nat, amount: nat) returns (es: seq<Event>)
    requires s.locks == Idle && 2 !in s.procs && 3 !in s.procs && Unpaid(s.tables, b, k, x, amount)
    ensures VoidWithMoney(Run(Rules(true, false), s, es).tables, k, x, amount)
  {
    hide Run, Unpaid, VoidWithMoney, Refuses, Fits, AnyPaid, AnyPending, Released, Apply, Void;
    var rules, d, pay := Rules(true, false), s.tables, Pay(b, Some(x), amount);
    NothingOnIt(d, b, k, x, amount);
    UnpaidRows(d, b, k, x, amount);
    var one := VoidLooks(rules, s, 3, Discard(b, k), k);
    var s1 := Run(rules, s, one);
    var two := PayLooks(rules, s1, 2, pay, b, x);
    var s2 := Run(rules, s1, two);
    var three := PayCredits(rules, s2, 2, pay, b, x, Some(d.splits[k]));
    var s3 := Run(rules, s2, three);
    var four := VoidCommits(rules, s3, 3, Discard(b, k), k);
    EitherOrder(d, b, k, x, amount);
    FourParts(rules, s, one, two, three, four);
    es := one + two + three + four;
  }

  lemma UnpaidRows(d: Tables, b: nat, k: nat, x: nat, amount: nat)
    requires Unpaid(d, b, k, x, amount)
    ensures IsLive(d, k, b) && amount > 0 && b in d.bills && d.splits[k].members == [x]
    ensures x in d.shares && d.shares[x].split == k
  {
  }

  lemma FourParts(rules: Rules, s: State, a: seq<Event>, b: seq<Event>, c: seq<Event>, d: seq<Event>)
    ensures Run(rules, s, a + b + c + d) == Run(rules, Run(rules, Run(rules, Run(rules, s, a), b), c), d)
  {
    hide Run;
    RunsOn(rules, s, a, b);
    RunsOn(rules, s, a + b, c);
    RunsOn(rules, s, a + b + c, d);
  }

  /**
   * Without the key a payment's foreign key holds: it looks while the plan is
   * ACTIVE, waits for its share while the plan is voided, and credits it.
   */
  lemma LookThenVoidThenPay(s: State, b: nat, k: nat, x: nat, amount: nat) returns (es: seq<Event>)
    requires s.locks == Idle && 2 !in s.procs && 3 !in s.procs && Unpaid(s.tables, b, k, x, amount)
    ensures VoidWithMoney(Run(Rules(false, true), s, es).tables, k, x, amount)
  {
    hide Run, Unpaid, VoidWithMoney, Refuses, Fits, AnyPaid, AnyPending, Apply, Void;
    var rules, d, pay := Rules(false, true), s.tables, Pay(b, Some(x), amount);
    NothingOnIt(d, b, k, x, amount);
    UnpaidRows(d, b, k, x, amount);
    var one := PayLooks(rules, s, 2, pay, b, x);
    var s1 := Run(rules, s, one);
    var two := VoidLooks(rules, s1, 3, Discard(b, k), k);
    var s2 := Run(rules, s1, two);
    var three := VoidCommits(rules, s2, 3, Discard(b, k), k);
    var s3 := Run(rules, s2, three);
    EitherOrder(d, b, k, x, amount);
    var four := PayCredits(rules, s3, 2, pay, b, x, Some(d.splits[k]));
    FourParts(rules, s, one, two, three, four);
    es := one + two + three + four;
  }

  /** A bill of a hundred, planned whole and unpaid. */
  lemma PlansTheWhole(rules: Rules) returns (es: seq<Event>, t: State)
    ensures Run(rules, Start7, es) == t && t.locks == Idle && t.procs == map[1 := Done(Whole, true)]
    ensures Unpaid(t.tables, 7, 50, 60, 100)
  {
    hide Run, Planned;
    var first, s := ReadsTheBill(rules);
    var second, m := Agrees(rules, s);
    t := m;
    RunsOn(rules, Start7, first, second);
    PlannedIsUnpaid(s.tables);
    assert s.procs[1 := Done(Whole, true)] == map[1 := Done(Whole, true)];
    es := first + second;
  }

  lemma PlannedIsUnpaid(d: Tables)
    requires 7 in d.bills && d.bills[7] == Row && d.payments == []
    ensures Unpaid(Planned(d), 7, 50, 60, 100)
  {
  }

  /** Without the voiding's own share locks a voided plan can hold money. */
  lemma UnlockedSumVoidsMoney() returns (es: seq<Event>)
    ensures VoidWithMoney(Run(Rules(true, false), Start7, es).tables, 50, 60, 100)
  {
    hide Run, Unpaid, VoidWithMoney;
    var first, s := PlansTheWhole(Rules(true, false));
    var second := SumThenPayThenVoid(s, 7, 50, 60, 100);
    RunsOn(Rules(true, false), Start7, first, second);
    es := first + second;
  }

  /** Without the foreign key's lock a payment's old snapshot pays a voided plan. */
  lemma StaleSnapshotPaysTheVoid() returns (es: seq<Event>)
    ensures VoidWithMoney(Run(Rules(false, true), Start7, es).tables, 50, 60, 100)
  {
    hide Run, Unpaid, VoidWithMoney;
    var first, s := PlansTheWhole(Rules(false, true));
    var second := LookThenVoidThenPay(s, 7, 50, 60, 100);
    RunsOn(Rules(false, true), Start7, first, second);
    es := first + second;
  }

  // ---- A claim against a voided plan ---------------------------------------

  lemma ClaimNamesIt(rules: Rules, s: State, p: nat, q: Request, b: nat, x: nat)
    requires p in s.procs && s.procs[p] == HasBill(q, b) && q.Declare? && q.share == Some(x) && x in s.tables.shares
    requires rules.keyShare && Free(s.locks.shares, x, p)
    ensures Next(rules, s, p, 0, [])
         == To(Ready(q, Record(Payment(b, Some(x), q.amount, PENDING))),
               s.locks.(shareKeys := s.locks.shareKeys[p := x]))
  {
  }

  lemma ClaimRuns(s: State, p: nat, q: Request, b: nat, x: nat) returns (es: seq<Event>)
    requires q.Declare? && q.bill == b && q.share == Some(x) && q.amount > 0 && p !in s.procs && b in s.tables.bills
    requires s.locks == Idle && Fits(s.tables, q, s.tables.bills[b]) && x in s.tables.shares
    ensures Run(AsBuilt, s, es).tables
         == s.tables.(payments := s.tables.payments + [Payment(b, Some(x), q.amount, PENDING)])
  {
    hide Run, Next, After, Fits, Released;
    var d, record := s.tables, Record(Payment(b, Some(x), q.amount, PENDING));
    var locks := s.locks.(bills := s.locks.bills[b := p]);
    var keyed := locks.(shareKeys := locks.shareKeys[p := x]);
    var s1, s2 := State(d, s.locks, s.procs[p := WantsBill(q, b)]), State(d, locks, s.procs[p := HasBill(q, b)]);
    var s3 := State(d, keyed, s.procs[p := Ready(q, record)]);
    es := ArrivesAndRuns(AsBuilt, s, p, q, 3);
    BeforeAnyStep(AsBuilt, s1, p);
    BillIsFree(AsBuilt, s1, p, q, b);
    AndThen(AsBuilt, s1, p, 0, s1, To(HasBill(q, b), locks));
    ClaimNamesIt(AsBuilt, s2, p, q, b, x);
    AndThen(AsBuilt, s1, p, 1, s2, To(Ready(q, record), keyed));
    Writes(AsBuilt, s3, p, q, record);
    AndThen(AsBuilt, s1, p, 2, s3, Commit(Apply(d, record)));
  }

  lemma OnlyTheSplit(l: Locks, p: nat, k: nat, members: seq<nat>)
    requires l == Idle
    ensures Released(Summing(AsBuilt, l.(splits := l.splits[k := p]), p, members), p) == Idle
  {
  }

  /** `declareClaim` does not look at the plan: a voided one can be named by a claim that came later. */
  lemma ClaimOnTheVoid() returns (es: seq<Event>)
    ensures var d := Run(AsBuilt, Start7, es).tables;
            && 50 in d.splits && d.splits[50].status == VOID
            && |d.payments| == 1 && NamesOne(d.payments[0], d.splits[50].members)
  {
    hide Run, Unpaid, Fits, AnyPaid, AnyPending, Released, Summing, Void;
    var first, s := PlansTheWhole(AsBuilt);
    NothingOnIt(s.tables, 7, 50, 60, 100);
    UnpaidRows(s.tables, 7, 50, 60, 100);
    var one := VoidLooks(AsBuilt, s, 3, Discard(7, 50), 50);
    var s1 := Run(AsBuilt, s, one);
    var two := VoidCommits(AsBuilt, s1, 3, Discard(7, 50), 50);
    var s2 := Run(AsBuilt, s1, two);
    OnlyTheSplit(s.locks, 3, 50, [60]);
    VoidedTables(s.tables, 7, 50, 60, 100);
    var three := ClaimRuns(s2, 2, Declare(7, Some(60), 100), 7, 60);
    FourParts(AsBuilt, Start7, first, one, two, three);
    es := first + one + two + three;
  }

  lemma VoidedTables(d: Tables, b: nat, k: nat, x: nat, amount: nat)
    requires Unpaid(d, b, k, x, amount)
    ensures var e := d.(splits := Void(d, Some(k)));
            && k in e.splits && e.splits[k].status == VOID && e.splits[k].members == [x] && e.payments == []
            && Fits(e, Declare(b, Some(x), amount), e.bills[b])
  {
  }
}
