/**
 * The migration runner (scripts/migrate.js) over `withTransaction`
 * (src/connectors/base.js).
 *
 * Files are numbered in the order they sort. Any number of runners start and
 * die at any step. A file that holds its own COMMIT ends the runner's
 * transaction there: its SQL is in, and the ledger row follows on its own. The
 * advisory lock sits on a session of its own, which can be lost while the runner
 * goes on.
 */
module Migrate {
  import opened Wrappers

  /** How many files, which of them commit themselves, and whether runners take the advisory lock. */
  datatype Setting = Setting(files: nat, selfCommits: set<nat>, locked: bool)

  datatype Runner =
    | WantsLock
    | Checking(file: nat)
    | Absent(file: nat)      // not in the ledger when it looked
    | Ran(file: nat)         // its SQL executed
    | Inserted(file: nat)    // its ledger row written, not committed
    | Finished
    | KeyTaken(file: nat)    // failed on the ledger's primary key
    | Crashed

  /** `applied` is the SQL that took effect, in order. */
  datatype State = State(ledger: set<nat>, applied: seq<nat>, lock: Option<nat>, runners: map<nat, Runner>)

  datatype Event = Start(p: nat) | Advance(p: nat) | Crash(p: nat) | DropLock(p: nat)

  function Goto(s: State, p: nat, at: Runner): State { s.(runners := s.runners[p := at]) }

  /** The session ends: what it had not committed is gone, and so is its lock. */
  function Leave(s: State, p: nat, at: Runner): State {
    Goto(s, p, at).(lock := if s.lock == Some(p) then None else s.lock)
  }

  predicate Pending(s: State, p: nat, file: nat) {
    exists o :: o in s.runners && o != p && s.runners[o] == Inserted(file)
  }

  function Step(g: Setting, s: State, p: nat): State {
    if p !in s.runners then s
    else
      match s.runners[p]
      case WantsLock =>
        if !g.locked then Goto(s, p, Checking(0))
        else if s.lock.Some? then s
        else Goto(s, p, Checking(0)).(lock := Some(p))
      case Checking(f) =>
        if f >= g.files then Leave(s, p, Finished)
        else if f in s.ledger then Goto(s, p, Checking(f + 1))
        else Goto(s, p, Absent(f))
      case Absent(f) => Goto(s, p, Ran(f)).(applied := if f in g.selfCommits then s.applied + [f] else s.applied)
      case Ran(f) =>
        if f in s.ledger then Leave(s, p, KeyTaken(f))
        else if Pending(s, p, f) then s
        else if f in g.selfCommits then Goto(s, p, Checking(f + 1)).(ledger := s.ledger + {f})
        else Goto(s, p, Inserted(f))
      case Inserted(f) => Goto(s, p, Checking(f + 1)).(ledger := s.ledger + {f}, applied := s.applied + [f])
      case _ => s
  }

  function Exec(g: Setting, s: State, e: Event): State {
    match e
    case Start(p) => if p in s.runners then s else Goto(s, p, WantsLock)
    case Advance(p) => Step(g, s, p)
    case Crash(p) =>
      if p in s.runners && !(s.runners[p].Finished? || s.runners[p].KeyTaken?) then Leave(s, p, Crashed) else s
    case DropLock(p) => if s.lock == Some(p) then s.(lock := None) else s
  }

  ghost function Run(g: Setting, s: State, es: seq<Event>): State {
    if es == [] then s else Exec(g, Run(g, s, es[..|es| - 1]), es[|es| - 1])
  }

  const Initial: State := State({}, [], None, map[])

  function Times(applied: seq<nat>, f: nat): nat {
    if applied == [] then 0
    else
      var n := |applied| - 1;
      Times(applied[..n], f) + if applied[n] == f then 1 else 0
  }

  lemma TimesPush(applied: seq<nat>, f: nat, g: nat)
    ensures Times(applied + [g], f) == Times(applied, f) + if g == f then 1 else 0
  {
    assert (applied + [g])[..|applied|] == applied;
  }

  // ---- The ledger is a prefix ----------------------------------------------

  /** Everything before `f` is in the ledger. */
  predicate DoneBefore(s: State, f: nat) { forall j :: 0 <= j < f ==> j in s.ledger }

  predicate Working(r: Runner) { r.Checking? || r.Absent? || r.Ran? || r.Inserted? }

  predicate RunnerOk(g: Setting, s: State, r: Runner) {
    Working(r) ==> DoneBefore(s, r.file) && (r.file < g.files || r.Checking?)
  }

  ghost predicate InOrder(g: Setting, s: State) {
    && (forall f, j :: f in s.ledger && 0 <= j < f ==> j in s.ledger)
    && (forall f :: f in s.ledger ==> f < g.files)
    && (forall p :: p in s.runners ==> RunnerOk(g, s, s.runners[p]))
  }

  lemma StepInOrder(g: Setting, s: State, e: Event)
    requires InOrder(g, s)
    ensures InOrder(g, Exec(g, s, e)) && s.ledger <= Exec(g, s, e).ledger
  {
    var t := Exec(g, s, e);
    assert e.p in s.runners ==> RunnerOk(g, s, s.runners[e.p]);
    forall p | p in t.runners ensures RunnerOk(g, t, t.runners[p]) {
      assert p in s.runners ==> RunnerOk(g, s, s.runners[p]);
    }
  }

  /** With or without the lock, whoever crashes: the ledger is the first so many files. */
  lemma {:induction false} LedgerIsAPrefix(g: Setting, es: seq<Event>)
    ensures InOrder(g, Run(g, Initial, es))
  {
    if es != [] {
      hide InOrder, Exec;
      LedgerIsAPrefix(g, es[..|es| - 1]);
      StepInOrder(g, Run(g, Initial, es[..|es| - 1]), es[|es| - 1]);
    } else {
      assert InOrder(g, Initial);
    }
  }

  // ---- Exactly once --------------------------------------------------------

  ghost predicate Once(s: State) {
    && (forall f :: Times(s.applied, f) == if f in s.ledger then 1 else 0)
    && (forall p :: p in s.runners && s.runners[p].Inserted? ==>
          s.runners[p].file !in s.ledger && !Pending(s, p, s.runners[p].file))
  }

  lemma StepOnce(g: Setting, s: State, e: Event)
    requires Once(s) && g.selfCommits == {}
    ensures Once(Exec(g, s, e))
  {
    var t := Exec(g, s, e);
    if e.Advance? && e.p in s.runners && s.runners[e.p].Inserted? {
      forall f ensures Times(t.applied, f) == if f in t.ledger then 1 else 0 {
        TimesPush(s.applied, f, s.runners[e.p].file);
      }
    }
    forall p | p in t.runners && t.runners[p].Inserted?
      ensures t.runners[p].file !in t.ledger && !Pending(t, p, t.runners[p].file)
    {
      StillAlone(g, s, e, p);
    }
  }

  lemma StillAlone(g: Setting, s: State, e: Event, p: nat)
    requires Once(s) && g.selfCommits == {} && p in Exec(g, s, e).runners && Exec(g, s, e).runners[p].Inserted?
    ensures var t := Exec(g, s, e); t.runners[p].file !in t.ledger && !Pending(t, p, t.runners[p].file)
  {
    var t := Exec(g, s, e);
    var f := t.runners[p].file;
    forall o | o in t.runners && o != p ensures t.runners[o] != Inserted(f) {
      assert p in s.runners && s.runners[p] == Inserted(f) ==> !Pending(s, p, f);
      assert o in s.runners && s.runners[o] == Inserted(f) ==> !Pending(s, o, f);
    }
  }

  /** If no file commits itself, a file's SQL is in effect once if it is in the ledger, and not at all if it is not. */
  lemma {:induction false} ExactlyOnce(g: Setting, es: seq<Event>)
    requires g.selfCommits == {}
    ensures Once(Run(g, Initial, es))
  {
    if es != [] {
      hide Once, Exec;
      ExactlyOnce(g, es[..|es| - 1]);
      StepOnce(g, Run(g, Initial, es[..|es| - 1]), es[|es| - 1]);
    }
  }

  /** The files in effect, in their order: the first so many, each once. */
  ghost predicate AppliedInOrder(s: State) {
    && (forall i :: 0 <= i < |s.applied| ==> s.applied[i] == i)
    && (forall f :: f in s.ledger <==> 0 <= f < |s.applied|)
  }

  lemma StepInSequence(g: Setting, s: State, e: Event)
    requires InOrder(g, s) && Once(s) && AppliedInOrder(s) && g.selfCommits == {}
    ensures AppliedInOrder(Exec(g, s, e))
  {
    if e.Advance? && e.p in s.runners && s.runners[e.p].Inserted? {
      var f := s.runners[e.p].file;
      assert RunnerOk(g, s, s.runners[e.p]);
      assert f !in s.ledger && DoneBefore(s, f);
      assert |s.applied| !in s.ledger;
    }
  }

  /** If no file commits itself, what is in effect is the files of the ledger, from the first on and in order. */
  lemma {:induction false} FilesApplyInOrder(g: Setting, es: seq<Event>)
    requires g.selfCommits == {}
    ensures AppliedInOrder(Run(g, Initial, es))
  {
    if es != [] {
      hide AppliedInOrder, InOrder, Once, Exec;
      FilesApplyInOrder(g, es[..|es| - 1]);
      LedgerIsAPrefix(g, es[..|es| - 1]);
      ExactlyOnce(g, es[..|es| - 1]);
      StepInSequence(g, Run(g, Initial, es[..|es| - 1]), es[|es| - 1]);
    }
  }

  ghost predicate FinishedAll(g: Setting, s: State) {
    forall p :: p in s.runners && s.runners[p].Finished? ==> forall f :: 0 <= f < g.files ==> f in s.ledger
  }

  /** A runner that ends well has left every file in the ledger, whoever applied it. */
  lemma {:induction false} FinishedMeansAll(g: Setting, es: seq<Event>)
    ensures FinishedAll(g, Run(g, Initial, es))
  {
    if es != [] {
      var s, e := Run(g, Initial, es[..|es| - 1]), es[|es| - 1];
      FinishedMeansAll(g, es[..|es| - 1]);
      LedgerIsAPrefix(g, es[..|es| - 1]);
      hide Run;
      StepInOrder(g, s, e);
      StepFinishes(g, s, e);
    }
  }

  lemma StepFinishes(g: Setting, s: State, e: Event)
    requires InOrder(g, s) && FinishedAll(g, s) && s.ledger <= Exec(g, s, e).ledger
    ensures FinishedAll(g, Exec(g, s, e))
  {
    var t := Exec(g, s, e);
    forall p | p in t.runners && t.runners[p].Finished? ensures forall f :: 0 <= f < g.files ==> f in t.ledger {
      if p in s.runners {
        assert RunnerOk(g, s, s.runners[p]);
      }
    }
  }

  // ---- What the lock adds --------------------------------------------------

  ghost predicate OneAtWork(s: State) {
    && (forall p :: p in s.runners && Working(s.runners[p]) ==> s.lock == Some(p))
    && (forall p :: p in s.runners && (s.runners[p].Absent? || s.runners[p].Ran? || s.runners[p].Inserted?) ==>
          s.runners[p].file !in s.ledger)
    && (forall p :: p in s.runners ==> !s.runners[p].KeyTaken?)
  }

  lemma StepOneAtWork(g: Setting, s: State, e: Event)
    requires OneAtWork(s) && g.locked && !e.DropLock?
    ensures OneAtWork(Exec(g, s, e))
  {
  }

  /** While no lock is lost no runner ever fails on the ledger's key, self-committing files or not. */
  lemma {:induction false} NoKeyIsTaken(g: Setting, es: seq<Event>)
    requires g.locked && forall i :: 0 <= i < |es| ==> !es[i].DropLock?
    ensures OneAtWork(Run(g, Initial, es))
  {
    if es != [] {
      hide OneAtWork, Exec;
      NoKeyIsTaken(g, es[..|es| - 1]);
      StepOneAtWork(g, Run(g, Initial, es[..|es| - 1]), es[|es| - 1]);
    } else {
      assert OneAtWork(Initial);
    }
  }

  // ---- What a file's own COMMIT costs --------------------------------------

  lemma OneEvent(g: Setting, s: State, e: Event)
    ensures Run(g, s, [e]) == Exec(g, s, e)
  {
    hide Exec;
    assert [e][..0] == [];
    assert Run(g, s, []) == s;
  }

  lemma {:induction false} Append(g: Setting, s: State, a: seq<Event>, b: seq<Event>)
    ensures Run(g, s, a + b) == Run(g, Run(g, s, a), b)
  {
    hide Exec;
    if b == [] {
      assert a + b == a;
    } else {
      assert (a + b)[..|a + b| - 1] == a + b[..|b| - 1];
      Append(g, s, a, b[..|b| - 1]);
    }
  }

  lemma Twice(g: Setting, s: State, e: Event, f: Event)
    ensures Run(g, s, [e, f]) == Exec(g, Exec(g, s, e), f)
  {
    hide Exec;
    OneEvent(g, s, e);
    OneEvent(g, Exec(g, s, e), f);
    Append(g, s, [e], [f]);
    assert [e] + [f] == [e, f];
  }

  /** A new runner, up to the point where it has run the first file. */
  lemma RunsTheFirst(g: Setting, s: State, p: nat) returns (es: seq<Event>)
    requires g.locked && g.files > 0 && 0 !in g.selfCommits && p !in s.runners && s.lock == None && 0 !in s.ledger
    ensures Run(g, s, es) == Goto(s, p, Ran(0)).(lock := Some(p))
  {
    hide Run;
    var s1, s2 := Goto(s, p, Checking(0)).(lock := Some(p)), Goto(s, p, Ran(0)).(lock := Some(p));
    assert Exec(g, Exec(g, s, Start(p)), Advance(p)) == s1;
    assert Exec(g, Exec(g, s1, Advance(p)), Advance(p)) == s2;
    hide Exec;
    Twice(g, s, Start(p), Advance(p));
    Twice(g, s1, Advance(p), Advance(p));
    Append(g, s, [Start(p), Advance(p)], [Advance(p), Advance(p)]);
    es := [Start(p), Advance(p)] + [Advance(p), Advance(p)];
  }

  /** When one is lost, two runners apply the same file, and the later fails on the ledger's key. */
  lemma DroppedLockTakesAKey(g: Setting) returns (es: seq<Event>)
    requires g.locked && g.files > 0 && 0 !in g.selfCommits
    ensures var s := Run(g, Initial, es); 1 in s.runners && s.runners[1] == KeyTaken(0)
  {
    hide Run;
    var first := RunsTheFirst(g, Initial, 1);
    var s1 := Run(g, Initial, first);
    OneEvent(g, s1, DropLock(1));
    var s2 := Exec(g, s1, DropLock(1));
    var second := RunsTheFirst(g, s2, 2);
    var s3 := Run(g, s2, second);
    var third := RecordsFile(g, s3, 2, 0);
    var s4 := Run(g, s3, third);
    OneEvent(g, s4, Advance(1));
    Append(g, Initial, first, [DropLock(1)]);
    Append(g, Initial, first + [DropLock(1)], second);
    Append(g, Initial, first + [DropLock(1)] + second, third);
    Append(g, Initial, first + [DropLock(1)] + second + third, [Advance(1)]);
    es := first + [DropLock(1)] + second + third + [Advance(1)];
  }

  /** A runner that nobody is in the way of. */
  predicate Alone(s: State, p: nat) {
    p in s.runners && forall o :: o in s.runners && o != p ==> !s.runners[o].Inserted?
  }

  /** It has dealt with everything before `f` and nothing else differs. */
  ghost predicate Got(s: State, t: State, p: nat, f: nat) {
    && p in t.runners && t.runners == s.runners[p := Checking(f)] && t.lock == s.lock
    && s.ledger <= t.ledger && (forall x :: x in t.ledger && x !in s.ledger ==> x < f)
    && (forall x: nat :: x >= f ==> Times(t.applied, x) == Times(s.applied, x))
  }

  lemma TimesAbove(applied: seq<nat>, f: nat)
    ensures forall x: nat :: x > f ==> Times(applied + [f], x) == Times(applied, x)
  {
    forall x: nat | x > f ensures Times(applied + [f], x) == Times(applied, x) {
      TimesPush(applied, x, f);
    }
  }

  lemma OneFile(g: Setting, s: State, p: nat, f: nat) returns (es: seq<Event>)
    requires Alone(s, p) && s.runners[p] == Checking(f) && f < g.files
    ensures Got(s, Run(g, s, es), p, f + 1)
  {
    hide Run, Times;
    var a := Advance(p);
    if f in s.ledger {
      OneEvent(g, s, a);
      es := [a];
    } else {
      var s2 := Goto(s, p, Ran(f)).(applied := if f in g.selfCommits then s.applied + [f] else s.applied);
      assert Exec(g, Exec(g, s, a), a) == s2;
      Twice(g, s, a, a);
      TimesAbove(s.applied, f);
      var last := RecordsFile(g, s2, p, f);
      hide Exec;
      Append(g, s, [a, a], last);
      es := [a, a] + last;
      assert s2.runners[p := Checking(f + 1)] == s.runners[p := Checking(f + 1)];
    }
  }

  lemma RecordsFile(g: Setting, s: State, p: nat, f: nat) returns (es: seq<Event>)
    requires Alone(s, p) && s.runners[p] == Ran(f) && f !in s.ledger
    ensures var t := Run(g, s, es);
            && t.runners == s.runners[p := Checking(f + 1)] && t.ledger == s.ledger + {f} && t.lock == s.lock
            && t.applied == if f in g.selfCommits then s.applied else s.applied + [f]
  {
    hide Run, Times;
    var a := Advance(p);
    if f in g.selfCommits {
      OneEvent(g, s, a);
      es := [a];
    } else {
      Twice(g, s, a, a);
      es := [a, a];
    }
  }

  lemma {:induction false} Reaches(g: Setting, s: State, p: nat, f: nat) returns (es: seq<Event>)
    requires Alone(s, p) && s.runners[p] == Checking(0) && f <= g.files
    ensures Got(s, Run(g, s, es), p, f)
  {
    if f == 0 {
      es := [];
      assert s.runners == s.runners[p := Checking(0)];
    } else {
      hide Run;
      var first := Reaches(g, s, p, f - 1);
      var m := Run(g, s, first);
      assert Alone(m, p);
      var rest := OneFile(g, m, p, f - 1);
      Append(g, s, first, rest);
      es := first + rest;
      assert m.runners[p := Checking(f)] == s.runners[p := Checking(f)];
    }
  }

  /** Left alone, a new runner ends well. */
  lemma AloneItFinishes(g: Setting, s: State, p: nat) returns (es: seq<Event>)
    requires p !in s.runners && s.lock == None && forall o :: o in s.runners ==> !s.runners[o].Inserted?
    ensures var t := Run(g, s, es); p in t.runners && t.runners[p] == Finished && t.lock == None
  {
    hide Run;
    var s1 := Exec(g, Exec(g, s, Start(p)), Advance(p));
    Twice(g, s, Start(p), Advance(p));
    assert s1.runners == s.runners[p := Checking(0)];
    var first := Reaches(g, s1, p, g.files);
    OneEvent(g, Run(g, s1, first), Advance(p));
    Append(g, s, [Start(p), Advance(p)], first);
    Append(g, s, [Start(p), Advance(p)] + first, [Advance(p)]);
    es := [Start(p), Advance(p)] + first + [Advance(p)];
  }

  /** A new runner gets as far as running file `f`, which commits itself. */
  lemma RunsIt(g: Setting, s: State, p: nat, f: nat) returns (es: seq<Event>)
    requires p !in s.runners && s.lock == None && f in g.selfCommits && f < g.files && f !in s.ledger
    requires forall o :: o in s.runners ==> !s.runners[o].Inserted?
    ensures var t := Run(g, s, es);
            && t.runners == s.runners[p := Ran(f)] && f !in t.ledger && t.lock == (if g.locked then Some(p) else None)
            && Times(t.applied, f) == Times(s.applied, f) + 1
  {
    hide Run;
    var s1 := Exec(g, Exec(g, s, Start(p)), Advance(p));
    Twice(g, s, Start(p), Advance(p));
    assert s1.runners == s.runners[p := Checking(0)];
    var first := Reaches(g, s1, p, f);
    var s2 := Run(g, s1, first);
    var s3 := Exec(g, Exec(g, s2, Advance(p)), Advance(p));
    assert f !in s2.ledger;
    TimesPush(s2.applied, f, f);
    assert s3.applied == s2.applied + [f];
    Twice(g, s2, Advance(p), Advance(p));
    Append(g, s, [Start(p), Advance(p)], first);
    Append(g, s, [Start(p), Advance(p)] + first, [Advance(p), Advance(p)]);
    es := [Start(p), Advance(p)] + first + [Advance(p), Advance(p)];
    assert s3.runners == s.runners[p := Ran(f)];
  }

  /** The process dies after the file's COMMIT and before its ledger row; the next deploy runs the file again. */
  lemma SelfCommitRunsTwice(g: Setting, f: nat) returns (es: seq<Event>)
    requires f in g.selfCommits && f < g.files
    ensures Times(Run(g, Initial, es).applied, f) == 2
  {
    hide Run;
    var first := RunsIt(g, Initial, 1, f);
    var s1 := Run(g, Initial, first);
    OneEvent(g, s1, Crash(1));
    var s2 := Exec(g, s1, Crash(1));
    var second := RunsIt(g, s2, 2, f);
    Append(g, Initial, first, [Crash(1)]);
    Append(g, Initial, first + [Crash(1)], second);
    es := first + [Crash(1)] + second;
  }

  ghost predicate AtMostOnce(g: Setting) {
    forall es: seq<Event>, f: nat :: Times(Run(g, Initial, es).applied, f) <= 1
  }

  /** "Either the whole file and its ledger row land, or neither does" holds exactly when no file commits itself. */
  lemma AtMostOnceIffNoneCommitsItself(g: Setting)
    requires forall f :: f in g.selfCommits ==> f < g.files
    ensures AtMostOnce(g) <==> g.selfCommits == {}
  {
    if g.selfCommits == {} {
      forall es: seq<Event>, f: nat ensures Times(Run(g, Initial, es).applied, f) <= 1 {
        ExactlyOnce(g, es);
      }
    } else {
      var f :| f in g.selfCommits;
      var es := SelfCommitRunsTwice(g, f);
      assert !AtMostOnce(g);
    }
  }

  // ---- The runner's own loop -----------------------------------------------

  /** The files from `f` on that are not in the ledger, in order. */
  function Missing(ledger: set<nat>, f: nat, files: nat): seq<nat>
    requires f <= files
    decreases files - f
  {
    if f == files then []
    else (if f in ledger then [] else [f]) + Missing(ledger, f + 1, files)
  }

  function Upto(n: nat): (r: set<nat>)
    ensures forall f: nat :: f in r <==> f < n
  {
    if n == 0 then {} else Upto(n - 1) + {n - 1}
  }

  /** The database as one undisturbed runner sees it. */
  class Database {
    var ledger: set<nat>
    var applied: seq<nat>

    /** One file's transaction: its SQL and its ledger row, or neither. */
    method ApplyFile(file: nat, fails: bool) returns (ok: bool)
      requires file !in ledger
      modifies this
      ensures ok == !fails
      ensures ok ==> ledger == old(ledger) + {file} && applied == old(applied) + [file]
      ensures !ok ==> ledger == old(ledger) && applied == old(applied)
    {
      if fails { return false; }
      applied := applied + [file];
      ledger := ledger + {file};
      ok := true;
    }

    /** `run`: every file not in the ledger, in order, until one fails; `bad` are the files whose SQL fails. */
    method RunAll(files: nat, bad: set<nat>) returns (ok: bool)
      modifies this
      ensures ok <==> forall f :: 0 <= f < files && f !in old(ledger) ==> f !in bad
      ensures ok ==> applied == old(applied) + Missing(old(ledger), 0, files) && ledger == old(ledger) + Upto(files)
      ensures old(applied) <= applied && old(ledger) <= ledger
      ensures (forall f :: f in old(ledger) && f > 0 ==> f - 1 in old(ledger)) ==>
                forall f :: f in ledger && f > 0 ==> f - 1 in ledger
    {
      ghost var was, log := ledger, applied;
      for file := 0 to files
        invariant ledger == was + Upto(file)
        invariant log <= applied && applied + Missing(was, file, files) == log + Missing(was, 0, files)
        invariant forall f :: 0 <= f < file && f !in was ==> f !in bad
      {
        if file in ledger {
          continue;
        }
        var applies := ApplyFile(file, file in bad);
        if !applies {
          return false;
        }
        assert applied + Missing(was, file + 1, files)
            == applied[..|applied| - 1] + ([file] + Missing(was, file + 1, files));
      }
      ok := true;
    }
  }
}
