/**
 * The numbers of a restaurant's fiscal documents (src/services/fiscalNumbering.js,
 * `fiscalSeries` in src/dto.js, PUT /fiscal-series in src/routes/account.js).
 *
 * One restaurant. Issuing transactions read the series, lock the control
 * counter, then the counter of their document type, and commit the numbers with
 * the document or not at all. Editing the series reads what was issued and then
 * writes, and takes no lock.
 */
module FiscalNumbering {
  import opened Wrappers
  import opened Decimals

  // ---- Printed numbers -----------------------------------------------------

  function Format(prefix: string, n: nat, padTo: nat): string {
    prefix + PadStart(Digits(n), padTo)
  }

  /** Two different numbers never print alike, beyond the width as well as within it. */
  lemma PrintedFormsDiffer(prefix: string, a: nat, b: nat, padTo: nat)
    requires Format(prefix, a, padTo) == Format(prefix, b, padTo)
    ensures a == b
  {
    var x, y := PadStart(Digits(a), padTo), PadStart(Digits(b), padTo);
    assert Format(prefix, a, padTo)[|prefix|..] == x && Format(prefix, b, padTo)[|prefix|..] == y;
    ReadWrittenPadded(a, padTo);
    ReadWrittenPadded(b, padTo);
  }

  lemma {:induction false} NoLeadingZero(n: nat)
    requires n > 0
    ensures Digits(n)[0] != '0'
  {
    if n >= 10 {
      NoLeadingZero(n / 10);
    }
  }

  /** A number prints as its prefix and its digits, with zeros up to the width and no further. */
  lemma PrintedIsPadded(prefix: string, n: nat, padTo: nat)
    ensures var s := Format(prefix, n, padTo);
            && |s| >= |prefix| + padTo && s[..|prefix|] == prefix
            && AllDigits(s[|prefix|..]) && Read(s[|prefix|..]) == n
            && (n > 0 && |s| > |prefix| + padTo ==> s[|prefix|] != '0')
  {
    var digits := PadStart(Digits(n), padTo);
    assert Format(prefix, n, padTo) == prefix + digits;
    assert Format(prefix, n, padTo)[|prefix|..] == digits;
    ReadWrittenPadded(n, padTo);
    if n > 0 {
      NoLeadingZero(n);
    }
  }

  // ---- The tables ----------------------------------------------------------

  datatype Series = Series(controlPrefix: string, documentPrefix: string, padTo: nat, controlFirst: nat,
                           controlLast: Option<nat>)

  /** The control counter is one for all documents; each document type has its own. */
  datatype Scope = Control | Type(code: nat)

  /** `format` is the series the number was printed by. */
  datatype Document = Document(code: nat, control: nat, number: nat, format: Series)

  function ControlText(d: Document): string { Format(d.format.controlPrefix, d.control, d.format.padTo) }
  function NumberText(d: Document): string { Format(d.format.documentPrefix, d.number, d.format.padTo) }

  datatype Proc =
    | Reading(code: nat)                                            // allocate: before it reads the series
    | WantsControl(code: nat, seen: Series)
    | HasControl(code: nat, seen: Series, control: nat)             // within the range it read
    | HasBoth(code: nat, seen: Series, control: nat, number: nat)
    | Editing(next: Series)                                         // writeSeries: before it reads
    | Checked(next: Series)                                         // its checks passed
    | Done(ok: bool)

  datatype State = State(
    series: Option<Series>,
    counters: map<Scope, nat>,
    issued: seq<Document>,
    locks: map<Scope, nat>,
    procs: map<nat, Proc>)

  datatype Event = Issue(p: nat, code: nat) | Edit(p: nat, next: Series) | Advance(p: nat) | Crash(p: nat)

  /** The table's own constraints. */
  predicate Valid(series: Series) {
    && 1 <= series.padTo <= 20 && series.controlFirst >= 1
    && (series.controlLast.Some? ==> series.controlLast.value >= series.controlFirst)
  }

  function Without(locks: map<Scope, nat>, p: nat): (r: map<Scope, nat>)
    ensures forall k :: k in r <==> k in locks && locks[k] != p
    ensures forall k :: k in r ==> r[k] == locks[k]
  {
    map k | k in locks && locks[k] != p :: locks[k]
  }

  predicate SameTables(s: State, t: State) { t.series == s.series && t.counters == s.counters && t.issued == s.issued }

  function Goto(s: State, p: nat, at: Proc): (t: State)
    ensures SameTables(s, t)
  {
    s.(procs := s.procs[p := at])
  }

  function Finish(s: State, p: nat, ok: bool): (t: State)
    ensures SameTables(s, t)
  {
    Goto(s, p, Done(ok)).(locks := Without(s.locks, p))
  }

  predicate Free(s: State, scope: Scope, p: nat) { scope in s.locks ==> s.locks[scope] == p }

  /** `takeCounter`: the row's value, or the start it is created with. */
  function Next(s: State, scope: Scope, startAt: nat): nat {
    if scope in s.counters then s.counters[scope] else startAt
  }

  /** The unique indexes over the printed numbers. */
  predicate Collides(issued: seq<Document>, d: Document) {
    exists i :: 0 <= i < |issued| &&
      (ControlText(issued[i]) == ControlText(d) || (issued[i].code == d.code && NumberText(issued[i]) == NumberText(d)))
  }

  predicate PastLast(series: Series, control: int) {
    series.controlLast.Some? && control > series.controlLast.value
  }

  /** What `writeSeries` refuses, given what it has read. */
  predicate MayWrite(current: Option<Series>, next: Series, controlNext: Option<nat>) {
    current.Some? && controlNext.Some? ==>
      && next.controlPrefix == current.value.controlPrefix && next.documentPrefix == current.value.documentPrefix
      && next.padTo == current.value.padTo && next.controlFirst == current.value.controlFirst
      && !PastLast(next, controlNext.value - 1)
  }

  function ControlNext(s: State): Option<nat> {
    if Control in s.counters then Some(s.counters[Control]) else None
  }

  function Step(s: State, p: nat): (t: State)
    ensures forall o :: o in t.procs && o != p ==> o in s.procs && t.procs[o] == s.procs[o]
  {
    if p !in s.procs then s
    else
      match s.procs[p]
      case Reading(code) =>
        if s.series.Some? then Goto(s, p, WantsControl(code, s.series.value)) else Finish(s, p, false)
      case WantsControl(code, seen) =>
        if !Free(s, Control, p) then s
        else
          var control := Next(s, Control, seen.controlFirst);
          if PastLast(seen, control) then Finish(s, p, false)
          else Goto(s, p, HasControl(code, seen, control)).(locks := s.locks[Control := p])
      case HasControl(code, seen, control) =>
        if !Free(s, Type(code), p) then s
        else Goto(s, p, HasBoth(code, seen, control, Next(s, Type(code), 1))).(locks := s.locks[Type(code) := p])
      case HasBoth(code, seen, control, number) =>
        var d := Document(code, control, number, seen);
        if Collides(s.issued, d) then Finish(s, p, false)
        else
          Finish(s.(counters := s.counters[Control := control + 1][Type(code) := number + 1], issued := s.issued + [d]),
                 p, true)
      case Editing(next) =>
        if Valid(next) && MayWrite(s.series, next, ControlNext(s)) then Goto(s, p, Checked(next))
        else Finish(s, p, false)
      case Checked(next) => Finish(s.(series := Some(next)), p, true)
      case Done(_) => s
  }

  function Exec(s: State, e: Event): State {
    match e
    case Issue(p, code) => if p in s.procs then s else Goto(s, p, Reading(code))
    case Edit(p, next) => if p in s.procs then s else Goto(s, p, Editing(next))
    case Advance(p) => Step(s, p)
    case Crash(p) => if p in s.procs && !s.procs[p].Done? then Finish(s, p, false) else s
  }

  ghost function Run(s: State, es: seq<Event>): State {
    if es == [] then s else Exec(Run(s, es[..|es| - 1]), es[|es| - 1])
  }

  const Initial: State := State(None, map[], [], map[], map[])

  // ---- Whatever interleaves: no gap, no repeat -----------------------------

  /** Documents of one type, in order. */
  function OfType(issued: seq<Document>, code: nat): seq<Document> {
    if issued == [] then []
    else
      var n := |issued| - 1;
      OfType(issued[..n], code) + if issued[n].code == code then [issued[n]] else []
  }

  ghost predicate ControlsRun(s: State) {
    && (s.issued == [] <==> Control !in s.counters)
    && (forall i :: 0 <= i < |s.issued| ==>
          s.issued[i].control == s.issued[0].control + i && !PastLast(s.issued[i].format, s.issued[i].control))
    && (s.issued != [] ==>
          && s.counters[Control] == s.issued[0].control + |s.issued|
          && s.issued[0].control == s.issued[0].format.controlFirst)
  }

  ghost predicate NumbersRun(s: State, code: nat) {
    && Next(s, Type(code), 1) == |OfType(s.issued, code)| + 1
    && forall i :: 0 <= i < |OfType(s.issued, code)| ==> OfType(s.issued, code)[i].number == i + 1
  }

  predicate ProcOk(s: State, p: nat)
    requires p in s.procs
  {
    match s.procs[p]
    case HasControl(code, seen, control) =>
      && Control in s.locks && s.locks[Control] == p
      && control == Next(s, Control, seen.controlFirst) && !PastLast(seen, control)
    case HasBoth(code, seen, control, number) =>
      && Control in s.locks && s.locks[Control] == p && Type(code) in s.locks && s.locks[Type(code)] == p
      && control == Next(s, Control, seen.controlFirst) && !PastLast(seen, control) && number == Next(s, Type(code), 1)
    case _ => true
  }

  ghost predicate Inv(s: State) {
    && ControlsRun(s) && (forall code :: NumbersRun(s, code))
    && forall p :: p in s.procs ==> ProcOk(s, p)
  }

  lemma StepKeeps(s: State, e: Event)
    requires Inv(s)
    ensures Inv(Exec(s, e))
  {
    ProcsKeep(s, e);
    var t := Exec(s, e);
    if t.issued != s.issued {
      IssueKeeps(s, e.p);
    } else {
      OnlyIssuingCounts(s, e);
      hide Exec;
      forall code ensures NumbersRun(t, code) {
        assert NumbersRun(s, code);
      }
    }
  }

  lemma OnlyIssuingCounts(s: State, e: Event)
    requires Exec(s, e).issued == s.issued
    ensures Exec(s, e).counters == s.counters
  {
  }

  /** `p` gave up nobody's lock, and wrote no counter whose lock it did not hold. */
  predicate MovesAlone(s: State, t: State, p: nat) {
    && (forall k :: k in s.locks && s.locks[k] != p ==> k in t.locks && t.locks[k] == s.locks[k])
    && (forall k :: k in s.locks && s.locks[k] != p ==>
          (k in t.counters <==> k in s.counters) && Next(t, k, 0) == Next(s, k, 0))
  }

  lemma EachMovesAlone(s: State, e: Event)
    requires e.p in s.procs ==> ProcOk(s, e.p)
    ensures MovesAlone(s, Exec(s, e), e.p)
    ensures forall o :: o in Exec(s, e).procs && o != e.p ==> o in s.procs && Exec(s, e).procs[o] == s.procs[o]
  {
  }

  lemma OthersKeep(s: State, t: State, p: nat, o: nat)
    requires MovesAlone(s, t, p) && o != p && o in s.procs && o in t.procs && t.procs[o] == s.procs[o] && ProcOk(s, o)
    ensures ProcOk(t, o)
  {
  }

  lemma IKeep(s: State, e: Event)
    requires e.p in s.procs ==> ProcOk(s, e.p)
    ensures e.p in Exec(s, e).procs ==> ProcOk(Exec(s, e), e.p)
  {
  }

  lemma ProcsKeep(s: State, e: Event)
    requires forall p :: p in s.procs ==> ProcOk(s, p)
    ensures forall p :: p in Exec(s, e).procs ==> ProcOk(Exec(s, e), p)
  {
    var t := Exec(s, e);
    EachMovesAlone(s, e);
    IKeep(s, e);
    hide Exec, ProcOk, MovesAlone;
    forall o | o in t.procs ensures ProcOk(t, o) {
      if o != e.p {
        OthersKeep(s, t, e.p, o);
      }
    }
  }

  /** The document committed is the next of the control run and the next of its type. */
  lemma IssueKeeps(s: State, p: nat)
    requires Inv(s) && p in s.procs && s.procs[p].HasBoth? && Step(s, p).issued != s.issued
    ensures ControlsRun(Step(s, p)) && forall code :: NumbersRun(Step(s, p), code)
  {
    var t, at := Step(s, p), s.procs[p];
    var d := Document(at.code, at.control, at.number, at.seen);
    assert ProcOk(s, p);
    assert t.issued == s.issued + [d];
    assert t.counters == s.counters[Control := d.control + 1][Type(d.code) := d.number + 1];
    hide Step, ProcOk;
    assert t.issued[..|s.issued|] == s.issued;
    forall code ensures NumbersRun(t, code) {
      assert NumbersRun(s, code);
      NumberFollows(s, t, d, code);
    }
  }

  lemma NumberFollows(s: State, t: State, d: Document, code: nat)
    requires NumbersRun(s, code) && t.issued == s.issued + [d] && d.number == Next(s, Type(d.code), 1)
    requires t.counters == s.counters[Control := d.control + 1][Type(d.code) := d.number + 1]
    ensures NumbersRun(t, code)
  {
    assert t.issued[..|s.issued|] == s.issued;
  }

  lemma {:induction false} RunKeeps(es: seq<Event>)
    ensures Inv(Run(Initial, es))
  {
    if es != [] {
      hide Inv, Exec;
      RunKeeps(es[..|es| - 1]);
      StepKeeps(Run(Initial, es[..|es| - 1]), es[|es| - 1]);
    } else {
      StartOk();
    }
  }

  lemma StartOk()
    ensures Inv(Initial)
  {
  }

  /**
   * Commits, rollbacks and edits in any order: the control numbers issued are
   * an unbroken run, none of them past the end of the range its transaction read.
   */
  lemma ControlNumbersAreContiguous(es: seq<Event>, i: nat)
    requires i < |Run(Initial, es).issued|
    ensures var issued := Run(Initial, es).issued;
            && issued[i].control == issued[0].format.controlFirst + i
            && !PastLast(issued[i].format, issued[i].control)
  {
    RunKeeps(es);
  }

  /** And each document type counts from one, without a gap. */
  lemma DocumentNumbersAreContiguous(es: seq<Event>, code: nat, i: nat)
    requires i < |OfType(Run(Initial, es).issued, code)|
    ensures OfType(Run(Initial, es).issued, code)[i].number == i + 1
  {
    RunKeeps(es);
    assert NumbersRun(Run(Initial, es), code);
  }

  // ---- The series, frozen --------------------------------------------------

  predicate SameFormat(a: Series, b: Series) {
    && a.controlPrefix == b.controlPrefix && a.documentPrefix == b.documentPrefix
    && a.padTo == b.padTo && a.controlFirst == b.controlFirst
  }

  predicate Issuing(at: Proc) { at.WantsControl? || at.HasControl? || at.HasBoth? }

  /**
   * What the source's comments take for granted: no issue comes between an edit's
   * reading and its writing, nor an edit between an issue's reading and its commit.
   */
  predicate Apart(s: State, e: Event) {
    e.Advance? && e.p in s.procs ==>
      && (s.procs[e.p].Editing? ==> forall o :: o in s.procs ==> !Issuing(s.procs[o]))
      && (s.procs[e.p].Reading? ==> forall o :: o in s.procs ==> !s.procs[o].Checked?)
  }

  ghost predicate ApartRun(s: State, es: seq<Event>) {
    es == [] || (ApartRun(s, es[..|es| - 1]) && Apart(Run(s, es[..|es| - 1]), es[|es| - 1]))
  }

  /** Everything issued carries the series' own format, inside its range. */
  ghost predicate Frozen(s: State) {
    s.issued != [] ==>
      && s.series.Some?
      && (forall i :: 0 <= i < |s.issued| ==> SameFormat(s.issued[i].format, s.series.value))
      && !PastLast(s.series.value, s.issued[|s.issued| - 1].control)
  }

  predicate Mine(s: State, at: Proc) {
    && (Issuing(at) ==> s.series == Some(at.seen))
    && (at.Checked? ==> MayWrite(s.series, at.next, ControlNext(s)))
  }

  ghost predicate FrozenInv(s: State) {
    && Inv(s) && Frozen(s)
    && (forall p :: p in s.procs ==> Mine(s, s.procs[p]))
    && (forall p, o :: p in s.procs && o in s.procs && Issuing(s.procs[p]) ==> !s.procs[o].Checked?)
  }

  lemma FrozenStep(s: State, e: Event)
    requires FrozenInv(s) && Apart(s, e)
    ensures FrozenInv(Exec(s, e))
  {
    var t := Exec(s, e);
    StepKeeps(s, e);
    hide Inv;
    EditAndIssueApart(s, e);
    if e.Advance? && e.p in s.procs && s.procs[e.p].HasBoth? && t.issued != s.issued {
      IssueStaysFrozen(s, e.p);
    } else if e.Advance? && e.p in s.procs && s.procs[e.p].Checked? {
      EditStaysFrozen(s, e.p);
    } else {
      RestStaysFrozen(s, e);
    }
  }

  lemma EditAndIssueApart(s: State, e: Event)
    requires FrozenInv(s) && Apart(s, e)
    ensures forall p, o :: p in Exec(s, e).procs && o in Exec(s, e).procs && Issuing(Exec(s, e).procs[p]) ==>
              !Exec(s, e).procs[o].Checked?
  {
    hide Inv, Frozen;
  }

  lemma IssueStaysFrozen(s: State, p: nat)
    requires FrozenInv(s) && p in s.procs && s.procs[p].HasBoth? && Step(s, p).issued != s.issued
    ensures var t := Step(s, p); Frozen(t) && forall o :: o in t.procs ==> Mine(t, t.procs[o])
  {
    assert ProcOk(s, p) && Mine(s, s.procs[p]);
    hide Inv, Collides;
    var t := Step(s, p);
    forall o | o in t.procs ensures Mine(t, t.procs[o]) {
      assert Mine(s, s.procs[o]);
    }
  }

  lemma EditStaysFrozen(s: State, p: nat)
    requires FrozenInv(s) && p in s.procs && s.procs[p].Checked?
    ensures var t := Step(s, p); Frozen(t) && forall o :: o in t.procs ==> Mine(t, t.procs[o])
  {
    var t := Step(s, p);
    assert Mine(s, s.procs[p]);
    assert s.issued != [] ==> s.counters[Control] == s.issued[|s.issued| - 1].control + 1 && Control in s.counters;
    forall o | o in t.procs ensures Mine(t, t.procs[o]) {
      assert Mine(s, s.procs[o]);
    }
  }

  lemma RestStaysFrozen(s: State, e: Event)
    requires FrozenInv(s)
    requires e.Advance? && e.p in s.procs ==> !s.procs[e.p].Checked?
    requires Exec(s, e).issued == s.issued
    ensures var t := Exec(s, e); Frozen(t) && forall o :: o in t.procs ==> Mine(t, t.procs[o])
  {
    hide Inv;
    var t := Exec(s, e);
    RestSame(s, e);
    assert Frozen(t);
    hide Exec, Frozen;
    forall o | o in t.procs ensures Mine(t, t.procs[o]) {
      assert o in s.procs ==> Mine(s, s.procs[o]);
    }
  }

  lemma RestSame(s: State, e: Event)
    requires e.Advance? && e.p in s.procs ==> !s.procs[e.p].Checked?
    requires Exec(s, e).issued == s.issued
    ensures var t := Exec(s, e);
            && t.series == s.series && t.counters == s.counters
            && (forall o :: o in t.procs && o != e.p ==> o in s.procs && t.procs[o] == s.procs[o])
            && (e.p in t.procs && (e.p !in s.procs || t.procs[e.p] != s.procs[e.p]) ==>
                  StartsWell(s, t.procs[e.p], if e.p in s.procs then Some(s.procs[e.p]) else None))
  {
    OnlyEditsWrite(s, e);
    OnlyIssuingCounts(s, e);
    if e.Advance? {
      if e.p in s.procs {
        ViewsStartWell(s, e.p);
      }
      hide Step, StartsWell;
    }
  }

  lemma OnlyEditsWrite(s: State, e: Event)
    requires e.Advance? && e.p in s.procs ==> !s.procs[e.p].Checked?
    ensures Exec(s, e).series == s.series
  {
  }

  lemma ViewsStartWell(s: State, p: nat)
    requires p in s.procs && !s.procs[p].Checked?
    ensures p in Step(s, p).procs
    ensures Step(s, p).procs[p] != s.procs[p] ==> StartsWell(s, Step(s, p).procs[p], Some(s.procs[p]))
  {
    hide Collides, MayWrite, Valid, StartsWell, Finish, Free, PastLast, Next;
    EndsDone(s, p);
    match s.procs[p] {
      case HasBoth(code, seen, control, number) =>
        hide Goto;
        EndsDone(s.(counters := s.counters[Control := control + 1][Type(code) := number + 1],
                    issued := s.issued + [Document(code, control, number, seen)]), p);
        DoneStartsWell(s, p);
      case _ => SomeStartWell(s, p);
    }
  }

  lemma EndsDone(s: State, p: nat)
    ensures forall ok: bool :: Finish(s, p, ok).procs == s.procs[p := Done(ok)]
  {
  }

  lemma DoneStartsWell(s: State, p: nat)
    requires p in s.procs
    ensures forall ok: bool :: StartsWell(s, Done(ok), Some(s.procs[p]))
  {
  }

  lemma SomeStartWell(s: State, p: nat)
    requires p in s.procs && !s.procs[p].Checked? && !s.procs[p].HasBoth?
    ensures p in Step(s, p).procs
    ensures Step(s, p).procs[p] != s.procs[p] ==> StartsWell(s, Step(s, p).procs[p], Some(s.procs[p]))
  {
    hide Collides, MayWrite, Valid, Finish, Free, PastLast, Next;
    EndsDone(s, p);
  }

  /** A transaction's view of the series when it first takes one is the series. */
  predicate StartsWell(s: State, at: Proc, was: Option<Proc>) {
    && (Issuing(at) ==> s.series == Some(at.seen) || (was.Some? && Issuing(was.value) && at.seen == was.value.seen))
    && (at.Checked? ==> MayWrite(s.series, at.next, ControlNext(s)))
  }

  lemma {:induction false} FrozenRun(es: seq<Event>)
    requires ApartRun(Initial, es)
    ensures FrozenInv(Run(Initial, es))
  {
    if es != [] {
      hide FrozenInv, Exec;
      FrozenRun(es[..|es| - 1]);
      FrozenStep(Run(Initial, es[..|es| - 1]), es[|es| - 1]);
    } else {
      StartFrozen();
    }
  }

  lemma StartFrozen()
    ensures FrozenInv(Initial)
  {
    StartOk();
  }

  // ---- Exactly when the series stays frozen ---------------------------------

  /** `p` is about to write this document, and no index is in its way. */
  predicate Issues(s: State, p: nat) {
    && p in s.procs && s.procs[p].HasBoth?
    && !Collides(s.issued, Document(s.procs[p].code, s.procs[p].control, s.procs[p].number, s.procs[p].seen))
  }

  /** What an edit checked, or what an issue read, still stands as it commits. */
  predicate StillStands(s: State, e: Event) {
    e.Advance? && e.p in s.procs ==>
      && (s.procs[e.p].Checked? ==> MayWrite(s.series, s.procs[e.p].next, ControlNext(s)))
      && (Issues(s, e.p) ==> InSeries(s, s.procs[e.p].seen, s.procs[e.p].control))
  }

  /** In the series' own format, and within its range. */
  predicate InSeries(s: State, seen: Series, control: nat) {
    s.series.Some? && SameFormat(seen, s.series.value) && !PastLast(s.series.value, control)
  }

  lemma EditKeepsIff(s: State, p: nat)
    requires Inv(s) && Frozen(s) && p in s.procs && s.procs[p].Checked?
    ensures Frozen(Step(s, p)) <==> MayWrite(s.series, s.procs[p].next, ControlNext(s))
  {
    if s.issued != [] {
      assert s.issued[0].control + |s.issued| == s.counters[Control];
      assert SameFormat(s.issued[0].format, s.series.value);
    }
  }

  lemma IssueKeepsIff(s: State, p: nat)
    requires Inv(s) && Frozen(s) && Issues(s, p)
    ensures Frozen(Step(s, p)) <==> InSeries(s, s.procs[p].seen, s.procs[p].control)
  {
    var at := s.procs[p];
    assert Step(s, p).issued[|s.issued|] == Document(at.code, at.control, at.number, at.seen);
  }

  /** One event keeps the series frozen exactly when what its transaction read still stands. */
  lemma KeepsIffStillStands(s: State, e: Event)
    requires Inv(s) && Frozen(s)
    ensures Frozen(Exec(s, e)) <==> StillStands(s, e)
  {
    hide Inv, MayWrite, InSeries, Collides;
    if e.Advance? && e.p in s.procs && s.procs[e.p].Checked? {
      EditKeepsIff(s, e.p);
    } else if e.Advance? && Issues(s, e.p) {
      IssueKeepsIff(s, e.p);
    } else {
      OthersLeaveIt(s, e);
    }
  }

  lemma OthersLeaveIt(s: State, e: Event)
    requires !(e.Advance? && e.p in s.procs && s.procs[e.p].Checked?) && !(e.Advance? && Issues(s, e.p))
    ensures Exec(s, e).series == s.series && Exec(s, e).issued == s.issued
  {
    hide Collides, MayWrite, Valid;
  }

  /**
   * Over any run: the series is frozen in every state if and only if every edit
   * commits while its check would still pass, and every issue commits in the
   * format, and within the range, that the series then has.
   */
  lemma {:induction false} FrozenThroughoutIff(es: seq<Event>)
    ensures (forall n: nat :: n <= |es| ==> Frozen(Run(Initial, es[..n])))
       <==> (forall n: nat :: n < |es| ==> StillStands(Run(Initial, es[..n]), es[n]))
  {
    hide Inv, Frozen, StillStands, Exec;
    if forall n: nat :: n <= |es| ==> Frozen(Run(Initial, es[..n])) {
      forall n: nat | n < |es| ensures StillStands(Run(Initial, es[..n]), es[n]) {
        assert Frozen(Run(Initial, es[..n + 1])) && Frozen(Run(Initial, es[..n]));
        NextState(es, n);
        KeepsIffStillStands(Run(Initial, es[..n]), es[n]);
      }
    }
    if forall n: nat :: n < |es| ==> StillStands(Run(Initial, es[..n]), es[n]) {
      forall n: nat | n <= |es| ensures Frozen(Run(Initial, es[..n])) {
        StandsSoFrozen(es, n);
      }
    }
  }

  lemma NextState(es: seq<Event>, n: nat)
    requires n < |es|
    ensures Run(Initial, es[..n + 1]) == Exec(Run(Initial, es[..n]), es[n]) && Inv(Run(Initial, es[..n]))
  {
    hide Exec, Inv;
    assert es[..n + 1][..n] == es[..n];
    RunKeeps(es[..n]);
  }

  lemma {:induction false} StandsSoFrozen(es: seq<Event>, n: nat)
    requires n <= |es| && forall m: nat :: m < n ==> StillStands(Run(Initial, es[..m]), es[m])
    ensures Frozen(Run(Initial, es[..n]))
  {
    hide Inv, StillStands, Exec;
    if n > 0 {
      StandsSoFrozen(es, n - 1);
      NextState(es, n - 1);
      hide Frozen;
      KeepsIffStillStands(Run(Initial, es[..n - 1]), es[n - 1]);
    }
  }

  /** Keeping edits and issues apart is enough. */
  lemma ApartStillStands(es: seq<Event>, n: nat)
    requires ApartRun(Initial, es) && n < |es|
    ensures StillStands(Run(Initial, es[..n]), es[n])
  {
    hide FrozenInv, Exec, Apart, StillStands;
    ApartSoFar(es, n);
    FrozenRun(es[..n]);
    OwnViewStands(Run(Initial, es[..n]), es[n]);
  }

  lemma {:induction false} ApartSoFar(es: seq<Event>, n: nat)
    requires ApartRun(Initial, es) && n <= |es|
    ensures ApartRun(Initial, es[..n])
  {
    hide Apart, Exec;
    if n == |es| {
      assert es[..n] == es;
    } else {
      ApartSoFar(es[..|es| - 1], n);
      assert es[..|es| - 1][..n] == es[..n];
    }
  }

  lemma OwnViewStands(s: State, e: Event)
    requires FrozenInv(s)
    ensures StillStands(s, e)
  {
    if e.Advance? && e.p in s.procs {
      assert ProcOk(s, e.p) && Mine(s, s.procs[e.p]);
    }
  }

  // ---- What a frozen series promises ---------------------------------------

  /** Where each document of a type stands among its type. */
  lemma {:induction false} Rank(issued: seq<Document>, code: nat, i: nat)
    requires i < |issued| && issued[i].code == code
    ensures var k := |OfType(issued[..i], code)|;
            k < |OfType(issued, code)| && OfType(issued, code)[k] == issued[i]
  {
    var n := |issued| - 1;
    if i < n {
      Rank(issued[..n], code, i);
      assert issued[..n][..i] == issued[..i];
    }
  }

  lemma {:induction false} RankGrows(issued: seq<Document>, code: nat, i: nat, j: nat)
    requires i < j <= |issued| && issued[i].code == code
    ensures |OfType(issued[..i], code)| < |OfType(issued[..j], code)|
  {
    Rank(issued[..j], code, i);
    assert issued[..j][..i] == issued[..i];
  }

  /** Two documents of a type never have the same number. */
  lemma NumbersDiffer(s: State, i: nat, j: nat)
    requires Inv(s) && i < j < |s.issued| && s.issued[i].code == s.issued[j].code
    ensures s.issued[i].number != s.issued[j].number
  {
    var code := s.issued[i].code;
    assert NumbersRun(s, code);
    Rank(s.issued, code, i);
    Rank(s.issued, code, j);
    RankGrows(s.issued, code, i, j);
  }

  /**
   * In every state of a run in which what was read still stands: the documents
   * are in the series' own format, from its first number to within its last, and
   * no two print alike, by control number or by the number of their type.
   */
  lemma SeriesIsFrozen(es: seq<Event>, i: nat, j: nat)
    requires forall n: nat :: n < |es| ==> StillStands(Run(Initial, es[..n]), es[n])
    requires i < j < |Run(Initial, es).issued|
    ensures var s := Run(Initial, es);
            && s.series.Some? && SameFormat(s.issued[i].format, s.series.value)
            && SameFormat(s.issued[j].format, s.series.value)
            && s.issued[i].control == s.series.value.controlFirst + i && !PastLast(s.series.value, s.issued[j].control)
            && ControlText(s.issued[i]) != ControlText(s.issued[j])
            && (s.issued[i].code == s.issued[j].code ==> NumberText(s.issued[i]) != NumberText(s.issued[j]))
  {
    hide Run, StillStands;
    StandsSoFrozen(es, |es|);
    assert es[..|es|] == es;
    RunKeeps(es);
    var s := Run(Initial, es);
    DocumentsDiffer(s, i, j);
  }

  lemma DocumentsDiffer(s: State, i: nat, j: nat)
    requires Inv(s) && Frozen(s) && i < j < |s.issued|
    ensures ControlText(s.issued[i]) != ControlText(s.issued[j])
    ensures s.issued[i].code == s.issued[j].code ==> NumberText(s.issued[i]) != NumberText(s.issued[j])
  {
    var a, b := s.issued[i], s.issued[j];
    assert SameFormat(a.format, s.series.value) && SameFormat(b.format, s.series.value);
    if ControlText(a) == ControlText(b) {
      PrintedFormsDiffer(a.format.controlPrefix, a.control, b.control, a.format.padTo);
    }
    if a.code == b.code && NumberText(a) == NumberText(b) {
      PrintedFormsDiffer(a.format.documentPrefix, a.number, b.number, a.format.padTo);
      NumbersDiffer(s, i, j);
    }
  }

  /** The next of its type has a number none of its type has. */
  lemma NumberIsNew(s: State, code: nat, i: nat)
    requires Inv(s) && i < |s.issued| && s.issued[i].code == code
    ensures s.issued[i].number < Next(s, Type(code), 1)
  {
    assert NumbersRun(s, code);
    Rank(s.issued, code, i);
  }

  /** In such a run neither unique index ever stops a document in the series' own format. */
  lemma IndexesNeverFire(es: seq<Event>, p: nat)
    requires forall n: nat :: n < |es| ==> StillStands(Run(Initial, es[..n]), es[n])
    requires var s := Run(Initial, es);
             && p in s.procs && s.procs[p].HasBoth? && s.series.Some?
             && SameFormat(s.procs[p].seen, s.series.value)
    ensures Issues(Run(Initial, es), p)
  {
    hide Run, StillStands;
    StandsSoFrozen(es, |es|);
    assert es[..|es|] == es;
    RunKeeps(es);
    NothingCollides(Run(Initial, es), p);
  }

  lemma NothingCollides(s: State, p: nat)
    requires Inv(s) && Frozen(s) && p in s.procs && s.procs[p].HasBoth? && s.series.Some?
    requires SameFormat(s.procs[p].seen, s.series.value)
    ensures Issues(s, p)
  {
    var at := s.procs[p];
    var d := Document(at.code, at.control, at.number, at.seen);
    assert ProcOk(s, p);
    forall i | 0 <= i < |s.issued|
      ensures ControlText(s.issued[i]) != ControlText(d)
      ensures s.issued[i].code == d.code ==> NumberText(s.issued[i]) != NumberText(d)
    {
      var a := s.issued[i];
      assert SameFormat(a.format, s.series.value);
      if ControlText(a) == ControlText(d) {
        PrintedFormsDiffer(d.format.controlPrefix, a.control, d.control, d.format.padTo);
      }
      if a.code == d.code && NumberText(a) == NumberText(d) {
        PrintedFormsDiffer(d.format.documentPrefix, a.number, d.number, d.format.padTo);
        NumberIsNew(s, d.code, i);
      }
    }
  }

  // ---- What each statement answers -----------------------------------------

  /** Some number has been given out, and this series prints otherwise, or ends before it. */
  predicate WouldUnfreeze(s: State, next: Series) {
    && s.series.Some? && Control in s.counters
    && (|| next.controlPrefix != s.series.value.controlPrefix || next.documentPrefix != s.series.value.documentPrefix
        || next.padTo != s.series.value.padTo || next.controlFirst != s.series.value.controlFirst
        || (next.controlLast.Some? && next.controlLast.value + 1 < s.counters[Control]))
  }

  /** Why the next statement fails: no series, its range is used up, an index, or an edit that is not allowed. */
  predicate Fails(s: State, at: Proc) {
    match at
    case Reading(_) => s.series == None
    case WantsControl(_, seen) =>
      var next := if Control in s.counters then s.counters[Control] else seen.controlFirst;
      seen.controlLast.Some? && next > seen.controlLast.value
    case HasBoth(code, seen, control, number) => Collides(s.issued, Document(code, control, number, seen))
    case Editing(next) => !Valid(next) || WouldUnfreeze(s, next)
    case _ => false
  }

  /** Somebody else has the counter. */
  predicate Waits(s: State, p: nat, at: Proc) {
    match at
    case WantsControl(_, _) => Control in s.locks && s.locks[Control] != p
    case HasControl(code, _, _) => Type(code) in s.locks && s.locks[Type(code)] != p
    case _ => false
  }

  /** A statement waits only for a counter somebody else has, fails only for its reason, and otherwise goes on. */
  lemma StatementsAnswer(s: State, p: nat)
    requires Inv(s) && p in s.procs && !s.procs[p].Done?
    ensures var at, t := s.procs[p], Step(s, p);
            && p in t.procs
            && (Waits(s, p, at) ==> t == s)
            && (!Waits(s, p, at) ==> t.procs[p] != at && (t.procs[p] == Done(false) <==> Fails(s, at)))
            && (t.procs[p] == Done(false) ==> SameTables(s, t))
            && (at.Reading? && s.series.Some? ==> t.procs[p] == WantsControl(at.code, s.series.value))
  {
    hide Collides, Valid, NumbersRun;
    assert ProcOk(s, p);
  }

  /** The document of an issue that commits: next of all, next of its type, in the format its transaction read. */
  lemma IssuedIsNext(s: State, p: nat)
    requires Inv(s) && Issues(s, p)
    ensures var at, t := s.procs[p], Step(s, p);
            && t.procs[p] == Done(true) && t.series == s.series
            && t.issued == s.issued + [Document(at.code, at.control, at.number, at.seen)]
            && at.control == (if s.issued == [] then at.seen.controlFirst else s.issued[|s.issued| - 1].control + 1)
            && at.number == |OfType(s.issued, at.code)| + 1
  {
    hide Collides;
    assert ProcOk(s, p) && NumbersRun(s, s.procs[p].code);
  }

  /** An edit that commits leaves the series it was asked for, and the numbers as they were. */
  lemma EditIsWritten(s: State, p: nat)
    requires p in s.procs && s.procs[p].Checked?
    ensures var t := Step(s, p);
            p in t.procs && t.procs[p] == Done(true) && t.series == Some(s.procs[p].next)
            && t.issued == s.issued && t.counters == s.counters
  {
  }

  /** Whoever has a counter is not done. */
  ghost predicate LocksAreInUse(s: State) {
    forall k :: k in s.locks ==> s.locks[k] in s.procs && !s.procs[s.locks[k]].Done?
  }

  /** A step takes counters for somebody who goes on, or gives up all `p` has. */
  ghost predicate TakesOrReleases(s: State, t: State, p: nat) {
    && p in t.procs && (forall o :: o in s.procs && o != p ==> o in t.procs && t.procs[o] == s.procs[o])
    && (forall k :: k in t.locks ==> t.locks[k] == p || (k in s.locks && t.locks[k] == s.locks[k]))
    && (t.procs[p].Done? ==> forall k :: k in t.locks ==> t.locks[k] != p)
  }

  lemma EndingReleases(s: State, p: nat, ok: bool)
    ensures TakesOrReleases(s, Finish(s, p, ok), p)
  {
  }

  lemma TakingGoesOn(s: State, p: nat, at: Proc, scope: Scope)
    requires !at.Done?
    ensures TakesOrReleases(s, Goto(s, p, at).(locks := s.locks[scope := p]), p)
  {
  }

  lemma MovingGoesOn(s: State, p: nat, at: Proc)
    requires !at.Done?
    ensures TakesOrReleases(s, Goto(s, p, at), p)
  {
  }

  lemma StayingGoesOn(s: State, p: nat)
    requires LocksAreInUse(s) && p in s.procs
    ensures TakesOrReleases(s, s, p)
  {
  }

  lemma FromOtherTables(s: State, u: State, t: State, p: nat)
    requires TakesOrReleases(u, t, p) && u.procs == s.procs && u.locks == s.locks
    ensures TakesOrReleases(s, t, p)
  {
  }

  lemma StepTakesOrReleases(s: State, p: nat)
    requires LocksAreInUse(s) && p in s.procs
    ensures TakesOrReleases(s, Step(s, p), p)
  {
    hide TakesOrReleases, LocksAreInUse, Collides, Valid, MayWrite, Finish, Goto, Free, PastLast, Next;
    StayingGoesOn(s, p);
    EndingReleases(s, p, false);
    match s.procs[p] {
      case Reading(code) =>
        if s.series.Some? {
          MovingGoesOn(s, p, WantsControl(code, s.series.value));
        }
      case WantsControl(code, seen) =>
        TakingGoesOn(s, p, HasControl(code, seen, Next(s, Control, seen.controlFirst)), Control);
      case HasControl(code, seen, control) =>
        TakingGoesOn(s, p, HasBoth(code, seen, control, Next(s, Type(code), 1)), Type(code));
      case HasBoth(code, seen, control, number) =>
        var d := Document(code, control, number, seen);
        var u := s.(counters := s.counters[Control := control + 1][Type(code) := number + 1], issued := s.issued + [d]);
        EndingReleases(u, p, true);
        FromOtherTables(s, u, Finish(u, p, true), p);
      case Editing(next) => MovingGoesOn(s, p, Checked(next));
      case Checked(next) =>
        EndingReleases(s.(series := Some(next)), p, true);
        FromOtherTables(s, s.(series := Some(next)), Finish(s.(series := Some(next)), p, true), p);
      case Done(_) =>
    }
  }

  lemma UseGoesOn(s: State, t: State, p: nat)
    requires LocksAreInUse(s) && TakesOrReleases(s, t, p)
    ensures LocksAreInUse(t)
  {
  }

  lemma StepKeepsInUse(s: State, e: Event)
    requires LocksAreInUse(s)
    ensures LocksAreInUse(Exec(s, e))
  {
    hide Step, LocksAreInUse, TakesOrReleases, Finish, Goto;
    match e {
      case Issue(p, code) => NewcomersTakeNothing(s, p, Reading(code));
      case Edit(p, next) => NewcomersTakeNothing(s, p, Editing(next));
      case Advance(p) =>
        if p in s.procs {
          StepTakesOrReleases(s, p);
          UseGoesOn(s, Step(s, p), p);
        } else {
          NobodySteps(s, p);
        }
      case Crash(p) =>
        EndingReleases(s, p, false);
        UseGoesOn(s, Finish(s, p, false), p);
    }
  }

  lemma NewcomersTakeNothing(s: State, p: nat, at: Proc)
    requires LocksAreInUse(s)
    ensures p !in s.procs ==> LocksAreInUse(Goto(s, p, at))
  {
  }

  lemma NobodySteps(s: State, p: nat)
    requires p !in s.procs
    ensures Step(s, p) == s
  {
  }

  /** In every state of every run: no counter stays locked for good. */
  lemma {:induction false} LocksAreGivenBack(es: seq<Event>)
    ensures LocksAreInUse(Run(Initial, es))
  {
    if es != [] {
      hide LocksAreInUse, Exec;
      LocksAreGivenBack(es[..|es| - 1]);
      StepKeepsInUse(Run(Initial, es[..|es| - 1]), es[|es| - 1]);
    }
  }

  // ---- In any run ----------------------------------------------------------

  ghost predicate NoneAlike(issued: seq<Document>) {
    forall i, j :: 0 <= i < j < |issued| ==>
      && ControlText(issued[i]) != ControlText(issued[j])
      && (issued[i].code == issued[j].code ==> NumberText(issued[i]) != NumberText(issued[j]))
  }

  lemma StepKeepsApart(s: State, e: Event)
    requires NoneAlike(s.issued)
    ensures NoneAlike(Exec(s, e).issued)
  {
    var t := Exec(s, e);
    if e.Advance? && Issues(s, e.p) {
      var at := s.procs[e.p];
      var d := Document(at.code, at.control, at.number, at.seen);
      assert t.issued == s.issued + [d];
      forall i, j | 0 <= i < j < |t.issued|
        ensures ControlText(t.issued[i]) != ControlText(t.issued[j])
        ensures t.issued[i].code == t.issued[j].code ==> NumberText(t.issued[i]) != NumberText(t.issued[j])
      {
        assert t.issued[i] == s.issued[i];
      }
    } else {
      hide Collides, ControlText, NumberText;
      NobodyElseIssues(s, e);
    }
  }

  lemma NobodyElseIssues(s: State, e: Event)
    requires !(e.Advance? && Issues(s, e.p))
    ensures Exec(s, e).issued == s.issued
  {
    hide Collides;
  }

  /** Frozen or not: no two documents ever print alike, by control number or by the number of their type. */
  lemma {:induction false} NoTwoPrintAlike(es: seq<Event>)
    ensures NoneAlike(Run(Initial, es).issued)
  {
    if es != [] {
      hide NoneAlike, Exec;
      NoTwoPrintAlike(es[..|es| - 1]);
      StepKeepsApart(Run(Initial, es[..|es| - 1]), es[|es| - 1]);
    } else {
      assert Run(Initial, es).issued == [];
    }
  }

  // ---- The panel's preview -------------------------------------------------

  /** `nextControlNumber` of the series as the panel shows it. */
  function NextControlText(s: State): string
    requires s.series.Some?
  {
    var next := if ControlNext(s).Some? then ControlNext(s).value else s.series.value.controlFirst;
    Format(s.series.value.controlPrefix, next, s.series.value.padTo)
  }

  /** It is what the next document to be issued will carry. */
  lemma PreviewIsTheNextNumber(s: State, p: nat)
    requires Inv(s) && p in s.procs && s.procs[p].HasBoth? && s.series == Some(s.procs[p].seen)
    requires Step(s, p).issued != s.issued
    ensures ControlText(Step(s, p).issued[|s.issued|]) == NextControlText(s)
  {
    assert ProcOk(s, p);
  }

  // ---- What the missing lock lets through ----------------------------------

  const Old: Series := Series("00-", "", 8, 1, Some(1))
  const New: Series := Series("A-", "", 6, 500, None)

  /**
   * An owner corrects the series while the first invoice is being issued. The
   * edit reads no counter, the invoice has read the old series; both commit.
   */
  lemma EditRacesTheFirstIssue() returns (es: seq<Event>)
    ensures var s := Run(Initial, es);
            |s.issued| == 1 && s.series == Some(New) && s.issued[0].format == Old && !SameFormat(Old, New)
  {
    hide Run, Step;
    var first, s1 := Edits(Initial, 1, Old);
    OneEvent(s1, Issue(2, 0));
    var s2, s3 := Goto(s1, 2, Reading(0)), Goto(Goto(s1, 2, Reading(0)), 2, WantsControl(0, Old));
    Reads(s2, 2, Old);
    Then(s1, [Issue(2, 0)], s2, Advance(2));
    var third, s4 := Edits(s3, 3, New);
    var fourth, s5 := IssuesAlone(s4, 2, Old);
    Append(Initial, first, [Issue(2, 0)] + [Advance(2)]);
    Append(Initial, first + ([Issue(2, 0)] + [Advance(2)]), third);
    Append(Initial, first + ([Issue(2, 0)] + [Advance(2)]) + third, fourth);
    es := first + ([Issue(2, 0)] + [Advance(2)]) + third + fourth;
  }

  lemma OneEvent(s: State, e: Event)
    ensures Run(s, [e]) == Exec(s, e)
  {
    hide Exec;
    assert [e][..0] == [];
    assert Run(s, []) == s;
  }

  lemma Then(s: State, es: seq<Event>, m: State, e: Event)
    requires Run(s, es) == m
    ensures Run(s, es + [e]) == Exec(m, e)
  {
    hide Exec;
    assert (es + [e])[..|es|] == es;
  }

  lemma {:induction false} Append(s: State, a: seq<Event>, b: seq<Event>)
    ensures Run(s, a + b) == Run(Run(s, a), b)
  {
    hide Exec;
    if b == [] {
      assert a + b == a;
    } else {
      assert (a + b)[..|a + b| - 1] == a + b[..|b| - 1];
      Append(s, a, b[..|b| - 1]);
    }
  }

  lemma Reads(s: State, p: nat, seen: Series)
    requires p in s.procs && s.procs[p] == Reading(0) && s.series == Some(seen)
    ensures Step(s, p) == Goto(s, p, WantsControl(0, seen))
  {
  }

  /** An edit, from start to end, while nothing has been issued. */
  lemma Edits(s: State, p: nat, next: Series) returns (es: seq<Event>, t: State)
    requires p !in s.procs && Control !in s.counters && Valid(next) && s.locks == map[]
    ensures Run(s, es) == t && t.series == Some(next) && t.counters == s.counters && t.issued == s.issued
    ensures t.locks == map[]
    ensures t.procs == s.procs[p := Done(true)]
  {
    var s1, s2 := Goto(s, p, Editing(next)), Goto(Goto(s, p, Editing(next)), p, Checked(next));
    t := Finish(s2.(series := Some(next)), p, true);
    assert Step(s1, p) == s2 && Step(s2, p) == t;
    hide Run, Step;
    OneEvent(s, Edit(p, next));
    Then(s, [Edit(p, next)], s1, Advance(p));
    Then(s, [Edit(p, next)] + [Advance(p)], s2, Advance(p));
    es := [Edit(p, next)] + [Advance(p)] + [Advance(p)];
    assert t.procs == s.procs[p := Done(true)];
  }

  /** The first issue, from its wait for the counter to its commit. */
  lemma IssuesAlone(s: State, p: nat, seen: Series) returns (es: seq<Event>, t: State)
    requires p in s.procs && s.procs[p] == WantsControl(0, seen) && s.counters == map[] && s.issued == []
    requires s.locks == map[]
    requires !PastLast(seen, seen.controlFirst)
    ensures Run(s, es) == t && t.series == s.series && t.issued == [Document(0, seen.controlFirst, 1, seen)]
  {
    var s1 := Goto(s, p, HasControl(0, seen, seen.controlFirst)).(locks := map[Control := p]);
    var s2 := Goto(s1, p, HasBoth(0, seen, seen.controlFirst, 1)).(locks := map[Control := p][Type(0) := p]);
    t := Step(s2, p);
    assert Step(s, p) == s1;
    assert Step(s1, p) == s2;
    assert !Collides(s.issued, Document(0, seen.controlFirst, 1, seen));
    assert t.series == s.series && t.issued == [Document(0, seen.controlFirst, 1, seen)];
    hide Run, Step;
    OneEvent(s, Advance(p));
    Then(s, [Advance(p)], s1, Advance(p));
    Then(s, [Advance(p)] + [Advance(p)], s2, Advance(p));
    es := [Advance(p)] + [Advance(p)] + [Advance(p)];
  }

  // ---- The service ---------------------------------------------------------

  datatype NumberingError = SeriesMissing | RangeExhausted | SeriesLocked | InvalidSeries

  /** The rows of one restaurant, as one transaction updates them. */
  class Ledger {
    var series: Option<Series>
    var counters: map<Scope, nat>

    constructor ()
      ensures series == None && counters == map[]
    {
      series, counters := None, map[];
    }

    /** Reads and locks a counter, creating it if it is the first. */
    method TakeCounter(scope: Scope, startAt: nat) returns (value: nat)
      modifies this`counters
      ensures value == if scope in old(counters) then old(counters)[scope] else startAt
      ensures counters == old(counters)[scope := value]
    {
      if scope !in counters {
        counters := counters[scope := startAt];
      }
      value := counters[scope];
      assert old(counters)[scope := value] == counters;
    }

    method BumpCounter(scope: Scope, to: nat)
      modifies this`counters
      ensures counters == old(counters)[scope := to]
    {
      counters := counters[scope := to];
    }

    /** The pair of numbers of a new document, or a refusal before anything is spent. */
    method Allocate(code: nat) returns (r: Result<Document, NumberingError>)
      modifies this`counters
      ensures old(series).None? ==> r == Failure(SeriesMissing) && counters == old(counters)
      ensures old(series).Some? ==>
                var s := State(old(series), old(counters), [], map[], map[]);
                var control := Next(s, Control, old(series).value.controlFirst);
                if PastLast(old(series).value, control) then
                  r == Failure(RangeExhausted) && counters == old(counters)[Control := control]
                else
                  && r == Success(Document(code, control, Next(s, Type(code), 1), old(series).value))
                  && counters == old(counters)[Control := control + 1][Type(code) := Next(s, Type(code), 1) + 1]
    {
      if series.None? {
        return Failure(SeriesMissing);
      }
      var control := TakeCounter(Control, series.value.controlFirst);
      if series.value.controlLast.Some? && control > series.value.controlLast.value {
        return Failure(RangeExhausted);
      }
      var number := TakeCounter(Type(code), 1);
      BumpCounter(Control, control + 1);
      BumpCounter(Type(code), number + 1);
      r := Success(Document(code, control, number, series.value));
    }

    /** Writes the series, or says which rule it would break. */
    method WriteSeries(next: Series) returns (r: Result<Series, NumberingError>)
      modifies this`series
      ensures var next' := if Control in counters then Some(counters[Control]) else None;
              if !Valid(next) then r == Failure(InvalidSeries) && series == old(series)
              else if !MayWrite(old(series), next, next') then r == Failure(SeriesLocked) && series == old(series)
              else r == Success(next) && series == Some(next)
    {
      if !Valid(next) {
        return Failure(InvalidSeries);
      }
      if series.Some? && Control in counters {
        var current := series.value;
        if next.controlPrefix != current.controlPrefix || next.documentPrefix != current.documentPrefix
          || next.padTo != current.padTo || next.controlFirst != current.controlFirst {
          return Failure(SeriesLocked);
        }
        var lastIssued := counters[Control] as int - 1;
        if next.controlLast.Some? && next.controlLast.value < lastIssued {
          return Failure(SeriesLocked);
        }
      }
      series := Some(next);
      r := Success(next);
    }
  }
}
