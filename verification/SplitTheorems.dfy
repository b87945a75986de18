/**
 * What a stored split promises, over every run.
 */
module SplitTheorems {
  import opened Wrappers
  import LargestRemainder
  import SplitEngine
  import opened SplitState
  import opened SplitSafety
  import opened SplitCommits

  // ---- Every run -----------------------------------------------------------

  lemma ReleasedKeeps(l: Locks, p: nat)
    requires Exclude(l)
    ensures Kept(l, Released(l, p), p) && Exclude(Released(l, p))
  {
  }

  /** Every statement, of every kind of transaction, does what it may. */
  lemma NextIsSound(s: State, p: nat, id: nat, ids: seq<nat>)
    requires Inv(s) && p in s.procs
    ensures Sound(s.tables, s.locks, s.procs, p, s.procs[p], Next(AsBuilt, s, p, id, ids))
  {
    hide Sound, TablesOk, OneLive, Exclude, AllApart, LockPayment, LockBill, WithBill, TakeSnapshot, LockShare,
         MarkStale,
         Apply, ReadBill, SeekLive, LockSplit, SumShares, CountPending, InsertSplit, Void, CommitSplit, EffectOk,
         MarkingOk,
         Planning, MayVoid, MayAgree, HoldsBill, Concerns, WantsShareOk, Settling, HoldsMembers, HoldsSplit;
    if OnMoney(s.procs[p]) {
      PayerIsSound(s, p, id, ids);
    } else {
      PlannerIsSound(s, p, id, ids);
    }
  }

  lemma PayerIsSound(s: State, p: nat, id: nat, ids: seq<nat>)
    requires TablesOk(s.tables) && OneLive(s.tables) && Exclude(s.locks)
    requires p in s.procs && OnMoney(s.procs[p]) && PayerOk(s.tables, s.locks, p, s.procs[p])
    ensures Sound(s.tables, s.locks, s.procs, p, s.procs[p], Next(AsBuilt, s, p, id, ids))
  {
    hide TablesOk, OneLive, Exclude, LockPayment, LockBill, WithBill, TakeSnapshot, LockShare, MarkStale, Apply,
         EffectOk, HoldsBill, Concerns, WantsShareOk, Settling, MarkingOk, MayGoOn, Moves, ShareOf;
    var d, l, procs := s.tables, s.locks, s.procs;
    match procs[p] {
      case WantsPayment(q) => LockPaymentIsSound(d, l, procs, p, q);
      case WantsBill(q, b) => LockBillIsSound(d, l, procs, p, q, b);
      case HasBill(q, b) => WithBillIsSound(d, l, procs, p, q, b);
      case Crediting(q, b) => TakeSnapshotIsSound(d, l, procs, p, q, b);
      case WantsShare(q, b, x, seen) => LockShareIsSound(d, l, procs, p, q, b, x, seen);
      case Marking(q, b, live) => MarkStaleIsSound(d, l, procs, p, q, b, live);
      case Ready(q, effect) => ReadyIsSound(d, l, procs, p, q, effect);
      case Done(_, _) =>
    }
  }

  lemma PlanningIsFor(d: Tables, q: Request, plan: Option<Plan>)
    requires Planning(d, q, plan)
    ensures q.Agree? || q.Discard?
  {
  }

  lemma PlannerIsSound(s: State, p: nat, id: nat, ids: seq<nat>)
    requires TablesOk(s.tables) && OneLive(s.tables) && Exclude(s.locks)
    requires p in s.procs && !OnMoney(s.procs[p]) && PlannerOk(s.tables, s.locks, p, s.procs[p])
    ensures Sound(s.tables, s.locks, s.procs, p, s.procs[p], Next(AsBuilt, s, p, id, ids))
  {
    hide TablesOk, OneLive, Exclude, ReadBill, SeekLive, LockSplit, SumShares, CountPending, InsertSplit, Void,
         CommitSplit,
         Planning, MayVoid, MayAgree, MayGoOn, Moves, HoldsMembers, HoldsSplit;
    var d, l, procs := s.tables, s.locks, s.procs;
    match procs[p] {
      case ReadsBill(q) => ReadBillIsSound(d, l, procs, p, q);
      case Seeks(q, plan) => SeekLiveIsSound(d, l, procs, p, q, plan);
      case WantsSplit(q, plan, k) =>
        PlanningIsFor(d, q, plan);
        LockSplitIsSound(d, l, procs, p, q, plan, k);
      case HasSplit(q, plan, k) => SumSharesIsSound(d, l, procs, p, q, plan, k);
      case Summed(q, plan, k) => CountPendingIsSound(d, l, procs, p, q, plan, k);
      case Clear(q, plan, prior) =>
        PlanningIsFor(d, q, plan);
        if q.Discard? {
          DiscardIsSound(d, l, procs, p, q, plan, prior);
        } else {
          InsertIsSound(d, l, procs, p, q, plan, prior, id, ids);
        }
      case Inserted(q, plan, prior, at, k, ks) => AgreeIsSound(d, l, procs, p, procs[p]);
    }
  }

  /** The others' commits leave a transaction all it relied on. */
  lemma CommitHeld(d: Tables, e: Tables, l: Locks, procs: map<nat, Proc>, p: nat, o: nat)
    requires TablesOk(d) && Exclude(l) && AllApart(procs) && p in procs && o in procs && o != p
    requires ProcOk(d, l, p, procs[p]) && ProcOk(d, l, o, procs[o]) && Moves(d, e, l, p, procs[p])
    ensures ProcOk(e, l, o, procs[o])
  {
    hide Moves, Exclude, PayerOk, PlannerOk, SplitOk, LiveOk, PaymentOk, ShareOk;
    if OnMoney(procs[o]) {
      PayerHeld(d, e, l, p, procs[p], o, procs[o]);
    } else {
      PlannerHeld(d, e, l, p, procs[p], o, procs[o]);
    }
  }

  lemma OthersKeep(s: State, p: nat, move: Move, o: nat)
    requires Inv(s) && p in s.procs && Sound(s.tables, s.locks, s.procs, p, s.procs[p], move)
    requires o in s.procs && o != p
    ensures var t := Perform(s, p, move); o in t.procs && ProcOk(t.tables, t.locks, o, t.procs[o])
  {
    hide TablesOk, OneLive, AllApart, ProcOk, Exclude, Kept, Released, Moves;
    var d, l := s.tables, s.locks;
    ReleasedKeeps(l, p);
    match move {
      case Wait =>
      case Refuse => LocksHeld(d, l, Released(l, p), p, o, s.procs[o]);
      case To(at, m) =>
        GoingOnKeeps(d, l, m, p, at);
        LocksHeld(d, l, m, p, o, s.procs[o]);
      case Commit(e) =>
        CommitHeld(d, e, l, s.procs, p, o);
        LocksHeld(e, l, Released(l, p), p, o, s.procs[o]);
    }
  }

  lemma GoingOnKeeps(d: Tables, l: Locks, m: Locks, p: nat, at: Proc)
    requires MayGoOn(d, l, m, p, at)
    ensures Kept(l, m, p) && Exclude(m) && ProcOk(d, m, p, at)
  {
  }

  lemma StaysApart(s: State, p: nat, move: Move)
    requires AllApart(s.procs) && p in s.procs && Sound(s.tables, s.locks, s.procs, p, s.procs[p], move)
    ensures AllApart(Perform(s, p, move).procs)
  {
    hide MayGoOn, TablesOk, OneLive, Moves, Released;
    var t := Perform(s, p, move);
    if move.To? && move.at.Inserted? {
      GoingOnKeeps(s.tables, s.locks, move.locks, p, move.at);
      forall o | o in s.procs && o != p && s.procs[o].Inserted? && s.procs[o].q.Agree?
        ensures Apart(move.at, s.procs[o].q.bill, s.procs[o].id, s.procs[o].ids)
      {
        ApartIsMutual(s.procs[o], move.at);
      }
    }
  }

  lemma ApartIsMutual(one: Proc, other: Proc)
    requires one.Inserted? && one.q.Agree? && other.Inserted? && other.q.Agree?
    requires Apart(one, other.q.bill, other.id, other.ids)
    ensures Apart(other, one.q.bill, one.id, one.ids)
  {
  }

  /** Whatever a sound statement does, the invariant survives it. */
  lemma PerformKeeps(s: State, p: nat, move: Move)
    requires Inv(s) && p in s.procs && Sound(s.tables, s.locks, s.procs, p, s.procs[p], move)
    ensures Inv(Perform(s, p, move))
  {
    hide TablesOk, OneLive, AllApart, Exclude, Kept, Released, Moves, PayerOk, PlannerOk;
    var t := Perform(s, p, move);
    StaysApart(s, p, move);
    ReleasedKeeps(s.locks, p);
    forall o | o in t.procs ensures ProcOk(t.tables, t.locks, o, t.procs[o]) {
      if o != p {
        OthersKeep(s, p, move, o);
      } else {
        OwnKeeps(s, p, move);
      }
    }
  }

  lemma OwnKeeps(s: State, p: nat, move: Move)
    requires p in s.procs && ProcOk(s.tables, s.locks, p, s.procs[p])
    requires Sound(s.tables, s.locks, s.procs, p, s.procs[p], move)
    ensures var t := Perform(s, p, move); ProcOk(t.tables, t.locks, p, t.procs[p])
  {
    hide TablesOk, OneLive, Exclude, Kept, Released, Moves, PlannerOk, EffectOk, Settling, HoldsBill, Concerns;
  }

  lemma StepKeeps(s: State, p: nat, id: nat, ids: seq<nat>)
    requires Inv(s) && p in s.procs
    ensures Inv(Perform(s, p, Next(AsBuilt, s, p, id, ids)))
  {
    hide Inv, Next, Perform, Sound;
    NextIsSound(s, p, id, ids);
    PerformKeeps(s, p, Next(AsBuilt, s, p, id, ids));
  }

  /** Arrivals, statements and crashes, in any order. */
  lemma ExecKeeps(s: State, e: Event)
    requires Inv(s)
    ensures Inv(Exec(AsBuilt, s, e))
  {
    hide Inv, Next, Perform, Finish, Sound;
    match e {
      case Arrive(p, q) =>
        if p !in s.procs {
          ArrivalKeeps(s, p, q);
        }
      case Advance(p, id, ids) =>
        if p in s.procs {
          StepKeeps(s, p, id, ids);
        }
      case Crash(p) =>
        if p in s.procs && !s.procs[p].Done? {
          CrashKeeps(s, p);
        }
    }
  }

  lemma ArrivalKeeps(s: State, p: nat, q: Request)
    requires Inv(s) && p !in s.procs
    ensures Inv(s.(procs := s.procs[p := Start(q)]))
  {
    hide TablesOk, OneLive, Exclude;
    assert ProcOk(s.tables, s.locks, p, Start(q));
    hide ProcOk;
  }

  lemma CrashKeeps(s: State, p: nat)
    requires Inv(s) && p in s.procs
    ensures Inv(Finish(s, p, s.procs[p].q, false))
  {
    hide Inv, Finish;
    PerformKeeps(s, p, Refuse);
  }

  lemma {:induction false} RunKeeps(dues: map<nat, nat>, es: seq<Event>)
    ensures Inv(Run(AsBuilt, Opened(dues), es))
  {
    if es == [] {
      assert forall k: nat, b: nat :: !IsLive(Opened(dues).tables, k, b);
    } else {
      hide Inv, Exec;
      RunKeeps(dues, es[..|es| - 1]);
      ExecKeeps(Run(AsBuilt, Opened(dues), es[..|es| - 1]), es[|es| - 1]);
    }
  }

  ghost predicate Reachable(s: State) {
    exists dues, es: seq<Event> :: s == Run(AsBuilt, Opened(dues), es)
  }

  lemma ReachableIsSound(s: State)
    requires Reachable(s)
    ensures Inv(s)
  {
    hide Inv;
    var dues, es: seq<Event> :| s == Run(AsBuilt, Opened(dues), es);
    RunKeeps(dues, es);
  }

  // ---- What a plan promises ------------------------------------------------

  /**
   * A stored split is the engine's own division of what was outstanding when the
   * bill was read, to the céntimo; each share is paid what the ledger says, and
   * never past its amount.
   */
  lemma SharesAddUp(s: State, k: nat, x: nat)
    requires Reachable(s) && k in s.tables.splits && x in s.tables.splits[k].members
    ensures var d := s.tables; var split := d.splits[k];
            && (forall i :: 0 <= i < |split.members| ==> split.members[i] in d.shares)
            && split.ask.request.participants != []
            && SplitEngine.PreviewOutcome(split.readAt.due, Paid(split.readAt), split.ask.items, split.ask.request)
               == Success(Amounts(d.shares, split.members))
            && LargestRemainder.Sum(Amounts(d.shares, split.members)) == split.basis
               == split.readAt.due - Paid(split.readAt)
    ensures s.tables.shares[x].split == k
    ensures s.tables.shares[x].paid == Settled(s.tables.payments, x) <= s.tables.shares[x].amount
  {
    ReachableIsSound(s);
    hide LiveOk, PaymentOk, Settled;
    assert SplitOk(s.tables, k);
    var i :| 0 <= i < |s.tables.splits[k].members| && s.tables.splits[k].members[i] == x;
    assert ShareOk(s.tables, x);
  }

  /** The deferred constraint on a split's sum never refuses one: COMMIT always follows INSERT. */
  lemma AgreementsCommit(s: State, p: nat, id: nat, ids: seq<nat>)
    requires Reachable(s) && p in s.procs && s.procs[p].Inserted?
    ensures Next(AsBuilt, s, p, id, ids).Commit?
  {
    hide Inv, Reachable;
    ReachableIsSound(s);
    InsertedCommits(s, p, id, ids);
  }

  lemma InsertedCommits(s: State, p: nat, id: nat, ids: seq<nat>)
    requires Inv(s) && p in s.procs && s.procs[p].Inserted?
    ensures Next(AsBuilt, s, p, id, ids).Commit?
  {
    hide TablesOk, OneLive, CommitSplit, MayVoid, MayAgree, PlanOk, Exclude, AllApart;
    AgreeIsSound(s.tables, s.locks, s.procs, p, s.procs[p]);
  }

  /** A voided plan holds nobody's money, however payments, claims and confirmations interleaved with the voiding. */
  lemma VoidHoldsNoMoney(s: State, k: nat, x: nat)
    requires Reachable(s) && k in s.tables.splits && s.tables.splits[k].status == VOID
    requires x in s.tables.splits[k].members
    ensures x in s.tables.shares && s.tables.shares[x].paid == 0 == Settled(s.tables.payments, x)
  {
    hide Settled;
    SharesAddUp(s, k, x);
    ReachableIsSound(s);
    assert ShareOk(s.tables, x);
  }

  // ---- What a commit may change --------------------------------------------

  /** Only commits write, and only what they have locked. */
  lemma ExecMoves(s: State, e: Event)
    requires Inv(s)
    ensures var t := Exec(AsBuilt, s, e).tables;
            t == s.tables || (e.Advance? && e.p in s.procs && Moves(s.tables, t, s.locks, e.p, s.procs[e.p]))
  {
    hide Inv, Next, Moves, TablesOk, OneLive, MayGoOn;
    if e.Advance? && e.p in s.procs {
      NextIsSound(s, e.p, e.id, e.ids);
    }
  }

  /** From one moment to a later one. */
  ghost predicate Onward(d: Tables, e: Tables) {
    && (forall b :: b in d.bills ==> b in e.bills && Since(d.bills[b], e.bills[b]))
    && (forall k :: k in d.splits ==> SplitGoesOn(d, e, k))
    && (forall x :: x in d.shares ==> ShareGoesOn(d, e, x))
    && |d.payments| <= |e.payments|
    && (forall i :: 0 <= i < |d.payments| ==> e.payments[i] == d.payments[i] || e.payments[i].status != PENDING)
  }

  /** Plans keep their terms, and one that is no longer ACTIVE keeps its status. */
  predicate SplitGoesOn(d: Tables, e: Tables, k: nat)
    requires k in d.splits
  {
    && k in e.splits && SameTerms(d.splits[k], e.splits[k])
    && (d.splits[k].status != ACTIVE ==> e.splits[k] == d.splits[k])
  }

  /** Shares are credited and never debited, and no longer once their plan is not ACTIVE. */
  predicate ShareGoesOn(d: Tables, e: Tables, x: nat)
    requires x in d.shares
  {
    && x in e.shares && e.shares[x].split == d.shares[x].split && e.shares[x].amount == d.shares[x].amount
    && d.shares[x].paid <= e.shares[x].paid
    && (d.shares[x].split in d.splits && !Accepts(d, x) ==> e.shares[x] == d.shares[x])
  }

  lemma MovesOnward(d: Tables, e: Tables, l: Locks, p: nat, mine: Proc)
    requires Moves(d, e, l, p, mine)
    ensures Onward(d, e)
  {
    forall k | k in d.splits ensures SplitGoesOn(d, e, k) {
      assert SplitMoves(d, e, l, p, k);
    }
    forall x | x in d.shares ensures ShareGoesOn(d, e, x) {
      assert ShareMoves(d, e, l, p, x);
    }
    forall i | 0 <= i < |d.payments| ensures e.payments[i] == d.payments[i] || e.payments[i].status != PENDING {
      assert PaymentMoves(d, e, l, p, i);
    }
    forall b | b in d.bills ensures b in e.bills && Since(d.bills[b], e.bills[b]) {
      assert BillMoves(d, e, l, p, b);
    }
  }

  lemma OnwardTwice(c: Tables, d: Tables, e: Tables)
    requires Onward(c, d) && Onward(d, e)
    ensures Onward(c, e)
  {
    forall x | x in c.shares ensures ShareGoesOn(c, e, x) {
      assert ShareGoesOn(c, d, x) && ShareGoesOn(d, e, x);
      if x in d.shares && d.shares[x].split in c.splits {
        assert SplitGoesOn(c, d, d.shares[x].split);
      }
    }
    forall k | k in c.splits ensures SplitGoesOn(c, e, k) {
      assert SplitGoesOn(c, d, k) && SplitGoesOn(d, e, k);
    }
    forall i | 0 <= i < |c.payments| ensures e.payments[i] == c.payments[i] || e.payments[i].status != PENDING {
      assert i < |d.payments|;
    }
  }

  lemma ExecOnward(s: State, e: Event)
    requires Inv(s)
    ensures Onward(s.tables, Exec(AsBuilt, s, e).tables)
  {
    hide Inv, Exec, Moves;
    ExecMoves(s, e);
    if Exec(AsBuilt, s, e).tables != s.tables {
      MovesOnward(s.tables, Exec(AsBuilt, s, e).tables, s.locks, e.p, s.procs[e.p]);
    }
  }

  lemma Standing(d: Tables)
    ensures Onward(d, d)
  {
  }

  lemma {:induction false} RunOnward(s: State, es: seq<Event>)
    requires Inv(s)
    ensures Inv(Run(AsBuilt, s, es)) && Onward(s.tables, Run(AsBuilt, s, es).tables)
  {
    if es == [] {
      Standing(s.tables);
    } else {
      hide Inv, Exec, Onward;
      var m := Run(AsBuilt, s, es[..|es| - 1]);
      RunOnward(s, es[..|es| - 1]);
      ExecKeeps(m, es[|es| - 1]);
      ExecOnward(m, es[|es| - 1]);
      OnwardTwice(s.tables, m.tables, Run(AsBuilt, s, es).tables);
    }
  }

  /** Once the bill has moved on, or the plan was discarded, no share of it takes another céntimo. */
  lemma RetiredTakesNoMoney(s: State, es: seq<Event>, k: nat, x: nat)
    requires Reachable(s) && k in s.tables.splits && s.tables.splits[k].status != ACTIVE
    requires x in s.tables.splits[k].members
    ensures var d, e := s.tables, Run(AsBuilt, s, es).tables;
            && k in e.splits && e.splits[k] == d.splits[k]
            && x in d.shares && x in e.shares && e.shares[x] == d.shares[x]
  {
    hide Inv, Run, Settled, Since, SameTerms;
    SharesAddUp(s, k, x);
    ReachableIsSound(s);
    RunOnward(s, es);
    assert SplitGoesOn(s.tables, Run(AsBuilt, s, es).tables, k);
    assert ShareGoesOn(s.tables, Run(AsBuilt, s, es).tables, x);
  }

  // ---- Who loses an agreement ----------------------------------------------

  /** An agreement that replaces a plan never meets the unique index: what it would meet is what it voids. */
  lemma ReplacingNeverConflicts(s: State, p: nat, id: nat, ids: seq<nat>)
    requires Reachable(s) && p in s.procs && s.procs[p].Clear? && s.procs[p].q.Agree? && s.procs[p].prior.Some?
    ensures !Next(AsBuilt, s, p, id, ids).Refuse?
  {
    hide Reachable, TablesOk, Exclude, AllApart, Planning, Unused;
    ReachableIsSound(s);
    assert ProcOk(s.tables, s.locks, p, s.procs[p]);
    assert IsLive(s.tables, s.procs[p].prior.value, s.procs[p].q.bill);
  }

  predicate By(e: Event, p: nat) { !e.Arrive? && e.p == p }

  lemma WritersSucceed(s: State, e: Event)
    requires Exec(AsBuilt, s, e).tables != s.tables
    ensures e.Advance? && var at := Exec(AsBuilt, s, e).procs; e.p in at && at[e.p].Done? && at[e.p].ok
  {
    hide Next, Released;
  }

  lemma DoneIsFinal(s: State, e: Event, p: nat)
    requires p in s.procs && s.procs[p].Done?
    ensures var at := Exec(AsBuilt, s, e).procs; p in at && at[p] == s.procs[p]
  {
    hide Released, LockPayment, LockBill, WithBill, TakeSnapshot, LockShare, MarkStale, Apply, ReadBill, SeekLive,
         LockSplit,
         SumShares, CountPending, InsertSplit, Void, CommitSplit;
  }

  lemma {:induction false} StillDone(dues: map<nat, nat>, es: seq<Event>, p: nat, i: nat)
    requires i <= |es|
    requires var at := Run(AsBuilt, Opened(dues), es[..i]).procs; p in at && at[p].Done? && at[p].ok
    ensures var at := Run(AsBuilt, Opened(dues), es).procs; p in at && at[p].Done? && at[p].ok
  {
    hide Exec;
    var n := |es| - 1;
    if i == |es| {
      assert es[..i] == es;
    } else {
      assert es[..n][..i] == es[..i];
      StillDone(dues, es[..n], p, i);
      DoneIsFinal(Run(AsBuilt, Opened(dues), es[..n]), es[n], p);
    }
  }

  /** A transaction that failed, whatever stopped it, wrote nothing: no split, no share, and no voided plan. */
  lemma LosingAgreementLeavesNothing(dues: map<nat, nat>, es: seq<Event>, p: nat, i: nat)
    requires i < |es| && By(es[i], p)
    requires var at := Run(AsBuilt, Opened(dues), es).procs; p in at && at[p].Done? && !at[p].ok
    ensures Run(AsBuilt, Opened(dues), es[..i + 1]).tables == Run(AsBuilt, Opened(dues), es[..i]).tables
  {
    hide Exec;
    var m, t := Run(AsBuilt, Opened(dues), es[..i]), Run(AsBuilt, Opened(dues), es[..i + 1]);
    assert es[..i + 1][..i] == es[..i];
    if t.tables != m.tables {
      WritersSucceed(m, es[i]);
      StillDone(dues, es, p, i + 1);
    }
  }
}
