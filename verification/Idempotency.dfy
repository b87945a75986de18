/**
 * One idempotency key around a charge (src/services/idempotency.js and its two
 * callers): claim the key, charge, store the response or release the key.
 *
 * Any number of requests carry the same key and stop between any two
 * statements. A row knows nothing of who claimed it: `complete` and `abort`
 * address it by key alone. `claimant` and `before` are bookkeeping of the model
 * (the row's identity, and how many payments there were when it was inserted);
 * no step reads them.
 */
module Idempotency {
  import opened Wrappers

  const DAY: nat := 86400
  const MAX_CLAIM_ATTEMPTS: nat := 2

  datatype Row = Row(claimant: nat, before: nat, hash: nat, expires: nat, response: Option<nat>)
  datatype Payment = Payment(payer: nat, hash: nat, body: nat)
  datatype Reply = Answered(body: nat) | InFlight | KeyReused | Failed

  datatype Pc =
    | Clearing(attempt: nat) | Claiming(attempt: nat) | Looking(attempt: nat) // begin
    | Working                                                               // the charge
    | Completing(body: nat)                                                 // paid; the response is not stored yet
    | Aborting
    | Done(reply: Reply)

  datatype Request = Request(hash: nat, at: Pc)

  /**
   * `uniqueIndex`: one payment a key, in the ledger itself. `reattempt`: a
   * vanished row is claimed again, not granted on trust.
   */
  datatype Rules = Rules(uniqueIndex: bool, reattempt: bool)

  datatype State = State(now: nat, row: Option<Row>, payments: seq<Payment>, requests: map<nat, Request>)

  datatype Event =
    | Arrive(p: nat, hash: nat)
    | Advance(p: nat, body: nat)       // the next statement succeeds; `body` is what a charge would answer
    | ChargeFails(p: nat)              // rolled back, and known to be
    | ChargeLost(p: nat, body: nat)    // COMMIT lands, its answer does not
    | ClaimLost(p: nat)                // the claim's INSERT lands, its answer does not
    | CompleteThrows(p: nat)
    | Dies(p: nat)                     // any other error before the claim, a failed abort, or the process ending
    | Tick(seconds: nat)
    | Purge

  function Goto(s: State, p: nat, at: Pc): State
    requires p in s.requests
  {
    s.(requests := s.requests[p := s.requests[p].(at := at)])
  }

  function At(s: State, p: nat): Option<Pc> {
    if p in s.requests then Some(s.requests[p].at) else None
  }

  predicate Expired(s: State) { s.row.Some? && s.row.value.expires <= s.now }

  /** `DELETE … WHERE expires_at <= NOW()`. */
  function ClearExpired(s: State): State {
    if Expired(s) then s.(row := None) else s
  }

  /** `INSERT … ON CONFLICT DO NOTHING`. */
  function Claim(s: State, p: nat): State
    requires p in s.requests
  {
    if s.row.Some? then s
    else s.(row := Some(Row(p, |s.payments|, s.requests[p].hash, s.now + DAY, None)))
  }

  /** What the row a conflicting claim finds has to say. */
  function Look(rules: Rules, s: State, p: nat, attempt: nat): Pc
    requires p in s.requests
  {
    match s.row
    case None =>
      if !rules.reattempt then Working
      else if attempt >= MAX_CLAIM_ATTEMPTS then Done(InFlight)
      else Clearing(attempt + 1)
    case Some(row) =>
      if row.hash != s.requests[p].hash then Done(KeyReused)
      else if row.response.Some? then Done(Answered(row.response.value))
      else Done(InFlight)
  }

  /** The charge's transaction: the ledger refuses a second payment for the key where it has the index. */
  function Charge(rules: Rules, s: State, p: nat, body: nat): Option<State>
    requires p in s.requests
  {
    if rules.uniqueIndex && s.payments != [] then None
    else Some(s.(payments := s.payments + [Payment(p, s.requests[p].hash, body)]))
  }

  /** `UPDATE … SET response`, by key alone. */
  function Complete(s: State, body: nat): State {
    if s.row.Some? then s.(row := Some(s.row.value.(response := Some(body)))) else s
  }

  /** `DELETE … WHERE response_status IS NULL`, by key alone. */
  function Abort(s: State): State {
    if s.row.Some? && s.row.value.response == None then s.(row := None) else s
  }

  function Step(rules: Rules, s: State, p: nat, body: nat): State {
    if p !in s.requests then s
    else
      match s.requests[p].at
      case Clearing(n) => Goto(ClearExpired(s), p, Claiming(n))
      case Claiming(n) => Goto(Claim(s, p), p, if s.row.None? then Working else Looking(n))
      case Looking(n) => Goto(s, p, Look(rules, s, p, n))
      case Working =>
        var charged := Charge(rules, s, p, body);
        if charged.Some? then Goto(charged.value, p, Completing(body)) else Goto(s, p, Aborting)
      case Completing(b) => Goto(Complete(s, b), p, Done(Answered(b)))
      case Aborting => Goto(Abort(s), p, Done(Failed))
      case Done(_) => s
  }

  function Exec(rules: Rules, s: State, e: Event): State {
    match e
    case Arrive(p, hash) => if p in s.requests then s else s.(requests := s.requests[p := Request(hash, Clearing(1))])
    case Advance(p, body) => Step(rules, s, p, body)
    case ChargeFails(p) => if At(s, p) == Some(Working) then Goto(s, p, Aborting) else s
    case ChargeLost(p, body) =>
      if At(s, p) != Some(Working) then s
      else
        var charged := Charge(rules, s, p, body);
        Goto(if charged.Some? then charged.value else s, p, Aborting)
    case ClaimLost(p) =>
      if p in s.requests && s.requests[p].at.Claiming? then Goto(Claim(s, p), p, Done(Failed)) else s
    case CompleteThrows(p) =>
      if p in s.requests && s.requests[p].at.Completing? then Goto(s, p, Aborting) else s
    case Dies(p) => if p in s.requests && !s.requests[p].at.Done? then Goto(s, p, Done(Failed)) else s
    case Tick(seconds) => s.(now := s.now + seconds)
    case Purge => ClearExpired(s)
  }

  ghost function Run(rules: Rules, s: State, es: seq<Event>): State {
    if es == [] then s else Exec(rules, Run(rules, s, es[..|es| - 1]), es[|es| - 1])
  }

  const Initial: State := State(0, None, [], map[])

  // ---- With the ledger's index: every run, whatever goes wrong --------------

  ghost predicate BodiesArePaid(s: State) {
    && (s.row.Some? && s.row.value.response.Some? ==> Paid(s, s.row.value.response.value))
    && (forall p :: p in s.requests ==> BodyIsPaid(s, s.requests[p].at))
  }

  predicate BodyIsPaid(s: State, at: Pc) {
    && (at.Completing? ==> Paid(s, at.body))
    && (at.Done? && at.reply.Answered? ==> Paid(s, at.reply.body))
  }

  predicate Paid(s: State, body: nat) {
    exists k :: 0 <= k < |s.payments| && s.payments[k].body == body
  }

  lemma PaidForGood(s: State, t: State)
    requires s.payments <= t.payments
    ensures forall b :: Paid(s, b) ==> Paid(t, b)
  {
    forall b | Paid(s, b) ensures Paid(t, b) {
      var k :| 0 <= k < |s.payments| && s.payments[k].body == b;
      assert t.payments[k].body == b;
    }
  }

  lemma BodiesStayPaid(rules: Rules, s: State, e: Event)
    requires BodiesArePaid(s)
    ensures BodiesArePaid(Exec(rules, s, e)) && s.payments <= Exec(rules, s, e).payments
  {
    var t := Exec(rules, s, e);
    if e.Advance? {
      StepStaysPaid(rules, s, e.p, e.body);
    } else {
      PaidForGood(s, t);
      forall p | p in t.requests ensures BodyIsPaid(t, t.requests[p].at) {
        assert p in s.requests ==> BodyIsPaid(s, s.requests[p].at);
      }
    }
  }

  lemma StepStaysPaid(rules: Rules, s: State, p: nat, body: nat)
    requires BodiesArePaid(s)
    ensures BodiesArePaid(Step(rules, s, p, body)) && s.payments <= Step(rules, s, p, body).payments
  {
    if p in s.requests {
      var t := Step(rules, s, p, body);
      PaidForGood(s, t);
      assert BodyIsPaid(s, s.requests[p].at);
      assert t.payments != s.payments ==> t.payments[|s.payments|].body == body;
      assert BodyIsPaid(t, t.requests[p].at);
      hide Step;
      forall o | o in t.requests ensures BodyIsPaid(t, t.requests[o].at) {
        assert o in s.requests ==> BodyIsPaid(s, s.requests[o].at);
      }
    }
  }

  lemma {:induction false} OnePaymentPerKey(reattempt: bool, es: seq<Event>)
    ensures |Run(Rules(true, reattempt), Initial, es).payments| <= 1
    ensures BodiesArePaid(Run(Rules(true, reattempt), Initial, es))
  {
    if es != [] {
      var s := Run(Rules(true, reattempt), Initial, es[..|es| - 1]);
      OnePaymentPerKey(reattempt, es[..|es| - 1]);
      hide BodiesArePaid;
      BodiesStayPaid(Rules(true, reattempt), s, es[|es| - 1]);
    }
  }

  /** Whatever fails, expires, races or is retried: one payment at most, and every success is that payment's answer. */
  lemma EverySuccessIsTheOnePayment(reattempt: bool, es: seq<Event>, p: nat)
    requires var s := Run(Rules(true, reattempt), Initial, es);
             At(s, p).Some? && At(s, p).value.Done? && At(s, p).value.reply.Answered?
    ensures var s := Run(Rules(true, reattempt), Initial, es);
            |s.payments| == 1 && At(s, p).value.reply == Answered(s.payments[0].body)
  {
    hide Run;
    OnePaymentPerKey(reattempt, es);
    var s := Run(Rules(true, reattempt), Initial, es);
    assert BodyIsPaid(s, s.requests[p].at);
  }

  // ---- Without it: what the key alone gives ---------------------------------

  predicate Holding(at: Pc) { at.Working? || at.Completing? || at.Aborting? }

  /**
   * What the key relies on: COMMIT answers, `complete` does not throw, and a
   * request is over before its row expires.
   */
  predicate Orderly(s: State, e: Event) {
    && !e.ChargeLost? && !e.CompleteThrows?
    && (e.Tick? && InUse(s) ==> s.now + e.seconds < s.row.value.expires)
  }

  predicate InUse(s: State) {
    s.row.Some? && s.row.value.claimant in s.requests && Holding(s.requests[s.row.value.claimant].at)
  }

  ghost predicate OrderlyRun(rules: Rules, s: State, es: seq<Event>) {
    es == [] || (OrderlyRun(rules, s, es[..|es| - 1]) && Orderly(Run(rules, s, es[..|es| - 1]), es[|es| - 1]))
  }

  /** Payments made since the row was inserted: none, or its claimant's one. */
  predicate RowOk(s: State, row: Row) {
    && row.claimant in s.requests && s.requests[row.claimant].hash == row.hash
    && row.before <= |s.payments| <= row.before + 1
    && (|s.payments| > row.before ==>
          s.payments[row.before].payer == row.claimant && s.payments[row.before].hash == row.hash)
    && (row.response.Some? ==> |s.payments| > row.before && s.payments[row.before].body == row.response.value)
  }

  /** Whoever is past the claim is behind the row that is there. */
  predicate HolderOk(s: State, p: nat)
    requires p in s.requests
  {
    var at := s.requests[p].at;
    Holding(at) ==>
      && s.row.Some? && s.row.value.claimant == p && s.row.value.response == None && s.now < s.row.value.expires
      && (!at.Completing? ==> |s.payments| == s.row.value.before)
      && (at.Completing? ==>
            && |s.payments| == s.row.value.before + 1
            && s.payments[s.row.value.before] == Payment(p, s.requests[p].hash, at.body))
  }

  ghost predicate KeyInv(s: State) {
    && (s.row.Some? ==> RowOk(s, s.row.value))
    && forall p :: p in s.requests ==> HolderOk(s, p)
  }

  lemma KeyStep(index: bool, s: State, e: Event)
    requires KeyInv(s) && Orderly(s, e)
    ensures KeyInv(Exec(Rules(index, true), s, e))
  {
    var t := Exec(Rules(index, true), s, e);
    if e.Advance? {
      if e.p in s.requests {
        if Holding(s.requests[e.p].at) {
          HolderSteps(index, s, e.p, e.body);
        } else {
          OutsiderSteps(index, s, e.p, e.body);
        }
      }
    } else if e.ClaimLost? {
      OutsiderLoses(s, e.p);
    } else {
      forall p | p in t.requests ensures HolderOk(t, p) {
        assert p in s.requests ==> HolderOk(s, p);
      }
    }
  }

  lemma OutsiderSteps(index: bool, s: State, p: nat, body: nat)
    requires KeyInv(s) && p in s.requests && !Holding(s.requests[p].at)
    ensures KeyInv(Step(Rules(index, true), s, p, body))
  {
    var t := Step(Rules(index, true), s, p, body);
    assert s.row.Some? && t.row.None? ==> !InUse(s) by {
      if InUse(s) {
        assert HolderOk(s, s.row.value.claimant);
      }
    }
    forall o | o in t.requests ensures HolderOk(t, o) {
      assert HolderOk(s, o);
    }
  }

  lemma OutsiderLoses(s: State, p: nat)
    requires KeyInv(s)
    ensures KeyInv(Exec(Rules(true, true), s, ClaimLost(p)))
  {
    var t := Exec(Rules(true, true), s, ClaimLost(p));
    forall o | o in t.requests ensures HolderOk(t, o) {
      assert HolderOk(s, o);
    }
  }

  /** Only one request is past the claim: while it steps the others have nothing to lose. */
  lemma HolderSteps(index: bool, s: State, p: nat, body: nat)
    requires KeyInv(s) && p in s.requests && Holding(s.requests[p].at)
    ensures KeyInv(Step(Rules(index, true), s, p, body))
  {
    var t := Step(Rules(index, true), s, p, body);
    assert HolderOk(s, p);
    assert HolderOk(t, p);
    forall o | o in t.requests ensures HolderOk(t, o) {
      assert HolderOk(s, o);
      assert o != p ==> !Holding(s.requests[o].at) && t.requests[o] == s.requests[o];
    }
  }

  lemma {:induction false} KeyHolds(index: bool, es: seq<Event>)
    requires OrderlyRun(Rules(index, true), Initial, es)
    ensures KeyInv(Run(Rules(index, true), Initial, es))
  {
    if es != [] {
      hide Exec;
      KeyHolds(index, es[..|es| - 1]);
      KeyStep(index, Run(Rules(index, true), Initial, es[..|es| - 1]), es[|es| - 1]);
    }
  }

  /** Each payment so far took a claim of its own, a day after the one before. */
  predicate Paced(s: State) {
    match s.row
    case None => |s.payments| * DAY <= s.now
    case Some(row) => row.before * DAY + DAY <= row.expires <= s.now + DAY
  }

  lemma StepKeepsPace(s: State, e: Event)
    requires KeyInv(s) && Orderly(s, e) && Paced(s)
    ensures Paced(Exec(Rules(false, true), s, e))
  {
    var t := Exec(Rules(false, true), s, e);
    if e.Advance? && e.p in s.requests {
      assert HolderOk(s, e.p);
    }
    KeyStep(false, s, e);
    if s.row.Some? {
      NextDay(s.row.value.before, |s.payments|);
    }
  }

  lemma NextDay(before: nat, payments: nat)
    requires before <= payments <= before + 1
    ensures payments == before ==> before * DAY == payments * DAY
    ensures payments * DAY <= before * DAY + DAY
  {
  }

  lemma {:induction false} RunKeepsPace(es: seq<Event>)
    requires OrderlyRun(Rules(false, true), Initial, es)
    ensures Paced(Run(Rules(false, true), Initial, es))
  {
    if es != [] {
      hide Exec, Paced, Orderly;
      KeyHolds(false, es[..|es| - 1]);
      RunKeepsPace(es[..|es| - 1]);
      StepKeepsPace(Run(Rules(false, true), Initial, es[..|es| - 1]), es[|es| - 1]);
    }
  }

  /** Without any index in the ledger, a key pays once a day at most: once, until the first day is over. */
  lemma OnePaymentADay(es: seq<Event>)
    requires OrderlyRun(Rules(false, true), Initial, es)
    ensures var s := Run(Rules(false, true), Initial, es); |s.payments| <= s.now / DAY + 1
  {
    hide Run, OrderlyRun;
    KeyHolds(false, es);
    RunKeepsPace(es);
    var s := Run(Rules(false, true), Initial, es);
    DaysGoneBy(|s.payments|, s.now);
  }

  lemma DaysGoneBy(payments: nat, now: nat)
    ensures payments * DAY <= now + DAY ==> payments <= now / DAY + 1
  {
    assert now == now / DAY * DAY + now % DAY;
  }

  /**
   * Without any index in the ledger: while a row lives at most one payment is
   * made for its key, by the request that claimed it and for the payload it
   * was claimed with.
   */
  lemma OnePaymentPerClaim(es: seq<Event>)
    requires OrderlyRun(Rules(false, true), Initial, es)
    ensures var s := Run(Rules(false, true), Initial, es);
            s.row.Some? ==>
              && s.row.value.before <= |s.payments| <= s.row.value.before + 1
              && forall k :: s.row.value.before <= k < |s.payments| ==>
                   s.payments[k].payer == s.row.value.claimant && s.payments[k].hash == s.row.value.hash
  {
    hide Run, OrderlyRun;
    KeyHolds(false, es);
  }

  /** An abort only ever deletes the row of the request that aborts, and that request has not paid. */
  lemma AbortSparesThePaid(index: bool, es: seq<Event>, p: nat)
    requires OrderlyRun(Rules(index, true), Initial, es)
    requires At(Run(Rules(index, true), Initial, es), p) == Some(Aborting)
    ensures var s := Run(Rules(index, true), Initial, es);
            && s.row.Some? && s.row.value.claimant == p
            && |s.payments| == s.row.value.before
            && Step(Rules(index, true), s, p, 0).row == None
  {
    hide Run, OrderlyRun;
    KeyHolds(index, es);
    assert HolderOk(Run(Rules(index, true), Initial, es), p);
  }

  /** A success answers with the payment of the row's own claim, made for the very payload of the request answered. */
  lemma SuccessIsTheClaimsPayment(index: bool, es: seq<Event>, p: nat, body: nat)
    requires OrderlyRun(Rules(index, true), Initial, es)
    requires var s := Run(Rules(index, true), Initial, es);
             var t := Step(Rules(index, true), s, p, 0);
             p in s.requests && !s.requests[p].at.Done? && t.requests[p].at == Done(Answered(body))
    ensures var s := Run(Rules(index, true), Initial, es);
            && s.row.Some? && |s.payments| == s.row.value.before + 1
            && s.payments[s.row.value.before].body == body
            && s.payments[s.row.value.before].hash == s.requests[p].hash
  {
    hide Run, OrderlyRun;
    KeyHolds(index, es);
    assert HolderOk(Run(Rules(index, true), Initial, es), p);
  }

  // ---- When an abort forgets a payment -------------------------------------

  /** The state after the first `j` events. */
  ghost function After(index: bool, es: seq<Event>, j: nat): State
    requires j <= |es|
  {
    Run(Rules(index, true), Initial, es[..j])
  }

  predicate IsMine(s: State, p: nat) { s.row.Some? && s.row.value.claimant == p }

  predicate HasPaid(s: State, p: nat) { exists k :: 0 <= k < |s.payments| && s.payments[k].payer == p }

  /** This event is a COMMIT of `p`'s charge. */
  predicate Pays(s: State, e: Event, t: State, p: nat) {
    (e.Advance? || e.ChargeLost?) && e.p == p && |t.payments| > |s.payments|
  }

  /** It is one whose answer is lost, or it is `p`'s `complete` throwing. */
  predicate Misleads(s: State, e: Event, t: State, p: nat) {
    || (e.ChargeLost? && Pays(s, e, t, p))
    || (e.CompleteThrows? && e.p == p && p in s.requests && s.requests[p].at.Completing?)
  }

  /** It takes away the row `p` claimed. */
  predicate Bereaves(s: State, t: State, p: nat) { IsMine(s, p) && !IsMine(t, p) }

  /** The same of event `j` of a run. */
  ghost predicate PaysAt(index: bool, es: seq<Event>, p: nat, j: nat) {
    j < |es| && Pays(After(index, es, j), es[j], After(index, es, j + 1), p)
  }

  ghost predicate MisleadsAt(index: bool, es: seq<Event>, p: nat, j: nat) {
    j < |es| && Misleads(After(index, es, j), es[j], After(index, es, j + 1), p)
  }

  ghost predicate BereavesAt(index: bool, es: seq<Event>, p: nat, j: nat) {
    j < |es| && Bereaves(After(index, es, j), After(index, es, j + 1), p)
  }

  ghost predicate PaidSoFar(index: bool, es: seq<Event>, p: nat) { exists j: nat :: PaysAt(index, es, p, j) }

  ghost predicate Misled(index: bool, es: seq<Event>, p: nat) { exists j: nat :: MisleadsAt(index, es, p, j) }

  ghost predicate Outlived(index: bool, es: seq<Event>, p: nat) { exists j: nat :: BereavesAt(index, es, p, j) }

  lemma LastEvent(index: bool, es: seq<Event>)
    requires es != []
    ensures var n := |es| - 1;
            After(index, es, |es|) == Exec(Rules(index, true), After(index, es, n), es[n])
    ensures forall j: nat :: j < |es| ==> After(index, es[..|es| - 1], j) == After(index, es, j)
  {
    hide Exec;
    var n := |es| - 1;
    assert es[..|es|] == es && es[..n][..n] == es[..n];
    forall j: nat | j < |es| ensures After(index, es[..n], j) == After(index, es, j) {
      assert es[..n][..j] == es[..j];
    }
  }

  lemma EarlierEvents(index: bool, es: seq<Event>, p: nat, j: nat)
    requires es != [] && j < |es| - 1
    ensures PaysAt(index, es[..|es| - 1], p, j) == PaysAt(index, es, p, j)
    ensures MisleadsAt(index, es[..|es| - 1], p, j) == MisleadsAt(index, es, p, j)
    ensures BereavesAt(index, es[..|es| - 1], p, j) == BereavesAt(index, es, p, j)
  {
    hide After, Pays, Misleads, Bereaves;
    LastEvent(index, es);
  }

  /** What a run did to `p` is what its last event did, or what it had done before. */
  lemma SoFar(index: bool, es: seq<Event>, p: nat)
    requires es != []
    ensures var n := |es| - 1;
            && (PaidSoFar(index, es, p) <==> PaidSoFar(index, es[..n], p) || PaysAt(index, es, p, n))
            && (Misled(index, es, p) <==> Misled(index, es[..n], p) || MisleadsAt(index, es, p, n))
            && (Outlived(index, es, p) <==> Outlived(index, es[..n], p) || BereavesAt(index, es, p, n))
  {
    var n := |es| - 1;
    forall j: nat
      ensures PaysAt(index, es, p, j) <==> PaysAt(index, es[..n], p, j) || (j == n && PaysAt(index, es, p, n))
      ensures MisleadsAt(index, es, p, j) <==>
                MisleadsAt(index, es[..n], p, j) || (j == n && MisleadsAt(index, es, p, n))
      ensures BereavesAt(index, es, p, j) <==>
                BereavesAt(index, es[..n], p, j) || (j == n && BereavesAt(index, es, p, n))
    {
      if j < n {
        EarlierEvents(index, es, p, j);
      }
    }
    hide PaysAt, MisleadsAt, BereavesAt;
  }

  /** Where `p` is, and what has happened to it. */
  predicate Remembers(s: State, p: nat, misled: bool, outlived: bool) {
    if p !in s.requests then !HasPaid(s, p) && !misled && !outlived && !IsMine(s, p)
    else
      match s.requests[p].at
      case Working => !HasPaid(s, p) && !misled && (IsMine(s, p) <==> !outlived)
      case Completing(_) => HasPaid(s, p) && !misled && (IsMine(s, p) <==> !outlived)
      case Aborting => (HasPaid(s, p) <==> misled) && (IsMine(s, p) <==> !outlived)
      case Done(_) => true
      case _ => !HasPaid(s, p) && !misled && !outlived && !IsMine(s, p)
  }

  /** The ledger only grows, by one payment of whoever pays. */
  lemma PaysOnce(index: bool, s: State, e: Event, p: nat)
    ensures var t := Exec(Rules(index, true), s, e); HasPaid(t, p) <==> HasPaid(s, p) || Pays(s, e, t, p)
  {
    var t := Exec(Rules(index, true), s, e);
    assert s.payments <= t.payments;
    assert |t.payments| <= |s.payments| + 1;
    forall k | 0 <= k < |s.payments| ensures t.payments[k] == s.payments[k] {
    }
    assert |t.payments| > |s.payments| ==>
        (e.Advance? || e.ChargeLost?) && t.payments[|s.payments|].payer == e.p;
  }

  lemma StillRemembers(index: bool, s: State, e: Event, p: nat, misled: bool, outlived: bool)
    requires Remembers(s, p, misled, outlived)
    ensures var t := Exec(Rules(index, true), s, e);
            Remembers(t, p, misled || Misleads(s, e, t, p), outlived || Bereaves(s, t, p))
  {
    hide HasPaid;
    PaysOnce(index, s, e, p);
    if e.Advance? {
      StepRemembers(index, s, e, p, misled, outlived);
    }
  }

  lemma StepRemembers(index: bool, s: State, e: Event, p: nat, misled: bool, outlived: bool)
    requires Remembers(s, p, misled, outlived) && e.Advance?
    ensures var t := Exec(Rules(index, true), s, e);
            Remembers(t, p, misled || Misleads(s, e, t, p), outlived || Bereaves(s, t, p))
  {
    hide HasPaid;
    PaysOnce(index, s, e, p);
  }

  lemma {:induction false} RunRemembers(index: bool, es: seq<Event>, p: nat)
    ensures Remembers(After(index, es, |es|), p, Misled(index, es, p), Outlived(index, es, p))
    ensures HasPaid(After(index, es, |es|), p) <==> PaidSoFar(index, es, p)
  {
    hide Remembers, Exec, Misleads, Bereaves, Pays, Misled, Outlived, PaidSoFar, HasPaid, After;
    if es == [] {
      NothingYet(index, es, p);
    } else {
      var n := |es| - 1;
      RunRemembers(index, es[..n], p);
      LastEvent(index, es);
      SoFar(index, es, p);
      StillRemembers(index, After(index, es, n), es[n], p, Misled(index, es[..n], p), Outlived(index, es[..n], p));
      PaysOnce(index, After(index, es, n), es[n], p);
    }
  }

  lemma NothingYet(index: bool, es: seq<Event>, p: nat)
    requires es == []
    ensures Remembers(After(index, es, 0), p, Misled(index, es, p), Outlived(index, es, p))
    ensures !HasPaid(After(index, es, 0), p) && !PaidSoFar(index, es, p)
  {
  }

  /**
   * The exact condition, over any run of the code as it is: an abort deletes the
   * row of a request that has paid if and only if it still has its own row and
   * its own COMMIT went unanswered or its `complete` threw, or it has outlived
   * its row and the request whose row is there now has paid.
   */
  lemma AbortForgetsAPaymentIff(index: bool, es: seq<Event>, p: nat)
    requires var s := Run(Rules(index, true), Initial, es);
             At(s, p) == Some(Aborting) && s.row.Some? && s.row.value.response == None
    ensures var s := Run(Rules(index, true), Initial, es);
            && Step(Rules(index, true), s, p, 0).row == None
            && (s.row.value.claimant == p <==> !Outlived(index, es, p))
            && (HasPaid(s, s.row.value.claimant) <==>
                  if !Outlived(index, es, p) then Misled(index, es, p)
                  else PaidSoFar(index, es, s.row.value.claimant))
  {
    hide Run, Misled, Outlived, PaidSoFar, HasPaid;
    assert es[..|es|] == es;
    RunRemembers(index, es, p);
    RunRemembers(index, es, Run(Rules(index, true), Initial, es).row.value.claimant);
  }

  /** A request charges under a row of its own, and for the first time, exactly unless it has outlived its row. */
  lemma ChargesUnderItsClaimIff(index: bool, es: seq<Event>, p: nat)
    requires At(Run(Rules(index, true), Initial, es), p) == Some(Working)
    ensures var s := Run(Rules(index, true), Initial, es);
            !HasPaid(s, p) && (s.row.Some? && s.row.value.claimant == p <==> !Outlived(index, es, p))
  {
    hide Run, Misled, Outlived, PaidSoFar, HasPaid;
    assert es[..|es|] == es;
    RunRemembers(index, es, p);
  }

  // ---- What each assumption is for -----------------------------------------

  datatype Trouble = AnswerLost | CompleteThrew | RowOutlived

  predicate Meets(s: State, e: Event, trouble: Trouble) {
    match trouble
    case AnswerLost => e.ChargeLost?
    case CompleteThrew => e.CompleteThrows?
    case RowOutlived => e.Tick? && InUse(s) && s.now + e.seconds >= s.row.value.expires
  }

  /** Nothing is out of order but this. */
  ghost predicate OrderlyRunBut(rules: Rules, s: State, es: seq<Event>, trouble: Trouble) {
    es == []
    || (var m, e := Run(rules, s, es[..|es| - 1]), es[|es| - 1];
        OrderlyRunBut(rules, s, es[..|es| - 1], trouble) && (Orderly(m, e) || Meets(m, e, trouble)))
  }

  /** The events lead from `s` to `t`, none of them out of order. */
  ghost predicate Leads(rules: Rules, s: State, es: seq<Event>, t: State) {
    Run(rules, s, es) == t && OrderlyRun(rules, s, es)
  }

  ghost predicate LeadsBut(rules: Rules, s: State, es: seq<Event>, t: State, trouble: Trouble) {
    Run(rules, s, es) == t && OrderlyRunBut(rules, s, es, trouble)
  }

  lemma {:induction false} LeadsOn(rules: Rules, s: State, a: seq<Event>, m: State, b: seq<Event>, t: State)
    requires Leads(rules, s, a, m) && Leads(rules, m, b, t)
    ensures Leads(rules, s, a + b, t)
  {
    hide Exec, Orderly;
    if b == [] {
      assert a + b == a;
    } else {
      var n := |b| - 1;
      assert (a + b)[..|a + b| - 1] == a + b[..n];
      LeadsOn(rules, s, a, m, b[..n], Run(rules, m, b[..n]));
    }
  }

  lemma {:induction false} LeadsOnBut(rules: Rules, s: State, a: seq<Event>, m: State, b: seq<Event>, t: State,
                                      trouble: Trouble)
    requires LeadsBut(rules, s, a, m, trouble) && LeadsBut(rules, m, b, t, trouble)
    ensures LeadsBut(rules, s, a + b, t, trouble)
  {
    hide Exec, Orderly, Meets;
    if b == [] {
      assert a + b == a;
    } else {
      var n := |b| - 1;
      assert (a + b)[..|a + b| - 1] == a + b[..n];
      LeadsOnBut(rules, s, a, m, b[..n], Run(rules, m, b[..n]), trouble);
    }
  }

  lemma {:induction false} OrderlyIsBut(rules: Rules, s: State, es: seq<Event>, trouble: Trouble)
    requires OrderlyRun(rules, s, es)
    ensures OrderlyRunBut(rules, s, es, trouble)
  {
    hide Exec, Orderly, Meets;
    if es != [] {
      OrderlyIsBut(rules, s, es[..|es| - 1], trouble);
    }
  }

  lemma OneEvent(rules: Rules, s: State, e: Event)
    ensures Run(rules, s, [e]) == Exec(rules, s, e)
    ensures Orderly(s, e) ==> OrderlyRun(rules, s, [e])
    ensures forall u :: Orderly(s, e) || Meets(s, e, u) ==> OrderlyRunBut(rules, s, [e], u)
  {
    hide Exec, Orderly, Meets;
    assert [e][..0] == [];
    assert Run(rules, s, []) == s;
    forall u ensures OrderlyRunBut(rules, s, [], u) {
    }
  }

  lemma TwoEvents(rules: Rules, s: State, e: Event, f: Event)
    requires Orderly(s, e) && Orderly(Exec(rules, s, e), f)
    ensures Leads(rules, s, [e, f], Exec(rules, Exec(rules, s, e), f))
  {
    hide Exec, Orderly;
    OneEvent(rules, s, e);
    OneEvent(rules, Exec(rules, s, e), f);
    LeadsOn(rules, s, [e], Exec(rules, s, e), [f], Exec(rules, Exec(rules, s, e), f));
    assert [e] + [f] == [e, f];
  }

  lemma TwoEventsBut(rules: Rules, s: State, e: Event, f: Event, trouble: Trouble)
    requires Orderly(s, e) || Meets(s, e, trouble)
    requires Orderly(Exec(rules, s, e), f) || Meets(Exec(rules, s, e), f, trouble)
    ensures LeadsBut(rules, s, [e, f], Exec(rules, Exec(rules, s, e), f), trouble)
  {
    hide Exec, Orderly, Meets;
    OneEvent(rules, s, e);
    OneEvent(rules, Exec(rules, s, e), f);
    LeadsOnBut(rules, s, [e], Exec(rules, s, e), [f], Exec(rules, Exec(rules, s, e), f), trouble);
    assert [e] + [f] == [e, f];
  }

  predicate Entered(s: State, t: State, p: nat, hash: nat) {
    && t.now == s.now && t.payments == s.payments
    && t.row == Some(Row(p, |s.payments|, hash, s.now + DAY, None))
    && t.requests == s.requests[p := Request(hash, Working)]
  }

  /** A request that finds no row claims the key. */
  lemma Claims(rules: Rules, s: State, p: nat, hash: nat) returns (es: seq<Event>, t: State)
    requires s.row == None && p !in s.requests
    ensures Leads(rules, s, es, t) && Entered(s, t, p, hash)
  {
    var s1 := Exec(rules, s, Arrive(p, hash));
    var s2 := Exec(rules, s1, Advance(p, 0));
    t := Exec(rules, s2, Advance(p, 0));
    assert t.requests == s.requests[p := Request(hash, Working)];
    assert Orderly(s, Arrive(p, hash)) && Orderly(s1, Advance(p, 0)) && Orderly(s2, Advance(p, 0));
    hide Exec, Run, OrderlyRun, Orderly;
    OneEvent(rules, s, Arrive(p, hash));
    TwoEvents(rules, s1, Advance(p, 0), Advance(p, 0));
    LeadsOn(rules, s, [Arrive(p, hash)], s1, [Advance(p, 0), Advance(p, 0)], t);
    es := [Arrive(p, hash)] + [Advance(p, 0), Advance(p, 0)];
  }

  /** And charges: it finds neither row nor index in its way. */
  lemma ClaimsAndPays(s: State, p: nat, body: nat) returns (es: seq<Event>, t: State)
    requires s.row == None && p !in s.requests
    ensures Leads(Rules(false, true), s, es, t) && t.now == s.now && |t.payments| == |s.payments| + 1
  {
    hide Run, OrderlyRun;
    var rules := Rules(false, true);
    var claim, m := Claims(rules, s, p, 9);
    t := Exec(rules, m, Advance(p, body));
    OneEvent(rules, m, Advance(p, body));
    LeadsOn(rules, s, claim, m, [Advance(p, body)], t);
    es := claim + [Advance(p, body)];
  }

  /** A claim, what goes wrong with it, and another request that charges. */
  lemma ThenAnotherPays(first: seq<Event>, s: State, trouble: Trouble) returns (es: seq<Event>)
    requires LeadsBut(Rules(false, true), Initial, first, s, trouble) && s.row == None && 2 !in s.requests
    ensures OrderlyRunBut(Rules(false, true), Initial, es, trouble)
    ensures var t := Run(Rules(false, true), Initial, es); t.now == s.now && |t.payments| == |s.payments| + 1
  {
    hide Run, OrderlyRun, OrderlyRunBut;
    var rest, t := ClaimsAndPays(s, 2, 21);
    OrderlyIsBut(Rules(false, true), s, rest, trouble);
    LeadsOnBut(Rules(false, true), Initial, first, s, rest, t, trouble);
    es := first + rest;
  }

  /** A claim that has paid, and whose `complete` throws: it is about to abort, with its row still there. */
  lemma PaysAndThrows(rules: Rules) returns (es: seq<Event>, t: State)
    ensures LeadsBut(rules, Initial, es, t, CompleteThrew)
    ensures t.now == 0 && At(t, 1) == Some(Aborting) && t.requests.Keys == {1}
    ensures IsMine(t, 1) && t.row.value.before == 0 && t.row.value.response == None
    ensures |t.payments| == 1 && t.payments[0].payer == 1
  {
    hide Run, OrderlyRun, OrderlyRunBut;
    var first, s := Claims(rules, Initial, 1, 9);
    t := Exec(rules, Exec(rules, s, Advance(1, 11)), CompleteThrows(1));
    OrderlyIsBut(rules, Initial, first, CompleteThrew);
    TwoEventsBut(rules, s, Advance(1, 11), CompleteThrows(1), CompleteThrew);
    LeadsOnBut(rules, Initial, first, s, [Advance(1, 11), CompleteThrows(1)], t, CompleteThrew);
    es := first + [Advance(1, 11), CompleteThrows(1)];
  }

  /**
   * Without the index, and with nothing else out of order, a `complete` that
   * throws sends a paid request to its abort, and the key charges twice in no time.
   */
  lemma ThrowingCompleteChargesTwice() returns (es: seq<Event>)
    ensures OrderlyRunBut(Rules(false, true), Initial, es, CompleteThrew)
    ensures var s := Run(Rules(false, true), Initial, es); s.now < DAY && |s.payments| == 2
  {
    hide Run, OrderlyRun, OrderlyRunBut;
    var rules := Rules(false, true);
    var first, s := PaysAndThrows(rules);
    OneEvent(rules, s, Advance(1, 0));
    LeadsOnBut(rules, Initial, first, s, [Advance(1, 0)], Exec(rules, s, Advance(1, 0)), CompleteThrew);
    es := ThenAnotherPays(first + [Advance(1, 0)], Exec(rules, s, Advance(1, 0)), CompleteThrew);
  }

  /** So does a COMMIT whose answer is lost. */
  lemma LostCommitChargesTwice() returns (es: seq<Event>)
    ensures OrderlyRunBut(Rules(false, true), Initial, es, AnswerLost)
    ensures var s := Run(Rules(false, true), Initial, es); s.now < DAY && |s.payments| == 2
  {
    hide Run, OrderlyRun, OrderlyRunBut;
    var rules := Rules(false, true);
    var first, s := Claims(rules, Initial, 1, 9);
    var t := Exec(rules, Exec(rules, s, ChargeLost(1, 11)), Advance(1, 0));
    OrderlyIsBut(rules, Initial, first, AnswerLost);
    TwoEventsBut(rules, s, ChargeLost(1, 11), Advance(1, 0), AnswerLost);
    LeadsOnBut(rules, Initial, first, s, [ChargeLost(1, 11), Advance(1, 0)], t, AnswerLost);
    es := ThenAnotherPays(first + [ChargeLost(1, 11), Advance(1, 0)], t, AnswerLost);
  }

  /** The first request outlives its row, and the second has the key, both past their claims. */
  lemma TwoPastTheClaim(rules: Rules) returns (es: seq<Event>, t: State)
    ensures LeadsBut(rules, Initial, es, t, RowOutlived)
    ensures t.payments == [] && t.row == Some(Row(2, 0, 9, 2 * DAY, None))
    ensures t.requests == map[1 := Request(9, Working), 2 := Request(9, Working)]
  {
    hide Run, OrderlyRun, OrderlyRunBut;
    var first, s := Claims(rules, Initial, 1, 9);
    var m := Exec(rules, Exec(rules, s, Tick(DAY)), Purge);
    var second, u := Claims(rules, m, 2, 9);
    t := u;
    OrderlyIsBut(rules, Initial, first, RowOutlived);
    OrderlyIsBut(rules, m, second, RowOutlived);
    TwoEventsBut(rules, s, Tick(DAY), Purge, RowOutlived);
    LeadsOnBut(rules, Initial, first, s, [Tick(DAY), Purge], m, RowOutlived);
    LeadsOnBut(rules, Initial, first + [Tick(DAY), Purge], m, second, t, RowOutlived);
    es := first + [Tick(DAY), Purge] + second;
    assert t.requests == map[1 := Request(9, Working), 2 := Request(9, Working)];
  }

  /** And a request still charging when its row expires: both charges go through, in the life of one row. */
  lemma ExpiredClaimChargesTwice() returns (es: seq<Event>)
    ensures OrderlyRunBut(Rules(false, true), Initial, es, RowOutlived)
    ensures var s := Run(Rules(false, true), Initial, es); s.row.Some? && |s.payments| == s.row.value.before + 2
  {
    hide Run, OrderlyRun, OrderlyRunBut;
    var rules := Rules(false, true);
    var first, s := TwoPastTheClaim(rules);
    TwoEventsBut(rules, s, Advance(1, 11), Advance(2, 21), RowOutlived);
    var t := Exec(rules, Exec(rules, s, Advance(1, 11)), Advance(2, 21));
    LeadsOnBut(rules, Initial, first, s, [Advance(1, 11), Advance(2, 21)], t, RowOutlived);
    es := first + [Advance(1, 11), Advance(2, 21)];
  }

  /** The next statement of `p` is an abort that deletes the row of a request that has paid. */
  predicate ForgetsAPayment(rules: Rules, s: State, p: nat) {
    && At(s, p) == Some(Aborting) && s.row.Some? && HasPaid(s, s.row.value.claimant)
    && Step(rules, s, p, 0).row == None
  }

  /** Even with the index, a throwing `complete` has a paid request delete its own row. */
  lemma ThrowingCompleteForgetsThePaid() returns (es: seq<Event>)
    ensures OrderlyRunBut(Rules(true, true), Initial, es, CompleteThrew)
    ensures var s := Run(Rules(true, true), Initial, es);
            ForgetsAPayment(Rules(true, true), s, 1) && s.row.value.claimant == 1
  {
    hide Run, OrderlyRun, OrderlyRunBut;
    var first, s := PaysAndThrows(Rules(true, true));
    es := first;
  }

  /** And a request that outlived its row deletes that of another, which has paid. */
  lemma OutlivedAbortForgetsAnother() returns (es: seq<Event>)
    ensures OrderlyRunBut(Rules(true, true), Initial, es, RowOutlived)
    ensures var s := Run(Rules(true, true), Initial, es);
            ForgetsAPayment(Rules(true, true), s, 1) && s.row.value.claimant == 2
  {
    hide Run, OrderlyRun, OrderlyRunBut;
    var rules := Rules(true, true);
    var first, s := TwoPastTheClaim(rules);
    var t := Exec(rules, Exec(rules, s, Advance(2, 21)), ChargeFails(1));
    TwoEventsBut(rules, s, Advance(2, 21), ChargeFails(1), RowOutlived);
    LeadsOnBut(rules, Initial, first, s, [Advance(2, 21), ChargeFails(1)], t, RowOutlived);
    assert t.payments[0].payer == 2;
    es := first + [Advance(2, 21), ChargeFails(1)];
  }

  /** A request that conflicts with a claim about to be aborted. */
  lemma Overtakes(rules: Rules, s: State, p: nat, o: nat) returns (es: seq<Event>, t: State)
    requires At(s, p) == Some(Working) && o !in s.requests && s.now < DAY
    requires s.row.Some? && s.row.value.response == None && s.row.value.expires == DAY
    ensures Leads(rules, s, es, t) && t.row == None && t.payments == s.payments && t.now == s.now
    ensures t.requests == s.requests[p := s.requests[p].(at := Done(Failed))][o := Request(9, Looking(1))]
  {
    var s1 := Exec(rules, s, Arrive(o, 9));
    var s2 := Exec(rules, s1, Advance(o, 0));
    var s3 := Exec(rules, s2, Advance(o, 0));
    var s4 := Exec(rules, s3, ChargeFails(p));
    t := Exec(rules, s4, Advance(p, 0));
    assert t.requests == s.requests[p := s.requests[p].(at := Done(Failed))][o := Request(9, Looking(1))];
    assert Orderly(s, Arrive(o, 9)) && Orderly(s1, Advance(o, 0)) && Orderly(s2, Advance(o, 0));
    assert Orderly(s3, ChargeFails(p)) && Orderly(s4, Advance(p, 0));
    hide Exec, Run, OrderlyRun, Orderly;
    OneEvent(rules, s, Arrive(o, 9));
    TwoEvents(rules, s1, Advance(o, 0), Advance(o, 0));
    LeadsOn(rules, s, [Arrive(o, 9)], s1, [Advance(o, 0), Advance(o, 0)], s3);
    TwoEvents(rules, s3, ChargeFails(p), Advance(p, 0));
    LeadsOn(rules, s, [Arrive(o, 9)] + [Advance(o, 0), Advance(o, 0)], s3, [ChargeFails(p), Advance(p, 0)], t);
    es := [Arrive(o, 9)] + [Advance(o, 0), Advance(o, 0)] + [ChargeFails(p), Advance(p, 0)];
  }

  /**
   * The rule the source replaced: a claim whose row vanished was granted on
   * trust. With everything else in order, the key charges twice.
   */
  lemma TrustChargesTwice() returns (es: seq<Event>)
    ensures OrderlyRun(Rules(false, false), Initial, es)
    ensures var s := Run(Rules(false, false), Initial, es); s.now < DAY && |s.payments| == 2
  {
    hide Run, OrderlyRun;
    var rules := Rules(false, false);
    var first, s1 := Claims(rules, Initial, 1, 9);
    var second, s2 := Overtakes(rules, s1, 1, 2);
    LeadsOn(rules, Initial, first, s1, second, s2);
    TwoEvents(rules, s2, Advance(2, 0), Advance(2, 21));
    var s3 := Exec(rules, Exec(rules, s2, Advance(2, 0)), Advance(2, 21));
    LeadsOn(rules, Initial, first + second, s2, [Advance(2, 0), Advance(2, 21)], s3);
    var third, s4 := Claims(rules, s3, 3, 9);
    LeadsOn(rules, Initial, first + second + [Advance(2, 0), Advance(2, 21)], s3, third, s4);
    OneEvent(rules, s4, Advance(3, 31));
    LeadsOn(rules, Initial, first + second + [Advance(2, 0), Advance(2, 21)] + third, s4, [Advance(3, 31)],
            Exec(rules, s4, Advance(3, 31)));
    es := first + second + [Advance(2, 0), Advance(2, 21)] + third + [Advance(3, 31)];
  }

  // ---- The service ---------------------------------------------------------

  /** The table, the ledger and the requests in flight, updated in place one statement at a time. */
  class Service {
    const rules: Rules
    var now: nat
    var row: Option<Row>
    var payments: seq<Payment>
    var requests: map<nat, Request>

    ghost function View(): State
      reads this
    {
      State(now, row, payments, requests)
    }

    constructor (rules: Rules)
      ensures this.rules == rules && View() == Initial
    {
      this.rules := rules;
      now, row, payments, requests := 0, None, [], map[];
    }

    method MoveTo(p: nat, at: Pc)
      requires p in requests
      modifies this`requests
      ensures View() == Goto(old(View()), p, at)
    {
      requests := requests[p := requests[p].(at := at)];
    }

    method DeleteExpired()
      modifies this`row
      ensures View() == ClearExpired(old(View()))
      ensures row == if old(row).Some? && old(row).value.expires <= now then None else old(row)
    {
      if row.Some? && row.value.expires <= now {
        row := None;
      }
    }

    method TryClaim(p: nat) returns (owner: bool)
      requires p in requests
      modifies this`row
      ensures View() == Claim(old(View()), p) && owner == old(row).None?
      ensures owner ==> row == Some(Row(p, |payments|, requests[p].hash, now + DAY, None))
      ensures !owner ==> row == old(row)
    {
      owner := row.None?;
      if owner {
        row := Some(Row(p, |payments|, requests[p].hash, now + DAY, None));
      }
    }

    /** The read after a lost claim: replay, refuse, or go round again. */
    method ReadExisting(p: nat, attempt: nat) returns (next: Pc)
      requires p in requests
      ensures next == Look(rules, View(), p, attempt)
    {
      if row.None? {
        if !rules.reattempt {
          return Working;
        }
        if attempt >= MAX_CLAIM_ATTEMPTS {
          return Done(InFlight);
        }
        return Clearing(attempt + 1);
      }
      if row.value.hash != requests[p].hash {
        return Done(KeyReused);
      }
      if row.value.response.Some? {
        return Done(Answered(row.value.response.value));
      }
      return Done(InFlight);
    }

    method RecordPayment(p: nat, body: nat) returns (ok: bool)
      requires p in requests
      modifies this`payments
      ensures ok == Charge(rules, old(View()), p, body).Some?
      ensures View() == if ok then Charge(rules, old(View()), p, body).value else old(View())
      ensures ok <==> !(rules.uniqueIndex && old(payments) != [])
      ensures payments == old(payments) + if ok then [Payment(p, requests[p].hash, body)] else []
    {
      ok := !(rules.uniqueIndex && payments != []);
      if ok {
        payments := payments + [Payment(p, requests[p].hash, body)];
      }
    }

    method StoreResponse(body: nat)
      modifies this`row
      ensures View() == Complete(old(View()), body)
      ensures row == if old(row).Some? then Some(old(row).value.(response := Some(body))) else None
    {
      if row.Some? {
        row := Some(row.value.(response := Some(body)));
      }
    }

    method ReleaseKey()
      modifies this`row
      ensures View() == Abort(old(View()))
      ensures row == if old(row).Some? && old(row).value.response == None then None else old(row)
    {
      if row.Some? && row.value.response == None {
        row := None;
      }
    }

    /** The next statement of request `p`. */
    method Advance(p: nat, body: nat)
      requires p in requests
      modifies this
      ensures View() == Exec(rules, old(View()), Event.Advance(p, body))
    {
      match requests[p].at {
        case Clearing(n) =>
          DeleteExpired();
          MoveTo(p, Claiming(n));
        case Claiming(n) =>
          var owner := TryClaim(p);
          MoveTo(p, if owner then Working else Looking(n));
        case Looking(n) =>
          var next := ReadExisting(p, n);
          MoveTo(p, next);
        case Working =>
          var ok := RecordPayment(p, body);
          MoveTo(p, if ok then Completing(body) else Aborting);
        case Completing(b) =>
          StoreResponse(b);
          MoveTo(p, Done(Answered(b)));
        case Aborting =>
          ReleaseKey();
          MoveTo(p, Done(Failed));
        case Done(_) =>
      }
    }
  }
}
