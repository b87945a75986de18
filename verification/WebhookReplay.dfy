/**
 * Replay protection of signed webhooks (src/middleware/webhookSignature.js),
 * for one signed (timestamp, body) pair.
 *
 * The middleware looks at the clock in whole seconds, and some time later, at
 * most `latency`, stores the signature with SET NX EX. The clock here is in
 * milliseconds; a key lives twice the tolerance.
 */
module WebhookReplay {
  import opened Wrappers

  /** The pair's timestamp and the tolerance in seconds, the delay between check and SET in milliseconds. */
  datatype Setting = Setting(timestamp: nat, tolerance: nat, latency: nat)

  datatype Delivery = Delivery(hasHeaders: bool, hasRawBody: bool, signatureOk: bool)

  datatype Rejection =
    SignatureMissing | BodyUnverifiable | OutOfTolerance | SignatureInvalid | AlreadyProcessed | StoreUnavailable

  datatype Pc = Checked(at: nat) | Accepted | Rejected(why: Rejection)

  datatype State = State(now: nat, key: Option<nat>, accepted: seq<nat>, requests: map<nat, Pc>)

  datatype Outcome = Fine | ReplyLost | NotDone

  datatype Event = Tick(ms: nat) | Receive(p: nat, d: Delivery) | Store(p: nat, outcome: Outcome)

  function Abs(x: int): nat { if x < 0 then -x else x }

  /** `Math.floor(Date.now() / 1000)`, and its distance from the timestamp. */
  predicate InTolerance(g: Setting, now: nat) { Abs(now / 1000 - g.timestamp) <= g.tolerance }

  /** The guards, in the order in which they answer. */
  function Check(g: Setting, now: nat, d: Delivery): Pc {
    if !d.hasHeaders then Rejected(SignatureMissing)
    else if !d.hasRawBody then Rejected(BodyUnverifiable)
    else if !InTolerance(g, now) then Rejected(OutOfTolerance)
    else if !d.signatureOk then Rejected(SignatureInvalid)
    else Checked(now)
  }

  predicate Stored(s: State) { s.key.Some? && s.now < s.key.value }

  function Life(g: Setting): nat { 2 * g.tolerance * 1000 }

  /** SET NX EX, and the answer it leads to; any error is a rejection. */
  function DoStore(g: Setting, s: State, p: nat, outcome: Outcome): State {
    if outcome == NotDone then s.(requests := s.requests[p := Rejected(StoreUnavailable)])
    else if Stored(s) then
      s.(requests := s.requests[p := Rejected(if outcome == Fine then AlreadyProcessed else StoreUnavailable)])
    else
      var t := s.(key := Some(s.now + Life(g)));
      if outcome == Fine then t.(requests := t.requests[p := Accepted], accepted := t.accepted + [s.now])
      else t.(requests := t.requests[p := Rejected(StoreUnavailable)])
  }

  function Exec(g: Setting, s: State, e: Event): State {
    match e
    case Tick(ms) => s.(now := s.now + ms)
    case Receive(p, d) => if p in s.requests then s else s.(requests := s.requests[p := Check(g, s.now, d)])
    case Store(p, outcome) =>
      if p in s.requests && s.requests[p].Checked? && s.now <= s.requests[p].at + g.latency then
        DoStore(g, s, p, outcome)
      else s
  }

  ghost function Run(g: Setting, s: State, es: seq<Event>): State {
    if es == [] then s else Exec(g, Run(g, s, es[..|es| - 1]), es[|es| - 1])
  }

  const Initial: State := State(0, None, [], map[])

  // ---- When an acceptance can be -------------------------------------------

  /** The first instant the timestamp is in tolerance, and the first at which it no longer is. */
  function Opens(g: Setting): int { (g.timestamp - g.tolerance) * 1000 }
  function Closes(g: Setting): int { (g.timestamp + g.tolerance + 1) * 1000 }

  lemma ToleranceIsAnInterval(g: Setting, now: nat)
    ensures InTolerance(g, now) <==> Opens(g) <= now < Closes(g)
  {
  }

  /** Acceptances lie in the interval, a key's life apart, and the last is remembered for that long. */
  ghost predicate Inv(g: Setting, s: State) {
    && (forall p :: p in s.requests && s.requests[p].Checked? ==>
          Opens(g) <= s.requests[p].at < Closes(g) && s.requests[p].at <= s.now)
    && (forall i :: 0 <= i < |s.accepted| ==> Opens(g) <= s.accepted[i] < Closes(g) + g.latency)
    && (forall i :: 0 < i < |s.accepted| ==> s.accepted[i - 1] + Life(g) <= s.accepted[i])
    && (s.accepted != [] ==> s.key.Some? && s.accepted[|s.accepted| - 1] + Life(g) <= s.key.value)
  }

  lemma StepKeeps(g: Setting, s: State, e: Event)
    requires Inv(g, s)
    ensures Inv(g, Exec(g, s, e))
  {
    hide InTolerance, Life, Opens, Closes;
    ToleranceIsAnInterval(g, s.now);
    match e {
      case Tick(_) =>
      case Receive(_, _) =>
      case Store(p, outcome) =>
        if p in s.requests && s.requests[p].Checked? && s.now <= s.requests[p].at + g.latency {
          StoreKeeps(g, s, p, outcome);
        }
    }
  }

  lemma StoreKeeps(g: Setting, s: State, p: nat, outcome: Outcome)
    requires Inv(g, s) && p in s.requests && s.requests[p].Checked? && s.now <= s.requests[p].at + g.latency
    ensures Inv(g, DoStore(g, s, p, outcome))
  {
    hide Life, Opens, Closes;
    assert Opens(g) <= s.requests[p].at < Closes(g) && s.requests[p].at <= s.now;
  }

  lemma {:induction false} RunKeeps(g: Setting, es: seq<Event>)
    ensures Inv(g, Run(g, Initial, es))
  {
    if es != [] {
      hide Inv, Exec;
      RunKeeps(g, es[..|es| - 1]);
      StepKeeps(g, Run(g, Initial, es[..|es| - 1]), es[|es| - 1]);
    }
  }

  /** The part of the interval from which a later acceptance is still possible. */
  predicate InEarlyEdge(g: Setting, at: int) { at < Opens(g) + 1000 + g.latency }

  /**
   * Accepted outside the early edge, the pair is never accepted again. With no
   * latency the edge is one second: the whole-second clock keeps the window a
   * second longer than the key lives.
   */
  lemma OnceOutsideTheEdge(g: Setting, es: seq<Event>)
    requires Run(g, Initial, es).accepted != [] && !InEarlyEdge(g, Run(g, Initial, es).accepted[0])
    ensures |Run(g, Initial, es).accepted| == 1
  {
    RunKeeps(g, es);
  }

  /** In any run it is accepted at most twice, as long as a key outlives a second and the latency. */
  lemma NeverThrice(g: Setting, es: seq<Event>)
    requires 1000 + g.latency <= Life(g)
    ensures |Run(g, Initial, es).accepted| <= 2
  {
    RunKeeps(g, es);
    var a := Run(g, Initial, es).accepted;
    if |a| > 2 {
      ThirdIsTwoLivesOn(g, Run(g, Initial, es));
    }
  }

  lemma ThirdIsTwoLivesOn(g: Setting, s: State)
    requires Inv(g, s) && |s.accepted| > 2
    ensures s.accepted[0] + 2 * Life(g) <= s.accepted[2]
  {
    assert s.accepted[0] + Life(g) <= s.accepted[1];
  }

  const Good: Delivery := Delivery(true, true, true)

  function Max(a: int, b: int): (m: int)
    ensures m >= a && m >= b && (m == a || m == b)
  {
    if a >= b then a else b
  }

  /** The first delivery is checked as early as it can be for its SET to come at `at`. */
  function FirstCheck(g: Setting, at: nat): nat { Max(0, Max(Opens(g), at - g.latency)) }

  /** The second is checked as late as it can be for its SET to come as the key expires. */
  function SecondCheck(g: Setting, at: nat): nat {
    if at + Life(g) < Closes(g) then at + Life(g) else Max(0, Closes(g) - 1)
  }

  lemma EdgeTimes(g: Setting, at: nat)
    requires Opens(g) <= at && InEarlyEdge(g, at) && Life(g) > 0
    ensures var a, b := FirstCheck(g, at), SecondCheck(g, at);
            && InTolerance(g, a) && a <= at <= a + g.latency
            && InTolerance(g, b) && b <= at + Life(g) <= b + g.latency && a <= b
  {
    ToleranceIsAnInterval(g, FirstCheck(g, at));
    ToleranceIsAnInterval(g, SecondCheck(g, at));
  }

  /** `from` holds after the events so far; these are the ones that let the clock reach `until`. */
  lemma Waits(g: Setting, es: seq<Event>, from: State, until: nat) returns (more: seq<Event>)
    requires Run(g, Initial, es) == from && from.now <= until
    ensures Run(g, Initial, more) == from.(now := until)
  {
    Then(g, es, from, Tick(until - from.now));
    more := es + [Tick(until - from.now)];
  }

  predicate BothChecked(s: State, a: nat, b: nat) {
    1 in s.requests && s.requests[1] == Checked(a) && 2 in s.requests && s.requests[2] == Checked(b)
  }

  /** Where the second is checked before the first has been stored. */
  lemma CheckedTogether(g: Setting, at: nat) returns (es: seq<Event>)
    requires Opens(g) <= at && InEarlyEdge(g, at) && Life(g) > 0 && SecondCheck(g, at) < at
    ensures Run(g, Initial, es).accepted == [at, at + Life(g)]
  {
    EdgeTimes(g, at);
    var a, b := FirstCheck(g, at), SecondCheck(g, at);
    assert Run(g, Initial, []) == Initial;
    hide Run, InTolerance, FirstCheck, SecondCheck;
    var e1 := Waits(g, [], Initial, a);
    var s1 := Initial.(now := a);
    Then(g, e1, s1, Receive(1, Good));
    var s2 := s1.(requests := map[1 := Checked(a)]);
    var e2 := Waits(g, e1 + [Receive(1, Good)], s2, b);
    var s3 := s2.(now := b);
    Then(g, e2, s3, Receive(2, Good));
    var s4 := s3.(requests := s3.requests[2 := Checked(b)]);
    var e3 := Waits(g, e2 + [Receive(2, Good)], s4, at);
    es := BothStored(g, e3, s4.(now := at), at, a, b);
  }

  /** Where it is checked after that. */
  lemma CheckedLater(g: Setting, at: nat) returns (es: seq<Event>)
    requires Opens(g) <= at && InEarlyEdge(g, at) && Life(g) > 0 && at <= SecondCheck(g, at)
    ensures Run(g, Initial, es).accepted == [at, at + Life(g)]
  {
    EdgeTimes(g, at);
    var a, b := FirstCheck(g, at), SecondCheck(g, at);
    assert Run(g, Initial, []) == Initial;
    hide Run, InTolerance, FirstCheck, SecondCheck;
    var e1 := Waits(g, [], Initial, a);
    var s1 := Initial.(now := a);
    Then(g, e1, s1, Receive(1, Good));
    var s2 := s1.(requests := map[1 := Checked(a)]);
    var e2 := Waits(g, e1 + [Receive(1, Good)], s2, at);
    var s3 := s2.(now := at);
    Then(g, e2, s3, Store(1, Fine));
    es := StoredThenChecked(g, e2 + [Store(1, Fine)], at, b);
  }

  /** The first has been stored: the second is checked, and stored as the key expires. */
  lemma StoredThenChecked(g: Setting, first: seq<Event>, at: nat, b: nat) returns (es: seq<Event>)
    requires Run(g, Initial, first) == State(at, Some(at + Life(g)), [at], map[1 := Accepted])
    requires at <= b <= at + Life(g) <= b + g.latency && InTolerance(g, b)
    ensures Run(g, Initial, es).accepted == [at, at + Life(g)]
  {
    hide Run, InTolerance;
    var s := State(at, Some(at + Life(g)), [at], map[1 := Accepted]);
    var e1 := Waits(g, first, s, b);
    var t := s.(now := b);
    Then(g, e1, t, Receive(2, Good));
    var u := t.(requests := t.requests[2 := Checked(b)]);
    var e2 := Waits(g, e1 + [Receive(2, Good)], u, at + Life(g));
    Then(g, e2, u.(now := at + Life(g)), Store(2, Fine));
    es := e2 + [Store(2, Fine)];
  }

  lemma BothStored(g: Setting, first: seq<Event>, s: State, at: nat, a: nat, b: nat) returns (es: seq<Event>)
    requires Run(g, Initial, first) == s && s.now == at && BothChecked(s, a, b) && s.accepted == [] && s.key == None
    requires at <= a + g.latency && at + Life(g) <= b + g.latency
    ensures Run(g, Initial, es).accepted == [at, at + Life(g)]
  {
    hide Run;
    Then(g, first, s, Store(1, Fine));
    var t := Exec(g, s, Store(1, Fine));
    var more := Waits(g, first + [Store(1, Fine)], t, at + Life(g));
    Then(g, more, t.(now := at + Life(g)), Store(2, Fine));
    es := more + [Store(2, Fine)];
  }

  /** Anywhere in the early edge it can be: whoever holds the pair sends it again as the key expires. */
  lemma TwiceInTheEdge(g: Setting, at: nat) returns (es: seq<Event>)
    requires Opens(g) <= at && InEarlyEdge(g, at) && Life(g) > 0
    ensures Run(g, Initial, es).accepted == [at, at + Life(g)]
  {
    hide Run, SecondCheck;
    if SecondCheck(g, at) < at {
      es := CheckedTogether(g, at);
    } else {
      es := CheckedLater(g, at);
    }
  }

  ghost predicate CanComeAgain(g: Setting, at: nat) {
    exists es: seq<Event> :: |Run(g, Initial, es).accepted| > 1 && Run(g, Initial, es).accepted[0] == at
  }

  /** First accepted at `at`, the pair can be accepted again exactly when that was in the early edge. */
  lemma AgainIffInTheEdge(g: Setting, at: nat)
    requires Opens(g) <= at && Life(g) > 0
    ensures CanComeAgain(g, at) <==> InEarlyEdge(g, at)
  {
    hide Run;
    if InEarlyEdge(g, at) {
      var es := TwiceInTheEdge(g, at);
      assert |Run(g, Initial, es).accepted| > 1 && Run(g, Initial, es).accepted[0] == at;
    }
    forall es: seq<Event> | |Run(g, Initial, es).accepted| > 1 && Run(g, Initial, es).accepted[0] == at
      ensures InEarlyEdge(g, at)
    {
      if !InEarlyEdge(g, at) {
        OnceOutsideTheEdge(g, es);
      }
    }
  }

  lemma OneEvent(g: Setting, s: State, e: Event)
    ensures Run(g, s, [e]) == Exec(g, s, e)
  {
    assert [e][..0] == [];
    assert Run(g, s, []) == s;
  }

  lemma Then(g: Setting, es: seq<Event>, m: State, e: Event)
    requires Run(g, Initial, es) == m
    ensures Run(g, Initial, es + [e]) == Exec(g, m, e)
  {
    assert (es + [e])[..|es|] == es;
  }

  // ---- What a delivery is told ---------------------------------------------

  /** The first guard that does not hold answers; one that passes them all goes on to be stored. */
  lemma GuardsAnswerInOrder(g: Setting, s: State, p: nat, d: Delivery)
    requires p !in s.requests
    ensures var t := Exec(g, s, Receive(p, d)); p in t.requests
    ensures var at := Exec(g, s, Receive(p, d)).requests[p];
            var inTime := g.timestamp - g.tolerance <= s.now / 1000 <= g.timestamp + g.tolerance;
            && (at == Rejected(SignatureMissing) <==> !d.hasHeaders)
            && (at == Rejected(BodyUnverifiable) <==> d.hasHeaders && !d.hasRawBody)
            && (at == Rejected(OutOfTolerance) <==> d.hasHeaders && d.hasRawBody && !inTime)
            && (at == Rejected(SignatureInvalid) <==> d.hasHeaders && d.hasRawBody && inTime && !d.signatureOk)
            && (at == Checked(s.now) <==> d.hasHeaders && d.hasRawBody && inTime && d.signatureOk)
  {
  }

  /** The state after the first `n` events. */
  ghost function At(g: Setting, es: seq<Event>, n: nat): State
    requires n <= |es|
  {
    Run(g, Initial, es[..n])
  }

  lemma NextState(g: Setting, es: seq<Event>, n: nat)
    requires n < |es|
    ensures At(g, es, n + 1) == Exec(g, At(g, es, n), es[n])
  {
    hide Exec;
    assert es[..n + 1][..n] == es[..n];
  }

  /** This event is a SET that takes effect: it may come late, or its answer be lost, but there is no live key. */
  predicate Sets(g: Setting, s: State, e: Event) {
    && e.Store? && e.p in s.requests && s.requests[e.p].Checked? && s.now <= s.requests[e.p].at + g.latency
    && e.outcome != NotDone && !Stored(s)
  }

  ghost predicate SetAt(g: Setting, es: seq<Event>, m: nat) { m < |es| && Sets(g, At(g, es, m), es[m]) }

  /** No SET of the last twice the tolerance is among the first `n` events. */
  ghost predicate NoneRemembered(g: Setting, es: seq<Event>, n: nat)
    requires n <= |es|
  {
    forall m: nat :: m < n && SetAt(g, es, m) ==> At(g, es, m).now + 2 * g.tolerance * 1000 <= At(g, es, n).now
  }

  lemma KeyMoves(g: Setting, s: State, e: Event)
    ensures Sets(g, s, e) ==> Exec(g, s, e).key == Some(s.now + 2 * g.tolerance * 1000)
    ensures !Sets(g, s, e) ==> Exec(g, s, e).key == s.key
    ensures s.now <= Exec(g, s, e).now
  {
  }

  /** The key outlives every SET by twice the tolerance, and no more than the last. */
  lemma {:induction false} KeyIsTheLastSet(g: Setting, es: seq<Event>, n: nat)
    requires n <= |es|
    ensures forall m: nat :: m < n && SetAt(g, es, m) ==>
              At(g, es, n).key.Some? && At(g, es, m).now + 2 * g.tolerance * 1000 <= At(g, es, n).key.value
    ensures At(g, es, n).key.Some? ==>
              exists m: nat ::
                m < n && SetAt(g, es, m) && At(g, es, n).key.value == At(g, es, m).now + 2 * g.tolerance * 1000
  {
    hide At, Exec, Sets;
    if n == 0 {
      NothingSet(g, es);
    } else {
      KeyIsTheLastSet(g, es, n - 1);
      NextState(g, es, n - 1);
      KeyMoves(g, At(g, es, n - 1), es[n - 1]);
      if Sets(g, At(g, es, n - 1), es[n - 1]) {
        assert SetAt(g, es, n - 1);
        forall m: nat | m < n && SetAt(g, es, m) ensures At(g, es, m).now <= At(g, es, n - 1).now {
          ClockGoesOn(g, es, m, n - 1);
        }
      }
    }
  }

  lemma NothingSet(g: Setting, es: seq<Event>)
    ensures At(g, es, 0).key == None
  {
  }

  lemma {:induction false} ClockGoesOn(g: Setting, es: seq<Event>, m: nat, n: nat)
    requires m <= n <= |es|
    ensures At(g, es, m).now <= At(g, es, n).now
  {
    hide At, Exec, Sets;
    if m < n {
      ClockGoesOn(g, es, m, n - 1);
      NextState(g, es, n - 1);
      KeyMoves(g, At(g, es, n - 1), es[n - 1]);
    }
  }

  /**
   * A delivery that passed the guards and whose SET is answered is accepted exactly
   * when no SET of the same pair took effect within twice the tolerance before.
   */
  lemma AcceptedIffNoneRemembered(g: Setting, es: seq<Event>, n: nat, p: nat)
    requires n < |es| && es[n] == Store(p, Fine)
    requires var s := At(g, es, n);
             p in s.requests && s.requests[p].Checked? && s.now <= s.requests[p].at + g.latency
    ensures var t := At(g, es, n + 1);
            && p in t.requests
            && t.requests[p] == if NoneRemembered(g, es, n) then Accepted else Rejected(AlreadyProcessed)
  {
    hide At, SetAt;
    KeyIsTheLastSet(g, es, n);
    NextState(g, es, n);
    StoreTells(g, At(g, es, n), p);
  }

  lemma StoreTells(g: Setting, s: State, p: nat)
    requires p in s.requests && s.requests[p].Checked? && s.now <= s.requests[p].at + g.latency
    ensures var t := Exec(g, s, Store(p, Fine));
            p in t.requests && t.requests[p] == if Stored(s) then Rejected(AlreadyProcessed) else Accepted
  {
  }

  // ---- The middleware ------------------------------------------------------

  class Middleware {
    const setting: Setting
    var now: nat
    var key: Option<nat>
    var accepted: seq<nat>
    var requests: map<nat, Pc>

    ghost function View(): State
      reads this
    {
      State(now, key, accepted, requests)
    }

    constructor (setting: Setting)
      ensures this.setting == setting && View() == Initial
    {
      this.setting := setting;
      now, key, accepted, requests := 0, None, [], map[];
    }

    /** The guards, one after another. */
    method Verify(p: nat, d: Delivery)
      modifies this`requests
      ensures View() == Exec(setting, old(View()), Receive(p, d))
    {
      if p in requests { return; }
      if !d.hasHeaders {
        requests := requests[p := Rejected(SignatureMissing)];
        return;
      }
      if !d.hasRawBody {
        requests := requests[p := Rejected(BodyUnverifiable)];
        return;
      }
      var seconds := now / 1000;
      if Abs(seconds - setting.timestamp) > setting.tolerance {
        requests := requests[p := Rejected(OutOfTolerance)];
        return;
      }
      requests := requests[p := if d.signatureOk then Checked(now) else Rejected(SignatureInvalid)];
    }

    /** `redis.set(key, '1', 'EX', 2 * tolerance, 'NX')`. */
    method Remember(p: nat, outcome: Outcome)
      requires p in requests && requests[p].Checked? && now <= requests[p].at + setting.latency
      modifies this
      ensures View() == Exec(setting, old(View()), Store(p, outcome))
    {
      var stored := false;
      if outcome != NotDone && !(key.Some? && now < key.value) {
        key, stored := Some(now + 2 * setting.tolerance * 1000), true;
      }
      if outcome != Fine {
        requests := requests[p := Rejected(StoreUnavailable)];
      } else if stored {
        requests, accepted := requests[p := Accepted], accepted + [now];
      } else {
        requests := requests[p := Rejected(AlreadyProcessed)];
      }
    }
  }
}
