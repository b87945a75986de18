/**
 * The fixed-window limiter (src/middleware/rateLimit.js) on one Redis key, and
 * two of them in series (src/routes/onboarding.js).
 *
 * INCR and TTL are one round trip; EXPIRE is another, and anything may come in
 * between. The clock is in milliseconds. Errors come before or after the
 * command took effect. A request is timed by its INCR, the moment Redis
 * counted it.
 *
 * `birth` and `tickets` are bookkeeping: which life of the key counted a
 * request, and which requests were counted within the limit.
 */
module RateLimit {
  import opened Wrappers

  datatype Key = Key(count: nat, expires: Option<nat>, birth: nat)
  datatype Ticket = Ticket(who: nat, at: nat, birth: nat)

  datatype Request = NeedsExpire(count: nat) | Answered(passed: bool)

  datatype Limits = Limits(window: nat, max: nat, failClosed: bool)

  datatype State = State(now: nat, key: Option<Key>, tickets: seq<Ticket>, requests: map<nat, Request>)

  datatype Outcome = Fine | TtlFailed | ReplyLost | NotDone

  datatype Event =
    | Tick(ms: nat)
    | Hit(p: nat, outcome: Outcome)      // INCR and TTL
    | Expire(p: nat, outcome: Outcome)   // the EXPIRE this request found necessary

  /** What Redis has under the key now. */
  function Live(s: State): Option<Key> {
    if s.key.Some? && s.key.value.expires.Some? && s.key.value.expires.value <= s.now then None else s.key
  }

  function Incremented(s: State): Key {
    match Live(s)
    case None => Key(1, None, s.now)
    case Some(k) => k.(count := k.count + 1)
  }

  /** The command takes effect: the key counts one more. */
  function Increment(l: Limits, s: State, p: nat): State {
    var k := Incremented(s);
    s.(key := Some(k), tickets := if k.count <= l.max then s.tickets + [Ticket(p, s.now, k.birth)] else s.tickets)
  }

  function Answer(s: State, p: nat, passed: bool): State { s.(requests := s.requests[p := Answered(passed)]) }

  /** Any backend error: rejected when failing closed, let through otherwise. */
  function Broken(l: Limits, s: State, p: nat): State { Answer(s, p, !l.failClosed) }

  function DoHit(l: Limits, s: State, p: nat, outcome: Outcome): State {
    if outcome == NotDone then Broken(l, s, p)
    else
      var t, k := Increment(l, s, p), Incremented(s);
      if outcome == ReplyLost then Broken(l, t, p)
      else if outcome == TtlFailed || k.expires == None then t.(requests := t.requests[p := NeedsExpire(k.count)])
      else Answer(t, p, k.count <= l.max)
  }

  /** EXPIRE on a key that is there counts from now; on one that is not, nothing happens. */
  function SetExpiry(l: Limits, s: State): State {
    if Live(s).None? then s else s.(key := Some(Live(s).value.(expires := Some(s.now + l.window))))
  }

  function DoExpire(l: Limits, s: State, p: nat, count: nat, outcome: Outcome): State {
    match outcome
    case NotDone => Broken(l, s, p)
    case ReplyLost => Broken(l, SetExpiry(l, s), p)
    case _ => Answer(SetExpiry(l, s), p, count <= l.max)
  }

  function Exec(l: Limits, s: State, e: Event): State {
    match e
    case Tick(ms) => s.(now := s.now + ms)
    case Hit(p, outcome) => if p in s.requests then s else DoHit(l, s, p, outcome)
    case Expire(p, outcome) =>
      if p in s.requests && s.requests[p].NeedsExpire? then DoExpire(l, s, p, s.requests[p].count, outcome) else s
  }

  ghost function Run(l: Limits, s: State, es: seq<Event>): State {
    if es == [] then s else Exec(l, Run(l, s, es[..|es| - 1]), es[|es| - 1])
  }

  const Initial: State := State(0, None, [], map[])

  // ---- How many get through ------------------------------------------------

  function OfLife(tickets: seq<Ticket>, birth: nat): nat {
    if tickets == [] then 0
    else
      var n := |tickets| - 1;
      OfLife(tickets[..n], birth) + if tickets[n].birth == birth then 1 else 0
  }

  function Min(a: nat, b: nat): nat { if a < b then a else b }

  /** A key lives a whole window at least, and what it counted is in the tickets. */
  predicate KeyOk(l: Limits, s: State, k: Key) {
    && k.birth <= s.now && k.count >= 1
    && (k.expires.Some? ==> k.birth + l.window <= k.expires.value <= s.now + l.window)
    && OfLife(s.tickets, k.birth) == Min(k.count, l.max)
  }

  /** A life that is over: everything it counted came before its end, a window or more after its birth. */
  predicate Over(l: Limits, t: Ticket, end: nat) { t.at < end && t.birth + l.window <= end }

  /** The earlier of two lives was over when the later began. */
  predicate InOrder(l: Limits, t: Ticket, u: Ticket) { t.birth < u.birth ==> Over(l, t, u.birth) }

  ghost predicate TicketsOk(l: Limits, s: State) {
    && (forall i :: 0 <= i < |s.tickets| ==> s.tickets[i].birth <= s.tickets[i].at <= s.now)
    && (forall i, j :: 0 <= i < |s.tickets| && 0 <= j < |s.tickets| ==> InOrder(l, s.tickets[i], s.tickets[j]))
    && (forall b :: OfLife(s.tickets, b) <= l.max)
  }

  ghost predicate LivesApart(l: Limits, s: State) {
    match Live(s)
    case None => forall i :: 0 <= i < |s.tickets| ==> Over(l, s.tickets[i], s.now)
    case Some(k) =>
      && KeyOk(l, s, k)
      && forall i :: 0 <= i < |s.tickets| && s.tickets[i].birth != k.birth ==> Over(l, s.tickets[i], k.birth)
  }

  predicate HasTicket(s: State, p: nat) {
    exists i :: 0 <= i < |s.tickets| && s.tickets[i].who == p
  }

  predicate RequestOk(l: Limits, s: State, p: nat)
    requires p in s.requests
  {
    match s.requests[p]
    case NeedsExpire(count) => count <= l.max ==> HasTicket(s, p)
    case Answered(passed) => passed && l.failClosed ==> HasTicket(s, p)
  }

  ghost predicate Inv(l: Limits, s: State) {
    TicketsOk(l, s) && LivesApart(l, s) && Owners(l, s)
  }

  lemma OfLifePush(tickets: seq<Ticket>, t: Ticket, birth: nat)
    ensures OfLife(tickets + [t], birth) == OfLife(tickets, birth) + if t.birth == birth then 1 else 0
  {
    assert (tickets + [t])[..|tickets|] == tickets;
  }

  lemma {:induction false} NoneOfLife(tickets: seq<Ticket>, birth: nat)
    requires forall i :: 0 <= i < |tickets| ==> tickets[i].birth != birth
    ensures OfLife(tickets, birth) == 0
  {
    if tickets != [] {
      NoneOfLife(tickets[..|tickets| - 1], birth);
    }
  }

  lemma TickKeeps(l: Limits, s: State, ms: nat)
    requires Inv(l, s)
    ensures Inv(l, s.(now := s.now + ms))
  {
    var t := s.(now := s.now + ms);
    assert TicketsOk(l, t) && LivesApart(l, t);
    hide TicketsOk, LivesApart;
    forall p | p in t.requests ensures RequestOk(l, t, p) {
      assert RequestOk(l, s, p);
    }
  }

  /** Counting one more, in the life there is or in a new one. */
  lemma IncrementKeeps(l: Limits, s: State, p: nat)
    requires l.window > 0 && l.max > 0 && TicketsOk(l, s) && LivesApart(l, s)
    ensures TicketsOk(l, Increment(l, s, p)) && LivesApart(l, Increment(l, s, p))
    ensures Live(Increment(l, s, p)) == Some(Incremented(s))
  {
    var t, k := Increment(l, s, p), Incremented(s);
    LifeGoesOn(l, s);
    assert Live(t) == Some(k);
    if k.count <= l.max {
      AddTicket(l, s, t, k, Ticket(p, s.now, k.birth));
    }
  }

  /** Where the increment lands: the life is one more, or new, and every other one is over. */
  lemma LifeGoesOn(l: Limits, s: State)
    requires l.window > 0 && l.max > 0 && TicketsOk(l, s) && LivesApart(l, s)
    ensures var k := Incremented(s);
            && k.birth <= s.now && k.count >= 1 && OfLife(s.tickets, k.birth) == Min(k.count - 1, l.max)
            && (k.expires.Some? ==>
                  k.birth + l.window <= k.expires.value <= s.now + l.window && s.now < k.expires.value)
            && forall i :: 0 <= i < |s.tickets| && s.tickets[i].birth != k.birth ==> Over(l, s.tickets[i], k.birth)
  {
    if Live(s).None? {
      NoneOfLife(s.tickets, s.now);
    }
  }

  lemma AddTicket(l: Limits, s: State, t: State, k: Key, ticket: Ticket)
    requires l.window > 0 && TicketsOk(l, s) && t.now == s.now && t.tickets == s.tickets + [ticket]
    requires Live(t) == Some(k)
    requires k.count >= 1 && k.count <= l.max && OfLife(s.tickets, k.birth) == k.count - 1
    requires ticket.birth == k.birth <= ticket.at == s.now
    requires k.expires.Some? ==> k.birth + l.window <= k.expires.value <= s.now + l.window
    requires forall i :: 0 <= i < |s.tickets| && s.tickets[i].birth != k.birth ==> Over(l, s.tickets[i], k.birth)
    ensures TicketsOk(l, t) && LivesApart(l, t)
  {
    forall b ensures OfLife(t.tickets, b) <= l.max {
      OfLifePush(s.tickets, ticket, b);
    }
    OfLifePush(s.tickets, ticket, k.birth);
    hide OfLife;
    assert forall i :: 0 <= i < |s.tickets| ==> InOrder(l, s.tickets[i], ticket) && InOrder(l, ticket, s.tickets[i]);
  }

  lemma ExpiryKeeps(l: Limits, s: State)
    requires l.window > 0 && TicketsOk(l, s) && LivesApart(l, s)
    ensures TicketsOk(l, SetExpiry(l, s)) && LivesApart(l, SetExpiry(l, s))
  {
  }

  /** The part of the invariant that says whose ticket is whose. */
  ghost predicate Owners(l: Limits, s: State) {
    && (forall p :: p in s.requests ==> RequestOk(l, s, p))
    && (forall i :: 0 <= i < |s.tickets| ==> s.tickets[i].who in s.requests)
    && (forall i, j :: 0 <= i < j < |s.tickets| ==> s.tickets[i].who != s.tickets[j].who)
  }

  lemma HitKeeps(l: Limits, s: State, p: nat, outcome: Outcome)
    requires l.window > 0 && l.max > 0 && Inv(l, s) && p !in s.requests
    ensures Inv(l, DoHit(l, s, p, outcome))
  {
    hide TicketsOk, LivesApart, Owners, Live;
    IncrementKeeps(l, s, p);
    HitOwners(l, s, p, outcome);
    SameLife(l, if outcome == NotDone then s else Increment(l, s, p), DoHit(l, s, p, outcome));
  }

  lemma HitOwners(l: Limits, s: State, p: nat, outcome: Outcome)
    requires Owners(l, s) && p !in s.requests
    ensures Owners(l, DoHit(l, s, p, outcome))
  {
    hide Incremented;
    var t := DoHit(l, s, p, outcome);
    if outcome != NotDone && Incremented(s).count <= l.max {
      assert t.tickets[|s.tickets|].who == p;
    }
    assert RequestOk(l, t, p);
    forall o | o in s.requests ensures RequestOk(l, t, o) {
      assert RequestOk(l, s, o);
      if HasTicket(s, o) {
        TicketStays(s, t, o);
      }
    }
    assert t.requests.Keys == s.requests.Keys + {p};
  }

  lemma TicketStays(s: State, t: State, p: nat)
    requires HasTicket(s, p) && s.tickets <= t.tickets
    ensures HasTicket(t, p)
  {
    var i :| 0 <= i < |s.tickets| && s.tickets[i].who == p;
    assert t.tickets[i].who == p;
  }

  lemma SameLife(l: Limits, s: State, t: State)
    requires t.now == s.now && t.key == s.key && t.tickets == s.tickets
    ensures TicketsOk(l, s) ==> TicketsOk(l, t)
    ensures LivesApart(l, s) ==> LivesApart(l, t)
  {
  }

  lemma ExpireKeeps(l: Limits, s: State, p: nat, outcome: Outcome)
    requires l.window > 0 && Inv(l, s) && p in s.requests && s.requests[p].NeedsExpire?
    ensures Inv(l, DoExpire(l, s, p, s.requests[p].count, outcome))
  {
    hide TicketsOk, LivesApart, Live;
    var t := DoExpire(l, s, p, s.requests[p].count, outcome);
    ExpiryKeeps(l, s);
    SameLife(l, if outcome == NotDone then s else SetExpiry(l, s), t);
    assert SetExpiry(l, s).tickets == s.tickets && SetExpiry(l, s).requests == s.requests;
    hide SetExpiry;
    forall o | o in t.requests ensures RequestOk(l, t, o) {
      assert RequestOk(l, s, o);
    }
  }

  lemma {:induction false} RunKeeps(l: Limits, es: seq<Event>)
    requires l.window > 0 && l.max > 0
    ensures Inv(l, Run(l, Initial, es))
  {
    if es != [] {
      var s, e := Run(l, Initial, es[..|es| - 1]), es[|es| - 1];
      RunKeeps(l, es[..|es| - 1]);
      hide Inv, DoHit, DoExpire;
      match e {
        case Tick(ms) => TickKeeps(l, s, ms);
        case Hit(p, outcome) =>
          if p !in s.requests {
            HitKeeps(l, s, p, outcome);
          }
        case Expire(p, outcome) =>
          if p in s.requests && s.requests[p].NeedsExpire? {
            ExpireKeeps(l, s, p, outcome);
          }
      }
    }
  }

  // ---- Two windows at most -------------------------------------------------

  predicate Within(t: Ticket, lo: nat, hi: nat) { lo <= t.at < hi }

  /** How many of the requests counted in an interval were let through. */
  function Passed(s: State, n: nat, lo: nat, hi: nat): nat
    requires n <= |s.tickets|
  {
    if n == 0 then 0
    else
      var t := s.tickets[n - 1];
      Passed(s, n - 1, lo, hi)
        + if Within(t, lo, hi) && t.who in s.requests && s.requests[t.who] == Answered(true) then 1 else 0
  }

  /** An interval of one window touches two lives of the key, never three. */
  lemma TwoLives(l: Limits, s: State, lo: nat, i: nat, k: nat, j: nat)
    requires TicketsOk(l, s) && i < |s.tickets| && j < |s.tickets| && k < |s.tickets|
    requires Within(s.tickets[i], lo, lo + l.window) && Within(s.tickets[j], lo, lo + l.window)
    ensures !(s.tickets[i].birth < s.tickets[k].birth < s.tickets[j].birth)
  {
  }

  /** The earliest and the latest life an interval touches. */
  lemma {:induction false} Extremes(s: State, n: nat, lo: nat, hi: nat) returns (i: nat, j: nat, any: bool)
    requires n <= |s.tickets|
    ensures !any ==> forall k :: 0 <= k < n ==> !Within(s.tickets[k], lo, hi)
    ensures any ==> i < n && j < n && Within(s.tickets[i], lo, hi) && Within(s.tickets[j], lo, hi)
    ensures any ==>
              forall k :: 0 <= k < n && Within(s.tickets[k], lo, hi) ==>
                s.tickets[i].birth <= s.tickets[k].birth <= s.tickets[j].birth
  {
    if n == 0 {
      i, j, any := 0, 0, false;
    } else {
      i, j, any := Extremes(s, n - 1, lo, hi);
      if Within(s.tickets[n - 1], lo, hi) {
        if !any || s.tickets[n - 1].birth < s.tickets[i].birth { i := n - 1; }
        if !any || s.tickets[n - 1].birth > s.tickets[j].birth { j := n - 1; }
        any := true;
      }
    }
  }

  lemma {:induction false} CountTwo(s: State, n: nat, lo: nat, hi: nat, a: nat, b: nat)
    requires n <= |s.tickets|
    requires forall k :: 0 <= k < n && Within(s.tickets[k], lo, hi) ==>
               s.tickets[k].birth == a || s.tickets[k].birth == b
    ensures Passed(s, n, lo, hi) <= OfLife(s.tickets[..n], a) + OfLife(s.tickets[..n], b)
  {
    if n > 0 {
      CountTwo(s, n - 1, lo, hi, a, b);
      assert s.tickets[..n][..n - 1] == s.tickets[..n - 1];
    }
  }

  /**
   * Failing closed, at most twice the maximum get through in any half-open
   * interval of one window, whatever the errors and however EXPIREs are delayed.
   */
  lemma TwiceTheMaximum(l: Limits, es: seq<Event>, lo: nat)
    requires l.window > 0 && l.max > 0 && l.failClosed
    ensures var s := Run(l, Initial, es); Passed(s, |s.tickets|, lo, lo + l.window) <= 2 * l.max
    ensures var s := Run(l, Initial, es);
            forall p :: p in s.requests && s.requests[p] == Answered(true) ==> HasTicket(s, p)
  {
    hide Run, TicketsOk, LivesApart, OfLife;
    RunKeeps(l, es);
    var s := Run(l, Initial, es);
    forall p | p in s.requests && s.requests[p] == Answered(true) ensures HasTicket(s, p) {
      assert RequestOk(l, s, p);
    }
    var n := |s.tickets|;
    var i, j, any := Extremes(s, n, lo, lo + l.window);
    var a, b := if any then s.tickets[i].birth else 0, if any then s.tickets[j].birth else 0;
    forall k | 0 <= k < n && Within(s.tickets[k], lo, lo + l.window)
      ensures s.tickets[k].birth == a || s.tickets[k].birth == b
    {
      TwoLives(l, s, lo, i, k, j);
    }
    CountTwo(s, n, lo, lo + l.window, a, b);
    assert s.tickets[..n] == s.tickets;
    EachLifeWithinMax(l, s, a);
    EachLifeWithinMax(l, s, b);
  }

  lemma EachLifeWithinMax(l: Limits, s: State, birth: nat)
    requires TicketsOk(l, s)
    ensures OfLife(s.tickets, birth) <= l.max
  {
  }

  // ---- Nobody is locked out for good ---------------------------------------

  /** A request answered without a backend error leaves the counter to expire within a window. */
  lemma AnsweredLeavesAnExpiry(l: Limits, es: seq<Event>, e: Event)
    requires l.window > 0 && l.max > 0 && !e.Tick? && e.outcome == Fine
    requires var s := Run(l, Initial, es); e.p !in s.requests || s.requests[e.p].NeedsExpire?
    requires var t := Exec(l, Run(l, Initial, es), e); e.p in t.requests && t.requests[e.p].Answered?
    ensures var t := Exec(l, Run(l, Initial, es), e);
            Live(t).Some? ==> Live(t).value.expires.Some? && Live(t).value.expires.value <= t.now + l.window
  {
    RunKeeps(l, es);
  }

  ghost predicate NonePending(s: State) { forall p :: p in s.requests ==> !s.requests[p].NeedsExpire? }

  /** Still the same life with the same end and nobody about to move it, or a later one. */
  ghost predicate EndsAt(t: State, birth: nat, end: nat) {
    if t.now < end then NonePending(t) && t.key.Some? && t.key.value.birth == birth && t.key.value.expires == Some(end)
    else Live(t).Some? ==> Live(t).value.birth >= end
  }

  lemma StepEndsAt(l: Limits, s: State, e: Event, birth: nat, end: nat)
    requires EndsAt(s, birth, end) && birth < end && (e.Hit? ==> e.outcome != TtlFailed)
    ensures EndsAt(Exec(l, s, e), birth, end)
  {
  }

  lemma {:induction false} RunEndsAt(l: Limits, s: State, es: seq<Event>, birth: nat, end: nat)
    requires EndsAt(s, birth, end) && birth < end
    requires forall i :: 0 <= i < |es| && es[i].Hit? ==> es[i].outcome != TtlFailed
    ensures EndsAt(Run(l, s, es), birth, end) && s.now <= Run(l, s, es).now
  {
    if es != [] {
      hide Exec, EndsAt;
      RunEndsAt(l, s, es[..|es| - 1], birth, end);
      StepEndsAt(l, Run(l, s, es[..|es| - 1]), es[|es| - 1], birth, end);
      ClockGoesOn(l, Run(l, s, es[..|es| - 1]), es[|es| - 1]);
    }
  }

  lemma ClockGoesOn(l: Limits, s: State, e: Event)
    ensures s.now <= Exec(l, s, e).now
  {
  }

  /**
   * With no EXPIRE in flight nobody can put off the end of a window, however
   * many requests arrive and are rejected: whoever waits the Retry-After is
   * counted in a life that began after they were told to wait.
   */
  lemma WaitingIsEnough(l: Limits, past: seq<Event>, es: seq<Event>)
    requires l.window > 0 && l.max > 0
    requires var s := Run(l, Initial, past); NonePending(s) && Live(s).Some? && Live(s).value.expires.Some?
    requires forall i :: 0 <= i < |es| && es[i].Hit? ==> es[i].outcome != TtlFailed
    requires Run(l, Run(l, Initial, past), es).now >= Run(l, Initial, past).now + l.window
    ensures var s, t := Run(l, Initial, past), Run(l, Run(l, Initial, past), es);
            Incremented(t).birth > s.now && (Live(t).None? ==> Incremented(t).count == 1)
  {
    hide Run;
    RunKeeps(l, past);
    var s := Run(l, Initial, past);
    var k := Live(s).value;
    RunEndsAt(l, s, es, k.birth, k.expires.value);
  }

  /** A key that lost its expiry is given one by the next request that reaches Redis: it does not count for ever. */
  lemma LostExpiryHeals(l: Limits, s: State, p: nat)
    requires l.window > 0 && p !in s.requests && Live(s).Some? && Live(s).value.expires == None
    ensures var t := Exec(l, Exec(l, s, Hit(p, Fine)), Expire(p, Fine));
            Live(t).Some? && Live(t).value.expires == Some(s.now + l.window)
  {
  }

  // ---- Who gets through ----------------------------------------------------

  /** This event is a request that Redis counts. */
  predicate Counts(s: State, e: Event) { e.Hit? && e.p !in s.requests && e.outcome != NotDone }

  /** How many the counter's present life has counted, by the events: it starts over when there is no live counter. */
  ghost function InLife(l: Limits, es: seq<Event>): nat {
    if es == [] then 0
    else
      var n := |es| - 1;
      var s := Run(l, Initial, es[..n]);
      if !Counts(s, es[n]) then InLife(l, es[..n])
      else if Live(s).None? then 1
      else InLife(l, es[..n]) + 1
  }

  lemma {:induction false} CountIsInLife(l: Limits, es: seq<Event>)
    ensures var s := Run(l, Initial, es); s.key.Some? ==> s.key.value.count == InLife(l, es)
  {
    if es != [] {
      CountIsInLife(l, es[..|es| - 1]);
    }
  }

  /** Event `j` is `p` being counted. */
  ghost predicate CountedAt(l: Limits, es: seq<Event>, p: nat, j: nat) {
    j < |es| && es[j].Hit? && es[j].p == p && Counts(Run(l, Initial, es[..j]), es[j])
  }

  predicate AllFine(es: seq<Event>, p: nat) {
    forall i :: 0 <= i < |es| && !es[i].Tick? && es[i].p == p ==> es[i].outcome == Fine
  }

  /** What a request without errors has been told, or will be. */
  ghost predicate Told(l: Limits, es: seq<Event>, p: nat, r: Request) {
    exists j: nat :: CountedAt(l, es, p, j) &&
      (match r
       case NeedsExpire(count) => count == InLife(l, es[..j + 1])
       case Answered(passed) => passed <==> InLife(l, es[..j + 1]) <= l.max)
  }

  lemma ToldStays(l: Limits, es: seq<Event>, p: nat, r: Request)
    requires es != [] && Told(l, es[..|es| - 1], p, r)
    ensures Told(l, es, p, r)
  {
    hide Run, InLife;
    var n := |es| - 1;
    var j: nat :| CountedAt(l, es[..n], p, j) &&
      (match r
       case NeedsExpire(count) => count == InLife(l, es[..n][..j + 1])
       case Answered(passed) => passed <==> InLife(l, es[..n][..j + 1]) <= l.max);
    assert es[..n][..j] == es[..j] && es[..n][..j + 1] == es[..j + 1];
    assert CountedAt(l, es, p, j);
  }

  /** A request that is counted is told by its number, at once or after it has set the expiry. */
  lemma HitTells(l: Limits, s: State, p: nat)
    requires p !in s.requests
    ensures var t := Exec(l, s, Hit(p, Fine)); p in t.requests && t.key.Some?
    ensures var t := Exec(l, s, Hit(p, Fine)); var count := t.key.value.count;
            t.requests[p] == NeedsExpire(count) || t.requests[p] == Answered(count <= l.max)
  {
  }

  lemma OthersTellNothing(l: Limits, s: State, e: Event, p: nat)
    requires p in Exec(l, s, e).requests && (p !in s.requests || Exec(l, s, e).requests[p] != s.requests[p])
    ensures !e.Tick? && e.p == p
    ensures e.Hit? ==> p !in s.requests
    ensures e.Expire? ==> p in s.requests && s.requests[p].NeedsExpire?
    ensures e.Expire? && e.outcome == Fine ==> Exec(l, s, e).requests[p] == Answered(s.requests[p].count <= l.max)
  {
  }

  lemma {:induction false} FineIsTold(l: Limits, es: seq<Event>, p: nat)
    requires AllFine(es, p) && p in Run(l, Initial, es).requests
    ensures Told(l, es, p, Run(l, Initial, es).requests[p])
  {
    hide Exec, Told, InLife;
    var n := |es| - 1;
    if es != [] {
      var s, t, e := Run(l, Initial, es[..n]), Run(l, Initial, es), es[n];
      assert t == Exec(l, s, e);
      if p in s.requests {
        FineIsTold(l, es[..n], p);
        ToldStays(l, es, p, s.requests[p]);
      }
      if p !in s.requests || t.requests[p] != s.requests[p] {
        OthersTellNothing(l, s, e, p);
        if e.Hit? {
          HitTells(l, s, p);
          CountIsInLife(l, es);
          TellsAt(l, es, p, t.requests[p]);
        } else {
          ExpireTells(l, es, p, s.requests[p].count);
        }
      }
    }
  }

  lemma TellsAt(l: Limits, es: seq<Event>, p: nat, r: Request)
    requires es != [] && CountedAt(l, es, p, |es| - 1)
    requires r == NeedsExpire(InLife(l, es)) || r == Answered(InLife(l, es) <= l.max)
    ensures Told(l, es, p, r)
  {
    hide Run, InLife;
    assert es[..|es| - 1 + 1] == es;
  }

  lemma ExpireTells(l: Limits, es: seq<Event>, p: nat, count: nat)
    requires Told(l, es, p, NeedsExpire(count))
    ensures Told(l, es, p, Answered(count <= l.max))
  {
    hide Run, InLife;
  }

  /**
   * With no backend error of its own, a request is let through exactly when it was
   * among the first `max` that Redis counted in the life of the counter.
   */
  lemma PassesIffAmongTheFirst(l: Limits, es: seq<Event>, p: nat)
    requires AllFine(es, p)
    requires p in Run(l, Initial, es).requests && Run(l, Initial, es).requests[p].Answered?
    ensures exists j: nat ::
              CountedAt(l, es, p, j)
              && (Run(l, Initial, es).requests[p].passed <==> InLife(l, es[..j + 1]) <= l.max)
  {
    hide Run, InLife, CountedAt;
    FineIsTold(l, es, p);
  }

  /** With one, it is rejected when failing closed, and let through otherwise. */
  lemma ErrorsAnswerByPolicy(l: Limits, s: State, e: Event)
    requires !e.Tick? && (e.outcome == NotDone || e.outcome == ReplyLost)
    requires if e.Hit? then e.p !in s.requests else e.p in s.requests && s.requests[e.p].NeedsExpire?
    ensures var t := Exec(l, s, e); e.p in t.requests && t.requests[e.p] == Answered(!l.failClosed)
  {
  }

  // ---- Two limiters in series ----------------------------------------------

  /**
   * Registrations for one recipient: past the limiter of their address,
   * whichever that was, and past the recipient's.
   */
  function Registered(s: State, passedAddress: set<nat>, n: nat, lo: nat, hi: nat): nat
    requires n <= |s.tickets|
  {
    if n == 0 then 0
    else
      var t := s.tickets[n - 1];
      Registered(s, passedAddress, n - 1, lo, hi)
        + if Within(t, lo, hi) && t.who in s.requests && s.requests[t.who] == Answered(true) && t.who in passedAddress
          then 1 else 0
  }

  lemma {:induction false} FewerWithTwo(s: State, passedAddress: set<nat>, n: nat, lo: nat, hi: nat)
    requires n <= |s.tickets|
    ensures Registered(s, passedAddress, n, lo, hi) <= Passed(s, n, lo, hi)
  {
    if n > 0 {
      FewerWithTwo(s, passedAddress, n - 1, lo, hi);
    }
  }

  const PerEmail: Limits := Limits(3600000, 3, true)

  /** However many addresses a caller spreads over, at most six registrations an hour reach one recipient. */
  lemma SixPerRecipientAnHour(es: seq<Event>, passedAddress: set<nat>, lo: nat)
    ensures var s := Run(PerEmail, Initial, es); Registered(s, passedAddress, |s.tickets|, lo, lo + 3600000) <= 6
  {
    TwiceTheMaximum(PerEmail, es, lo);
    FewerWithTwo(Run(PerEmail, Initial, es), passedAddress, |Run(PerEmail, Initial, es).tickets|, lo, lo + 3600000);
  }

  // ---- The middleware ------------------------------------------------------

  /** The counter and the requests on their way, updated in place. */
  class Limiter {
    const limits: Limits
    var now: nat
    var key: Option<Key>
    var tickets: seq<Ticket>
    var requests: map<nat, Request>

    ghost function View(): State
      reads this
    {
      State(now, key, tickets, requests)
    }

    constructor (limits: Limits)
      ensures this.limits == limits && View() == Initial
    {
      this.limits := limits;
      now, key, tickets, requests := 0, None, [], map[];
    }

    /** `redis.multi().incr(key).ttl(key).exec()`: the count, and whether an expiry is missing. */
    method IncrAndTtl(p: nat) returns (count: nat, missing: bool)
      modifies this`key, this`tickets
      ensures View() == Increment(limits, old(View()), p)
      ensures count == Incremented(old(View())).count && missing == Incremented(old(View())).expires.None?
    {
      if key.Some? && key.value.expires.Some? && key.value.expires.value <= now {
        key := None;
      }
      if key.None? {
        key := Some(Key(1, None, now));
      } else {
        key := Some(key.value.(count := key.value.count + 1));
      }
      count, missing := key.value.count, key.value.expires.None?;
      if count <= limits.max {
        tickets := tickets + [Ticket(p, now, key.value.birth)];
      }
    }

    /** The middleware up to its EXPIRE, or to its answer. */
    method Handle(p: nat, outcome: Outcome)
      requires p !in requests
      modifies this
      ensures View() == Exec(limits, old(View()), Hit(p, outcome))
    {
      if outcome == NotDone {
        requests := requests[p := Answered(!limits.failClosed)];
        return;
      }
      var count, missing := IncrAndTtl(p);
      if outcome == ReplyLost {
        requests := requests[p := Answered(!limits.failClosed)];
      } else if outcome == TtlFailed || missing {
        requests := requests[p := NeedsExpire(count)];
      } else {
        requests := requests[p := Answered(count <= limits.max)];
      }
    }

    method SetExpire(p: nat, outcome: Outcome)
      requires p in requests && requests[p].NeedsExpire?
      modifies this
      ensures View() == Exec(limits, old(View()), Expire(p, outcome))
    {
      var count := requests[p].count;
      if outcome != NotDone && key.Some? && !(key.value.expires.Some? && key.value.expires.value <= now) {
        key := Some(key.value.(expires := Some(now + limits.window)));
      }
      if outcome == NotDone || outcome == ReplyLost {
        requests := requests[p := Answered(!limits.failClosed)];
      } else {
        requests := requests[p := Answered(count <= limits.max)];
      }
    }
  }
}
