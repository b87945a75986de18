/**
 * What a request is answered (src/services/idempotency.js and its callers): the
 * first with a key charges and stores its response, a retry is told the same, and
 * a charge that failed leaves the key to the next.
 */
module IdempotentReplies {
  import opened Wrappers
  import opened Idempotency

  // ---- A stored response ---------------------------------------------------

  /** Event `j` is `p` storing response `body` in a row of its own. */
  ghost predicate CompletesAt(index: bool, es: seq<Event>, p: nat, j: nat, body: nat) {
    && j < |es| && es[j].Advance? && es[j].p == p
    && At(After(index, es, j), p) == Some(Completing(body)) && IsMine(After(index, es, j), p)
  }

  /** From event `from` up to `n` nothing takes `p`'s row away. */
  ghost predicate KeepsItsRow(index: bool, es: seq<Event>, p: nat, from: nat, n: nat) {
    forall m: nat :: from <= m < n ==> !BereavesAt(index, es, p, m)
  }

  /** Nor stores another response. */
  ghost predicate NobodyStores(index: bool, es: seq<Event>, from: nat, n: nat)
    requires n <= |es|
  {
    forall m: nat :: from <= m < n ==> !Stores(After(index, es, m), es[m])
  }

  predicate Stores(s: State, e: Event) { e.Advance? && e.p in s.requests && s.requests[e.p].at.Completing? }

  /** Event `n` is `o`, whose claim conflicted, reading the row that is there. */
  ghost predicate LooksAt(index: bool, es: seq<Event>, o: nat, n: nat) {
    && n < |es| && es[n].Advance? && es[n].p == o
    && o in After(index, es, n).requests && After(index, es, n).requests[o].at.Looking?
  }

  /** A row is of its claimant's payload. */
  predicate HashOk(s: State) {
    s.row.Some? ==> s.row.value.claimant in s.requests && s.requests[s.row.value.claimant].hash == s.row.value.hash
  }

  lemma StepKeepsHash(index: bool, s: State, e: Event)
    requires HashOk(s)
    ensures HashOk(Exec(Rules(index, true), s, e))
    ensures forall o :: o in s.requests ==>
              var t := Exec(Rules(index, true), s, e); o in t.requests && t.requests[o].hash == s.requests[o].hash
  {
  }

  lemma NextState(index: bool, es: seq<Event>, n: nat)
    requires n < |es|
    ensures After(index, es, n + 1) == Exec(Rules(index, true), After(index, es, n), es[n])
  {
    hide Exec;
    assert es[..n + 1][..n] == es[..n];
  }

  lemma {:induction false} HashHolds(index: bool, es: seq<Event>, n: nat)
    requires n <= |es|
    ensures HashOk(After(index, es, n))
  {
    hide HashOk, Exec, After;
    if n == 0 {
      NothingStored(index, es);
    } else {
      HashHolds(index, es, n - 1);
      NextState(index, es, n - 1);
      StepKeepsHash(index, After(index, es, n - 1), es[n - 1]);
    }
  }

  lemma NothingStored(index: bool, es: seq<Event>)
    ensures HashOk(After(index, es, 0))
  {
  }

  predicate Stored(s: State, p: nat, hash: nat, body: nat) {
    && IsMine(s, p) && s.row.value.response == Some(body) && s.row.value.hash == hash
    && p in s.requests && s.requests[p].hash == hash
  }

  lemma StoredStays(index: bool, s: State, e: Event, p: nat, hash: nat, body: nat)
    requires Stored(s, p, hash, body) && !Bereaves(s, Exec(Rules(index, true), s, e), p)
    requires Stores(s, e) ==> s.requests[e.p].at.body == body
    ensures Stored(Exec(Rules(index, true), s, e), p, hash, body)
  {
  }

  lemma CompletingStores(index: bool, es: seq<Event>, p: nat, j: nat, body: nat)
    requires CompletesAt(index, es, p, j, body)
    ensures var s := After(index, es, j + 1);
            p in s.requests && Stored(s, p, s.requests[p].hash, body) && At(s, p) == Some(Done(Answered(body)))
    ensures index ==> |After(index, es, j).payments| == 1 && After(index, es, j).payments[0].body == body
  {
    hide Exec, After;
    NextState(index, es, j);
    HashHolds(index, es, j);
    StoresIt(index, After(index, es, j), es[j], p, body);
    if index {
      OnlyBody(es, j, p);
    }
  }

  lemma StoresIt(index: bool, s: State, e: Event, p: nat, body: nat)
    requires e.Advance? && e.p == p && At(s, p) == Some(Completing(body)) && IsMine(s, p) && HashOk(s)
    ensures var t := Exec(Rules(index, true), s, e);
            p in t.requests && Stored(t, p, t.requests[p].hash, body) && At(t, p) == Some(Done(Answered(body)))
  {
  }

  /** With the ledger's index whoever has paid has paid the one payment. */
  lemma OnlyBody(es: seq<Event>, m: nat, p: nat)
    requires m <= |es| && p in After(true, es, m).requests && After(true, es, m).requests[p].at.Completing?
    ensures var s := After(true, es, m);
            |s.payments| == 1 && s.payments[0].body == s.requests[p].at.body
  {
    hide Run;
    OnePaymentPerKey(true, es[..m]);
    assert BodyIsPaid(After(true, es, m), After(true, es, m).requests[p].at);
  }

  lemma {:induction false} PaymentStays(es: seq<Event>, m: nat, n: nat)
    requires m <= n <= |es| && |After(true, es, m).payments| == 1
    ensures After(true, es, n).payments == After(true, es, m).payments
  {
    hide Exec, After, BodiesArePaid;
    if m < n {
      PaymentStays(es, m, n - 1);
      NextState(true, es, n - 1);
      PaidOnce(es, n - 1);
      PaidOnce(es, n);
      BodiesStayPaid(Rules(true, true), After(true, es, n - 1), es[n - 1]);
    }
  }

  lemma PaidOnce(es: seq<Event>, n: nat)
    requires n <= |es|
    ensures |After(true, es, n).payments| <= 1 && BodiesArePaid(After(true, es, n))
  {
    hide Run, BodiesArePaid;
    OnePaymentPerKey(true, es[..n]);
  }

  lemma {:induction false} StillStored(index: bool, es: seq<Event>, p: nat, j: nat, body: nat, n: nat)
    requires CompletesAt(index, es, p, j, body) && j < n <= |es| && KeepsItsRow(index, es, p, j + 1, n)
    requires index || NobodyStores(index, es, j + 1, n)
    ensures var s := After(index, es, n); p in s.requests && Stored(s, p, s.requests[p].hash, body)
  {
    hide After, Exec, Stored, Stores, Bereaves, CompletesAt;
    CompletingStores(index, es, p, j, body);
    if n > j + 1 {
      StillStored(index, es, p, j, body, n - 1);
      var s, e := After(index, es, n - 1), es[n - 1];
      NextState(index, es, n - 1);
      HashHolds(index, es, n - 1);
      StepKeepsHash(index, s, e);
      assert !BereavesAt(index, es, p, n - 1);
      if index && Stores(s, e) {
        SameBody(es, p, j, body, n - 1);
      }
      StoredStays(index, s, e, p, s.requests[p].hash, body);
    }
  }

  lemma SameBody(es: seq<Event>, p: nat, j: nat, body: nat, m: nat)
    requires CompletesAt(true, es, p, j, body) && j < m < |es| && Stores(After(true, es, m), es[m])
    ensures After(true, es, m).requests[es[m].p].at.body == body
  {
    hide After;
    CompletingStores(true, es, p, j, body);
    PaymentStays(es, j, m);
    OnlyBody(es, m, es[m].p);
  }

  /**
   * Once a request has stored its response, and as long as nothing takes its row
   * away, every request that finds the row is told the same if it carries the same
   * payload, and refused if it carries another. With the ledger's index that is
   * all; without it, as long as nobody else stores a response of theirs.
   */
  lemma RetriesAreAnswered(index: bool, es: seq<Event>, p: nat, j: nat, body: nat, o: nat, n: nat)
    requires CompletesAt(index, es, p, j, body) && j < n && LooksAt(index, es, o, n)
    requires KeepsItsRow(index, es, p, j + 1, n) && (index || NobodyStores(index, es, j + 1, n))
    ensures var s := After(index, es, n);
            && p in s.requests && o in s.requests
            && At(After(index, es, n + 1), o)
               == Some(Done(if s.requests[o].hash == s.requests[p].hash then Answered(body) else KeyReused))
            && After(index, es, n + 1).payments == s.payments
  {
    hide After, Exec;
    StillStored(index, es, p, j, body, n);
    NextState(index, es, n);
    LookingAnswers(index, After(index, es, n), es[n], p, body);
  }

  lemma LookingAnswers(index: bool, s: State, e: Event, p: nat, body: nat)
    requires p in s.requests && Stored(s, p, s.requests[p].hash, body)
    requires e.Advance? && e.p in s.requests && s.requests[e.p].at.Looking?
    ensures var t := Exec(Rules(index, true), s, e);
            && At(t, e.p)
               == Some(Done(if s.requests[e.p].hash == s.requests[p].hash then Answered(body) else KeyReused))
            && t.payments == s.payments
  {
  }

  /** A row goes only because its day is over, or by an abort while it holds no response. */
  lemma RowsGoFor(index: bool, s: State, e: Event, p: nat)
    requires Bereaves(s, Exec(Rules(index, true), s, e), p)
    ensures s.row.value.expires <= s.now
         || (s.row.value.response == None && e.Advance? && At(s, e.p) == Some(Aborting))
  {
  }

  // ---- One request after another -------------------------------------------

  lemma {:induction false} RunsOn(rules: Rules, s: State, a: seq<Event>, b: seq<Event>)
    ensures Run(rules, s, a + b) == Run(rules, Run(rules, s, a), b)
  {
    hide Exec;
    if b == [] {
      assert a + b == a;
    } else {
      assert (a + b)[..|a + b| - 1] == a + b[..|b| - 1];
      RunsOn(rules, s, a, b[..|b| - 1]);
    }
  }

  lemma RunOfTwo(rules: Rules, s: State, e: Event, f: Event)
    ensures Run(rules, s, [e, f]) == Exec(rules, Exec(rules, s, e), f)
  {
    hide Exec;
    assert [e, f][..1] == [e] && [e][..0] == [];
    assert Run(rules, s, []) == s && Run(rules, s, [e]) == Exec(rules, s, e);
  }

  lemma RunOfFour(rules: Rules, s: State, e: Event, f: Event, g: Event, h: Event)
    ensures Run(rules, s, [e, f, g, h]) == Exec(rules, Exec(rules, Exec(rules, Exec(rules, s, e), f), g), h)
  {
    hide Exec, Run;
    RunOfTwo(rules, s, e, f);
    RunOfTwo(rules, Exec(rules, Exec(rules, s, e), f), g, h);
    RunsOn(rules, s, [e, f], [g, h]);
    assert [e, f] + [g, h] == [e, f, g, h];
  }

  /** Another request with the key, while its row lives: told what is stored, or that the first is not done yet. */
  lemma RetryAlone(rules: Rules, s: State, o: nat, hash: nat)
    requires o !in s.requests && s.row.Some? && s.now < s.row.value.expires
    ensures var t := Run(rules, s, [Arrive(o, hash), Advance(o, 0), Advance(o, 0), Advance(o, 0)]);
            var row := s.row.value;
            && t.payments == s.payments && t.row == s.row
            && At(t, o) == Some(Done(if row.hash != hash then KeyReused
                                     else if row.response.Some? then Answered(row.response.value)
                                     else InFlight))
  {
    var s1 := Exec(rules, s, Arrive(o, hash));
    var s2 := Exec(rules, s1, Advance(o, 0));
    var s3 := Exec(rules, s2, Advance(o, 0));
    var t := Exec(rules, s3, Advance(o, 0));
    assert s1.requests[o].at == Clearing(1) && s2.requests[o].at == Claiming(1) && s3.requests[o].at == Looking(1);
    hide Exec, Run;
    RunOfFour(rules, s, Arrive(o, hash), Advance(o, 0), Advance(o, 0), Advance(o, 0));
  }

  /** The key is free: there is no row, or its day is over. */
  predicate KeyIsFree(s: State) { s.row == None || s.row.value.expires <= s.now }

  /** A request that finds the key free, left alone, holds it for a day and is about to charge. */
  lemma ClaimAlone(rules: Rules, s: State, o: nat, hash: nat) returns (es: seq<Event>)
    requires o !in s.requests && KeyIsFree(s)
    ensures var t := Run(rules, s, es);
            && t.payments == s.payments && t.now == s.now && At(t, o) == Some(Working) && IsMine(t, o)
            && t.row.value.hash == t.requests[o].hash == hash && t.row.value.response == None
            && t.row.value.expires == s.now + DAY
  {
    var s1 := Exec(rules, s, Arrive(o, hash));
    var s2 := Exec(rules, s1, Advance(o, 0));
    var s3 := Exec(rules, s2, Advance(o, 0));
    hide Exec, Run;
    RunOfTwo(rules, s1, Advance(o, 0), Advance(o, 0));
    ArrivesAlone(rules, s, o, hash);
    RunsOn(rules, s, [Arrive(o, hash)], [Advance(o, 0), Advance(o, 0)]);
    es := [Arrive(o, hash)] + [Advance(o, 0), Advance(o, 0)];
  }

  lemma ArrivesAlone(rules: Rules, s: State, o: nat, hash: nat)
    ensures Run(rules, s, [Arrive(o, hash)]) == Exec(rules, s, Arrive(o, hash))
  {
    hide Exec;
    assert [Arrive(o, hash)][..0] == [];
    assert Run(rules, s, []) == s;
  }

  /** It charges once, for its payload, and stores its response; it is told that. */
  lemma ChargeAlone(rules: Rules, s: State, o: nat, body: nat)
    requires At(s, o) == Some(Working) && IsMine(s, o) && (rules.uniqueIndex ==> s.payments == [])
    ensures var t := Run(rules, s, [Advance(o, body), Advance(o, 0)]);
            && t.payments == s.payments + [Payment(o, s.requests[o].hash, body)]
            && t.row == Some(s.row.value.(response := Some(body))) && At(t, o) == Some(Done(Answered(body)))
  {
    RunOfTwo(rules, s, Advance(o, body), Advance(o, 0));
    hide Run;
  }

  /** If the charge fails, the key is free again and nothing was paid. */
  lemma FailureFreesTheKey(rules: Rules, s: State, o: nat)
    requires At(s, o) == Some(Working) && IsMine(s, o) && s.row.value.response == None
    ensures var t := Run(rules, s, [ChargeFails(o), Advance(o, 0)]);
            KeyIsFree(t) && t.payments == s.payments && At(t, o) == Some(Done(Failed))
  {
    RunOfTwo(rules, s, ChargeFails(o), Advance(o, 0));
    hide Run;
  }

  /** A request that conflicted with a row and finds it gone claims the key itself, and is not let through on trust. */
  lemma VanishedRowIsClaimed(index: bool, s: State, o: nat)
    requires At(s, o) == Some(Looking(1)) && s.row == None
    ensures var t := Run(Rules(index, true), s, [Advance(o, 0), Advance(o, 0)] + [Advance(o, 0)]);
            && At(t, o) == Some(Working) && IsMine(t, o) && t.payments == s.payments
  {
    var rules := Rules(index, true);
    var m := Exec(rules, Exec(rules, s, Advance(o, 0)), Advance(o, 0));
    assert At(m, o) == Some(Claiming(2)) && m.row == None;
    RunOfTwo(rules, s, Advance(o, 0), Advance(o, 0));
    RunsOn(rules, s, [Advance(o, 0), Advance(o, 0)], [Advance(o, 0)]);
    assert [Advance(o, 0)][..0] == [];
    assert Run(rules, m, []) == m;
    assert Run(rules, m, [Advance(o, 0)]) == Exec(rules, m, Advance(o, 0));
  }
}
