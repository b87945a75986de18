/**
 * Stored bank credentials and key rotation (src/payments/providerConfigs.js,
 * src/payments/credentials.js, src/utils/sealedBox.js).
 *
 * Sealing is abstract: a blob is the version that sealed it and what it seals,
 * and opening it needs that version in the ring. A row is one restaurant's
 * configuration for one provider; credentials are opaque values.
 */
module Credentials {
  import opened Wrappers

  datatype Blob = Blob(version: nat, secret: nat)
  datatype Row = Row(blob: Blob, keyVersion: nat, enabled: bool, validated: bool)

  datatype Ring = Ring(versions: set<nat>, active: nat)

  datatype StoreError = ProviderUnknown | Unreadable(version: nat)

  predicate RingOk(ring: Ring) { ring.active in ring.versions }

  function Seal(ring: Ring, secret: nat): Blob { Blob(ring.active, secret) }

  function Open(ring: Ring, blob: Blob): Result<nat, StoreError> {
    if blob.version in ring.versions then Success(blob.secret) else Failure(Unreadable(blob.version))
  }

  predicate IsCurrent(ring: Ring, blob: Blob) { blob.version == ring.active }

  // ---- The table -----------------------------------------------------------

  /** `last` and `proven` remember what was put last, and what was stored when it was validated. */
  datatype State = State(ring: Ring, rows: map<nat, Row>, last: map<nat, nat>, proven: map<nat, nat>,
                         rotations: map<nat, seq<(nat, Blob)>>)

  /**
   * A row opens to what was put last, its column is its blob's version, and a
   * rail that is on was proven with what it holds.
   */
  predicate RowOk(s: State, k: nat)
    requires k in s.rows
  {
    var row := s.rows[k];
    && k in s.last && row.blob.secret == s.last[k]
    && row.keyVersion == row.blob.version
    && (row.enabled ==> row.validated)
    && (row.validated ==> k in s.proven && s.proven[k] == row.blob.secret)
  }

  ghost predicate Inv(s: State) {
    && RingOk(s.ring)
    && (forall k :: k in s.rows ==> RowOk(s, k))
    && forall p, i :: p in s.rotations && 0 <= i < |s.rotations[p]| ==> TaskOk(s, s.rotations[p][i])
  }

  /** What a rotation has read and not yet written is still what is stored, if the row is still there. */
  predicate TaskOk(s: State, task: (nat, Blob)) {
    task.0 in s.rows ==> s.rows[task.0].blob.secret == task.1.secret
  }

  datatype Event =
    | Put(k: nat, secret: nat)
    | MarkValidated(k: nat, enable: bool)
    | Delete(k: nat)
    | Rekey(ring: Ring)
    | Select(p: nat, keys: seq<nat>)   // rotate's SELECT, in whatever order it answers
    | Reseal(p: nat)                   // rotate's next row: open, seal, UPDATE

  /** The rows a rotation may pick: stale, each once. */
  predicate Picks(s: State, keys: seq<nat>) {
    && (forall i :: 0 <= i < |keys| ==> keys[i] in s.rows && s.rows[keys[i]].keyVersion != s.ring.active)
    && (forall i, j :: 0 <= i < j < |keys| ==> keys[i] != keys[j])
  }

  function Tasks(s: State, keys: seq<nat>): (t: seq<(nat, Blob)>)
    requires Picks(s, keys)
    ensures |t| == |keys| && forall i :: 0 <= i < |t| ==> t[i] == (keys[i], s.rows[keys[i]].blob)
  {
    seq(|keys|, i requires 0 <= i < |keys| => (keys[i], s.rows[keys[i]].blob))
  }

  /** The UPDATE names the row and nothing about what it held. */
  function Resealed(s: State, k: nat, secret: nat): State {
    if k in s.rows then
      s.(rows := s.rows[k := s.rows[k].(blob := Seal(s.ring, secret), keyVersion := s.ring.active)])
    else s
  }

  function DoReseal(s: State, p: nat): State
    requires p in s.rotations && s.rotations[p] != []
  {
    var (k, blob) := s.rotations[p][0];
    var rest := s.(rotations := s.rotations[p := s.rotations[p][1..]]);
    if IsCurrent(s.ring, blob) then rest
    else
      match Open(s.ring, blob)
      case Success(secret) => Resealed(rest, k, secret)
      case Failure(_) => s.(rotations := s.rotations[p := []])
  }

  function Exec(s: State, e: Event): State {
    match e
    case Put(k, secret) =>
      s.(rows := s.rows[k := Row(Seal(s.ring, secret), s.ring.active, false, false)], last := s.last[k := secret])
    case MarkValidated(k, enable) =>
      if k !in s.rows then s
      else s.(rows := s.rows[k := s.rows[k].(validated := true, enabled := enable)],
              proven := s.proven[k := s.rows[k].blob.secret])
    case Delete(k) => s.(rows := s.rows - {k})
    case Rekey(ring) => if RingOk(ring) then s.(ring := ring) else s
    case Select(p, keys) =>
      if p !in s.rotations && Picks(s, keys) then s.(rotations := s.rotations[p := Tasks(s, keys)]) else s
    case Reseal(p) => if p in s.rotations && s.rotations[p] != [] then DoReseal(s, p) else s
  }

  /** No credentials are put for a row while a rotation has it in hand. */
  predicate Apart(s: State, e: Event) {
    e.Put? ==> forall p, i :: p in s.rotations && 0 <= i < |s.rotations[p]| ==> s.rotations[p][i].0 != e.k
  }

  lemma StepKeeps(s: State, e: Event)
    requires Inv(s) && Apart(s, e)
    ensures Inv(Exec(s, e))
  {
    var t := Exec(s, e);
    if e.Reseal? && e.p in s.rotations && s.rotations[e.p] != [] {
      ResealKeeps(s, e.p);
    } else {
      forall k | k in t.rows ensures RowOk(t, k) {
        assert k in s.rows ==> RowOk(s, k);
      }
      forall p, i | p in t.rotations && 0 <= i < |t.rotations[p]| ensures TaskOk(t, t.rotations[p][i]) {
        assert p in s.rotations && i < |s.rotations[p]| ==> TaskOk(s, s.rotations[p][i]);
      }
    }
  }

  lemma ResealKeeps(s: State, p: nat)
    requires Inv(s) && p in s.rotations && s.rotations[p] != []
    ensures Inv(DoReseal(s, p))
  {
    var t := DoReseal(s, p);
    assert TaskOk(s, s.rotations[p][0]);
    forall k | k in t.rows ensures RowOk(t, k) {
      assert RowOk(s, k);
    }
    forall o, i | o in t.rotations && 0 <= i < |t.rotations[o]| ensures TaskOk(t, t.rotations[o][i]) {
      assert o != p ==> TaskOk(s, s.rotations[o][i]);
      assert o == p ==> TaskOk(s, s.rotations[p][i + 1]);
    }
  }

  ghost function Run(s: State, es: seq<Event>): State {
    if es == [] then s else Exec(Run(s, es[..|es| - 1]), es[|es| - 1])
  }

  ghost predicate ApartRun(s: State, es: seq<Event>) {
    es == [] || (ApartRun(s, es[..|es| - 1]) && Apart(Run(s, es[..|es| - 1]), es[|es| - 1]))
  }

  function Empty(ring: Ring): State { State(ring, map[], map[], map[], map[]) }

  /**
   * Over any puts, validations, deletions, changes of key and rotations that
   * keep apart, interleaved row by row: what is stored is what was put last, and
   * a rail that is on was proven with it.
   */
  lemma {:induction false} RunKeeps(ring: Ring, es: seq<Event>)
    requires RingOk(ring) && ApartRun(Empty(ring), es)
    ensures Inv(Run(Empty(ring), es))
  {
    if es != [] {
      hide Inv, Exec;
      RunKeeps(ring, es[..|es| - 1]);
      StepKeeps(Run(Empty(ring), es[..|es| - 1]), es[|es| - 1]);
    } else {
      assert Inv(Empty(ring));
    }
  }

  // ---- Exactly when a rotation undoes something ------------------------------

  /** The state after the first `n` events. */
  ghost function At(ring: Ring, es: seq<Event>, n: nat): State
    requires n <= |es|
  {
    Run(Empty(ring), es[..n])
  }

  lemma NextState(ring: Ring, es: seq<Event>, n: nat)
    requires n < |es|
    ensures At(ring, es, n + 1) == Exec(At(ring, es, n), es[n])
  {
    hide Exec;
    assert es[..n + 1][..n] == es[..n];
  }

  /** Event `i` is the SELECT of rotation `p`, and it finds row `k` holding `secret`. */
  ghost predicate Reads(ring: Ring, es: seq<Event>, i: nat, p: nat, k: nat, secret: nat) {
    && i < |es| && es[i].Select? && es[i].p == p
    && p !in At(ring, es, i).rotations && Picks(At(ring, es, i), es[i].keys)
    && k in es[i].keys && At(ring, es, i).rows[k].blob.secret == secret
  }

  /** The next row of rotation `p` is `k`, which is there, and its blob is stale and opens to `secret`. */
  predicate Rewrites(s: State, p: nat, k: nat, secret: nat) {
    && p in s.rotations && s.rotations[p] != [] && s.rotations[p][0].0 == k && k in s.rows
    && !IsCurrent(s.ring, s.rotations[p][0].1) && Open(s.ring, s.rotations[p][0].1) == Success(secret)
  }

  /** Event `n` is the UPDATE of row `k` by rotation `p`. */
  ghost predicate WritesBack(ring: Ring, es: seq<Event>, n: nat, p: nat, k: nat, secret: nat) {
    n < |es| && es[n] == Reseal(p) && Rewrites(At(ring, es, n), p, k, secret)
  }

  predicate PutsOn(e: Event, k: nat) { e.Put? && e.k == k }

  /** The last Put for `k` from `i` up to `n` is of `secret`. */
  predicate LastPut(es: seq<Event>, i: nat, n: nat, k: nat, secret: nat)
    requires n <= |es|
  {
    exists m: nat :: i <= m < n && es[m] == Put(k, secret) && NoPut(es, m + 1, n, k)
  }

  predicate NoPut(es: seq<Event>, i: nat, n: nat, k: nat)
    requires n <= |es|
  {
    forall m: nat :: i <= m < n ==> !PutsOn(es[m], k)
  }

  /** What a rotation has in hand it read, at its SELECT. */
  ghost predicate HandTraced(ring: Ring, es: seq<Event>, n: nat, p: nat, task: (nat, Blob)) {
    exists i: nat :: i < n && Reads(ring, es, i, p, task.0, task.1.secret)
  }

  lemma {:induction false} TasksAreTraced(ring: Ring, es: seq<Event>, n: nat, p: nat, j: nat)
    requires n <= |es| && p in At(ring, es, n).rotations && j < |At(ring, es, n).rotations[p]|
    ensures HandTraced(ring, es, n, p, At(ring, es, n).rotations[p][j])
  {
    hide Run, Exec, Picks, RingOk;
    if n == 0 {
      StartsEmpty(ring, es);
    } else {
      NextState(ring, es, n - 1);
      var s, t, e := At(ring, es, n - 1), At(ring, es, n), es[n - 1];
      HandComesFrom(s, e, p, j);
      if p in s.rotations {
        var d := |s.rotations[p]| - |t.rotations[p]|;
        TasksAreTraced(ring, es, n - 1, p, j + d);
      } else {
        SelectReads(s, e, p, j);
        assert Reads(ring, es, n - 1, p, t.rotations[p][j].0, t.rotations[p][j].1.secret);
      }
    }
  }

  lemma StartsEmpty(ring: Ring, es: seq<Event>)
    ensures At(ring, es, 0) == Empty(ring)
  {
  }

  /** A rotation's list is what it was, or the rest of it, or what its SELECT has just read. */
  lemma HandComesFrom(s: State, e: Event, p: nat, j: nat)
    requires p in Exec(s, e).rotations && j < |Exec(s, e).rotations[p]|
    ensures p in s.rotations ==>
              var now := Exec(s, e).rotations[p];
              var d := |s.rotations[p]| - |now|;
              d >= 0 && s.rotations[p][j + d] == now[j]
    ensures p !in s.rotations ==> e.Select? && e.p == p && Picks(s, e.keys)
  {
    hide Picks;
  }

  lemma SelectReads(s: State, e: Event, p: nat, j: nat)
    requires e.Select? && e.p == p && p !in s.rotations && Picks(s, e.keys)
    requires p in Exec(s, e).rotations && j < |Exec(s, e).rotations[p]|
    ensures var task := Exec(s, e).rotations[p][j];
            task.0 in e.keys && task.0 in s.rows && s.rows[task.0].blob.secret == task.1.secret
  {
  }

  lemma PutsAreLast(s: State, e: Event, k: nat)
    ensures PutsOn(e, k) ==> k in Exec(s, e).last && Exec(s, e).last[k] == e.secret
    ensures !PutsOn(e, k) ==>
              (k in Exec(s, e).last <==> k in s.last) && (k in s.last ==> Exec(s, e).last[k] == s.last[k])
  {
  }

  /** What was put last is the last Put since, or what had been put last before. */
  lemma {:induction false} LastSince(ring: Ring, es: seq<Event>, i: nat, n: nat, k: nat)
    requires i <= n <= |es|
    ensures var was, now := At(ring, es, i).last, At(ring, es, n).last;
            || (NoPut(es, i, n, k) && (k in now <==> k in was) && (k in was ==> now[k] == was[k]))
            || (k in now && LastPut(es, i, n, k, now[k]))
  {
    hide Run, Exec, PutsOn;
    if i < n {
      LastSince(ring, es, i, n - 1, k);
      NextState(ring, es, n - 1);
      PutsAreLast(At(ring, es, n - 1), es[n - 1], k);
      if PutsOn(es[n - 1], k) {
        PutIs(es[n - 1], k);
        assert es[n - 1] == Put(k, At(ring, es, n).last[k]) && NoPut(es, n, n, k);
      } else if !NoPut(es, i, n - 1, k) {
        var m: nat :| i <= m < n - 1 && es[m] == Put(k, At(ring, es, n - 1).last[k]) && NoPut(es, m + 1, n - 1, k);
        assert NoPut(es, m + 1, n, k);
      }
    }
  }

  lemma PutIs(e: Event, k: nat)
    requires PutsOn(e, k)
    ensures e == Put(k, e.secret)
  {
  }

  lemma OneLastPut(es: seq<Event>, i: nat, n: nat, k: nat, a: nat, b: nat)
    requires n <= |es| && LastPut(es, i, n, k, a)
    ensures LastPut(es, i, n, k, b) ==> a == b
    ensures !NoPut(es, i, n, k)
  {
    var x: nat :| i <= x < n && es[x] == Put(k, a) && NoPut(es, x + 1, n, k);
    assert PutsOn(es[x], k);
    if LastPut(es, i, n, k, b) {
      var y: nat :| i <= y < n && es[y] == Put(k, b) && NoPut(es, y + 1, n, k);
      assert PutsOn(es[y], k);
    }
  }

  /** Row `k` holds what was put last. */
  predicate HoldsTheLast(s: State, k: nat) { k in s.rows ==> k in s.last && s.rows[k].blob.secret == s.last[k] }

  /**
   * At event `n` a rotation writes row `k` back to what it read, and the last Put
   * since it read was of something else.
   */
  ghost predicate UndoesAPut(ring: Ring, es: seq<Event>, n: nat, k: nat) {
    n < |es| &&
    exists i: nat, p: nat, read: nat, put: nat ::
      && i < n && Reads(ring, es, i, p, k, read) && WritesBack(ring, es, n, p, k, read)
      && LastPut(es, i, n, k, put) && put != read
  }

  /** What one event does to the credentials of row `k`, unless it is a rotation writing it back. */
  lemma RowMoves(s: State, e: Event, k: nat)
    requires k in Exec(s, e).rows
    requires e.Reseal? ==> forall secret: nat :: !Rewrites(s, e.p, k, secret)
    ensures var row := Exec(s, e).rows[k];
            if PutsOn(e, k) then row.blob.secret == e.secret && !row.enabled
            else
              && k in s.rows && row.blob.secret == s.rows[k].blob.secret
              && (row.enabled == if e.MarkValidated? && e.k == k then e.enable else s.rows[k].enabled)
  {
    if e.Reseal? && e.p in s.rotations && s.rotations[e.p] != [] {
      var blob := s.rotations[e.p][0].1;
      assert !Rewrites(s, e.p, k, blob.secret);
    }
  }

  lemma RewriteMoves(s: State, p: nat, k: nat, secret: nat)
    requires Rewrites(s, p, k, secret)
    ensures var t := Exec(s, Reseal(p));
            && k in t.rows && t.rows[k].blob.secret == secret && t.rows[k].enabled == s.rows[k].enabled
            && t.last == s.last && t.proven == s.proven
  {
  }

  /** A rotation that writes row `k` back has read what it writes. */
  lemma WritesWhatItRead(ring: Ring, es: seq<Event>, n: nat, p: nat, k: nat, secret: nat) returns (i: nat)
    requires WritesBack(ring, es, n, p, k, secret)
    ensures i < n && Reads(ring, es, i, p, k, secret)
  {
    hide Run, Reads;
    TasksAreTraced(ring, es, n, p, 0);
    var task := At(ring, es, n).rotations[p][0];
    i :| i < n && Reads(ring, es, i, p, task.0, task.1.secret);
  }

  lemma HoldsOn(ring: Ring, es: seq<Event>, n: nat, k: nat)
    requires n < |es| && (forall m: nat :: m <= n ==> HoldsTheLast(At(ring, es, m), k)) && !UndoesAPut(ring, es, n, k)
    ensures HoldsTheLast(At(ring, es, n + 1), k)
  {
    hide At, Exec, Rewrites, LastPut, NoPut;
    NextState(ring, es, n);
    var s, e := At(ring, es, n), es[n];
    PutsAreLast(s, e, k);
    if secret: nat :| e.Reseal? && Rewrites(s, e.p, k, secret) {
      assert WritesBack(ring, es, n, e.p, k, secret);
      RewriteMoves(s, e.p, k, secret);
      var i := WritesWhatItRead(ring, es, n, e.p, k, secret);
      ReadsARow(ring, es, i, e.p, k, secret);
      assert HoldsTheLast(At(ring, es, i), k);
      LastSince(ring, es, i, n, k);
    } else if k in At(ring, es, n + 1).rows {
      RowMoves(s, e, k);
    }
  }

  lemma ReadsARow(ring: Ring, es: seq<Event>, i: nat, p: nat, k: nat, secret: nat)
    requires Reads(ring, es, i, p, k, secret)
    ensures k in At(ring, es, i).rows && At(ring, es, i).rows[k].blob.secret == secret
  {
    hide At;
  }

  lemma UndoingBreaks(ring: Ring, es: seq<Event>, n: nat, k: nat)
    requires UndoesAPut(ring, es, n, k)
    ensures !HoldsTheLast(At(ring, es, n + 1), k)
  {
    hide At, Exec, Rewrites, LastPut, NoPut, Reads;
    var i: nat, p: nat, read: nat, put: nat :|
      && i < n && Reads(ring, es, i, p, k, read) && WritesBack(ring, es, n, p, k, read)
      && LastPut(es, i, n, k, put) && put != read;
    NextState(ring, es, n);
    RewriteMoves(At(ring, es, n), p, k, read);
    LastSince(ring, es, i, n, k);
    OneLastPut(es, i, n, k, put, put);
    if k in At(ring, es, n).last && LastPut(es, i, n, k, At(ring, es, n).last[k]) {
      OneLastPut(es, i, n, k, put, At(ring, es, n).last[k]);
    }
  }

  lemma {:induction false} HoldsSoFar(ring: Ring, es: seq<Event>, n: nat, k: nat)
    requires n <= |es| && forall m: nat :: m < n ==> !UndoesAPut(ring, es, m, k)
    ensures forall m: nat :: m <= n ==> HoldsTheLast(At(ring, es, m), k)
  {
    hide At, Exec, UndoesAPut, HoldsTheLast;
    if n == 0 {
      StartsEmpty(ring, es);
      NothingHeld(ring, k);
    } else {
      HoldsSoFar(ring, es, n - 1, k);
      HoldsOn(ring, es, n - 1, k);
    }
  }

  lemma NothingHeld(ring: Ring, k: nat)
    ensures HoldsTheLast(Empty(ring), k)
  {
  }

  /**
   * Over any run: row `k` holds the credentials put last in every state if and
   * only if no rotation writes it back after credentials other than those it read
   * were the last to be put.
   */
  lemma HoldsTheLastIffNothingUndone(ring: Ring, es: seq<Event>, k: nat)
    ensures (forall n: nat :: n <= |es| ==> HoldsTheLast(At(ring, es, n), k))
       <==> (forall n: nat :: n < |es| ==> !UndoesAPut(ring, es, n, k))
  {
    hide At, UndoesAPut, HoldsTheLast;
    if forall n: nat :: n <= |es| ==> HoldsTheLast(At(ring, es, n), k) {
      forall n: nat | n < |es| ensures !UndoesAPut(ring, es, n, k) {
        if UndoesAPut(ring, es, n, k) {
          UndoingBreaks(ring, es, n, k);
        }
      }
    }
    if forall n: nat :: n < |es| ==> !UndoesAPut(ring, es, n, k) {
      HoldsSoFar(ring, es, |es|, k);
    }
  }

  /** A rail that is on was proven with what it holds. */
  predicate OnIsProven(s: State, k: nat) {
    k in s.rows && s.rows[k].enabled ==> k in s.proven && s.proven[k] == s.rows[k].blob.secret
  }

  predicate Resets(e: Event, k: nat) { (e.Put? || e.Delete? || e.MarkValidated?) && e.k == k }

  /**
   * Event `m` switched the rail on, proven with `secret`, and up to `n` it was
   * neither replaced, deleted nor proven again.
   */
  ghost predicate OnSince(ring: Ring, es: seq<Event>, m: nat, n: nat, k: nat, secret: nat) {
    && m < n <= |es| && es[m] == MarkValidated(k, true)
    && k in At(ring, es, m).rows && At(ring, es, m).rows[k].blob.secret == secret
    && forall l: nat :: m < l < n ==> !Resets(es[l], k)
  }

  /** At event `n` a rotation writes row `k` back to what it read, on a rail that was proven with something else. */
  ghost predicate UnprovesARail(ring: Ring, es: seq<Event>, n: nat, k: nat) {
    n < |es| &&
    exists i: nat, p: nat, read: nat, m: nat, proven: nat ::
      && i < n && Reads(ring, es, i, p, k, read) && WritesBack(ring, es, n, p, k, read)
      && OnSince(ring, es, m, n, k, proven) && proven != read
  }

  /** What one event does to the switch of row `k`. */
  lemma SwitchMoves(s: State, e: Event, k: nat)
    ensures var t := Exec(s, e);
            && (!Resets(e, k) && k in s.rows ==> k in t.rows && t.rows[k].enabled == s.rows[k].enabled)
            && (!Resets(e, k) && k in t.rows ==> k in s.rows)
            && (!Resets(e, k) ==> (k in t.proven <==> k in s.proven) && (k in s.proven ==> t.proven[k] == s.proven[k]))
            && (Resets(e, k) && k in t.rows && t.rows[k].enabled ==> e == MarkValidated(k, true) && k in s.rows)
            && (e == MarkValidated(k, true) && k in s.rows ==>
                  k in t.rows && t.rows[k].enabled && k in t.proven && t.proven[k] == s.rows[k].blob.secret)
  {
  }

  /** A rail is on exactly since some event switched it on, and proven is what it held then. */
  lemma {:induction false} SwitchIsTraced(ring: Ring, es: seq<Event>, n: nat, k: nat)
    requires n <= |es| && k in At(ring, es, n).rows && At(ring, es, n).rows[k].enabled
    ensures k in At(ring, es, n).proven
    ensures exists m: nat :: OnSince(ring, es, m, n, k, At(ring, es, n).proven[k])
  {
    hide At, Exec;
    if n == 0 {
      StartsEmpty(ring, es);
    } else {
      NextState(ring, es, n - 1);
      SwitchMoves(At(ring, es, n - 1), es[n - 1], k);
      if Resets(es[n - 1], k) {
        assert OnSince(ring, es, n - 1, n, k, At(ring, es, n).proven[k]);
      } else {
        SwitchIsTraced(ring, es, n - 1, k);
        var m: nat :| OnSince(ring, es, m, n - 1, k, At(ring, es, n - 1).proven[k]);
        assert OnSince(ring, es, m, n, k, At(ring, es, n).proven[k]);
      }
    }
  }

  lemma {:induction false} SwitchStays(ring: Ring, es: seq<Event>, m: nat, n: nat, k: nat, secret: nat)
    requires OnSince(ring, es, m, n, k, secret)
    ensures var s := At(ring, es, n); k in s.rows && s.rows[k].enabled && k in s.proven && s.proven[k] == secret
  {
    hide At, Exec;
    NextState(ring, es, n - 1);
    SwitchMoves(At(ring, es, n - 1), es[n - 1], k);
    if m < n - 1 {
      assert OnSince(ring, es, m, n - 1, k, secret);
      SwitchStays(ring, es, m, n - 1, k, secret);
    }
  }

  lemma StaysProven(ring: Ring, es: seq<Event>, n: nat, k: nat)
    requires n < |es| && OnIsProven(At(ring, es, n), k) && !UnprovesARail(ring, es, n, k)
    ensures OnIsProven(At(ring, es, n + 1), k)
  {
    hide At, Exec, Rewrites, Reads, OnSince;
    NextState(ring, es, n);
    var s, e := At(ring, es, n), es[n];
    SwitchMoves(s, e, k);
    if secret: nat :| e.Reseal? && Rewrites(s, e.p, k, secret) {
      assert WritesBack(ring, es, n, e.p, k, secret);
      RewriteMoves(s, e.p, k, secret);
      InHand(s, e.p, k, secret);
      if s.rows[k].enabled {
        var i := WritesWhatItRead(ring, es, n, e.p, k, secret);
        SwitchIsTraced(ring, es, n, k);
        var m: nat :| OnSince(ring, es, m, n, k, s.proven[k]);
      }
    } else if k in At(ring, es, n + 1).rows {
      RowMoves(s, e, k);
    }
  }

  lemma InHand(s: State, p: nat, k: nat, secret: nat)
    requires Rewrites(s, p, k, secret)
    ensures k in s.rows
  {
  }

  lemma UnprovingBreaks(ring: Ring, es: seq<Event>, n: nat, k: nat)
    requires UnprovesARail(ring, es, n, k)
    ensures !OnIsProven(At(ring, es, n + 1), k)
  {
    hide At, Exec, Rewrites, Reads, OnSince;
    var i: nat, p: nat, read: nat, m: nat, proven: nat :|
      && i < n && Reads(ring, es, i, p, k, read) && WritesBack(ring, es, n, p, k, read)
      && OnSince(ring, es, m, n, k, proven) && proven != read;
    NextState(ring, es, n);
    RewriteMoves(At(ring, es, n), p, k, read);
    SwitchStays(ring, es, m, n, k, proven);
  }

  lemma {:induction false} ProvenSoFar(ring: Ring, es: seq<Event>, n: nat, k: nat)
    requires n <= |es| && forall m: nat :: m < n ==> !UnprovesARail(ring, es, m, k)
    ensures OnIsProven(At(ring, es, n), k)
  {
    hide At, Exec, UnprovesARail;
    if n == 0 {
      StartsEmpty(ring, es);
    } else {
      ProvenSoFar(ring, es, n - 1, k);
      StaysProven(ring, es, n - 1, k);
    }
  }

  /**
   * Over any run: the rail of row `k` is on only with what it was proven with, in
   * every state, if and only if no rotation writes the row back to credentials
   * other than those its rail was switched on with.
   */
  lemma OnIsProvenIffNothingUnproven(ring: Ring, es: seq<Event>, k: nat)
    ensures (forall n: nat :: n <= |es| ==> OnIsProven(At(ring, es, n), k))
       <==> (forall n: nat :: n < |es| ==> !UnprovesARail(ring, es, n, k))
  {
    hide At, UnprovesARail, OnIsProven;
    if forall n: nat :: n <= |es| ==> OnIsProven(At(ring, es, n), k) {
      forall n: nat | n < |es| ensures !UnprovesARail(ring, es, n, k) {
        if UnprovesARail(ring, es, n, k) {
          UnprovingBreaks(ring, es, n, k);
        }
      }
    }
    if forall n: nat :: n < |es| ==> !UnprovesARail(ring, es, n, k) {
      forall n: nat | n <= |es| ensures OnIsProven(At(ring, es, n), k) {
        ProvenSoFar(ring, es, n, k);
      }
    }
  }

  /**
   * Otherwise the UPDATE puts the old credentials back: here over new ones that
   * have been validated and switched on, so the rail is on with credentials
   * nobody has proven since.
   */
  lemma RotationUndoesAPut() returns (es: seq<Event>)
    ensures var s := Run(Empty(Ring({1, 2}, 1)), es);
            && 7 in s.rows && s.rows[7].enabled && 7 in s.last && s.last[7] == 21 && 7 in s.proven && s.proven[7] == 21
            && Open(s.ring, s.rows[7].blob) == Success(11)
  {
    var s0 := Empty(Ring({1, 2}, 1));
    var s1 := Exec(s0, Put(7, 11));
    var s2 := Exec(s1, Rekey(Ring({1, 2}, 2)));
    assert Picks(s2, [7]);
    var s3 := Exec(s2, Select(1, [7]));
    var s4 := Exec(s3, Put(7, 21));
    var s5 := Exec(s4, MarkValidated(7, true));
    var s6 := Exec(s5, Reseal(1));
    hide Exec, Run;
    var a := ThreeEvents(s0, Put(7, 11), Rekey(Ring({1, 2}, 2)), Select(1, [7]));
    es := ThreeMore(s0, a, s3, Put(7, 21), MarkValidated(7, true), Reseal(1));
  }

  lemma ThreeEvents(s: State, a: Event, b: Event, c: Event) returns (es: seq<Event>)
    ensures Run(s, es) == Exec(Exec(Exec(s, a), b), c)
  {
    hide Exec;
    assert Run(s, []) == s;
    es := ThreeMore(s, [], s, a, b, c);
  }

  lemma ThreeMore(s: State, first: seq<Event>, m: State, a: Event, b: Event, c: Event) returns (es: seq<Event>)
    requires Run(s, first) == m
    ensures Run(s, es) == Exec(Exec(Exec(m, a), b), c)
  {
    hide Exec, Run;
    Then(s, first, m, a);
    Then(s, first + [a], Exec(m, a), b);
    Then(s, first + [a] + [b], Exec(Exec(m, a), b), c);
    es := first + [a] + [b] + [c];
  }

  lemma Then(s: State, es: seq<Event>, m: State, e: Event)
    requires Run(s, es) == m
    ensures Run(s, es + [e]) == Exec(m, e)
  {
    hide Exec;
    assert (es + [e])[..|es|] == es;
  }

  // ---- A row is as it was last told to be ------------------------------------

  /** Event `m` is the last before `n` that is about the whole of row `k`. */
  predicate LastTold(es: seq<Event>, m: nat, n: nat, k: nat)
    requires n <= |es|
  {
    m < n && Resets(es[m], k) && forall l: nat :: m < l < n ==> !Resets(es[l], k)
  }

  /** Events that are not about row `k` leave it its being there and its switches. */
  lemma OthersLeaveIt(s: State, e: Event, k: nat)
    requires !Resets(e, k)
    ensures var t := Exec(s, e);
            && (k in t.rows <==> k in s.rows)
            && (k in s.rows ==> t.rows[k].enabled == s.rows[k].enabled && t.rows[k].validated == s.rows[k].validated)
            && (k in s.rows ==> t.rows[k].keyVersion in {s.rows[k].keyVersion, s.ring.active})
  {
    hide Picks, Tasks;
  }

  lemma ItIsAsTold(s: State, e: Event, k: nat)
    requires Resets(e, k)
    ensures var t := Exec(s, e);
            && (e.Put? ==> k in t.rows && !t.rows[k].enabled && !t.rows[k].validated
                           && t.rows[k].keyVersion == s.ring.active && t.rows[k].blob == Blob(s.ring.active, e.secret))
            && (e.Delete? ==> k !in t.rows)
            && (e.MarkValidated? ==>
                  && (k in t.rows <==> k in s.rows)
                  && (k in s.rows ==> t.rows[k].validated && t.rows[k].enabled == e.enable
                                      && t.rows[k].keyVersion == s.rows[k].keyVersion))
  {
  }

  /**
   * Rotations and changes of key, in any run and however interleaved, lose no row
   * and move no switch: a row is there, proven and on exactly as the last event
   * about it left it.
   */
  lemma {:induction false} IsAsLastTold(ring: Ring, es: seq<Event>, m: nat, n: nat, k: nat)
    requires n <= |es| && LastTold(es, m, n, k)
    ensures var s, t, e := At(ring, es, m), At(ring, es, n), es[m];
            && (e.Put? ==> k in t.rows && !t.rows[k].enabled && !t.rows[k].validated)
            && (e.Delete? ==> k !in t.rows)
            && (e.MarkValidated? ==>
                  && (k in t.rows <==> k in s.rows)
                  && (k in s.rows ==> t.rows[k].validated && t.rows[k].enabled == e.enable))
  {
    hide Run, Exec, Resets;
    NextState(ring, es, n - 1);
    if n == m + 1 {
      ItIsAsTold(At(ring, es, m), es[m], k);
    } else {
      IsAsLastTold(ring, es, m, n - 1, k);
      OthersLeaveIt(At(ring, es, n - 1), es[n - 1], k);
    }
  }

  /** A row nobody ever put anything in is not there. */
  lemma {:induction false} NoneUnlessPut(ring: Ring, es: seq<Event>, n: nat, k: nat)
    requires n <= |es| && NoPut(es, 0, n, k)
    ensures k !in At(ring, es, n).rows
  {
    hide Run, Exec;
    if n == 0 {
      StartsEmpty(ring, es);
    } else {
      NextState(ring, es, n - 1);
      NoneUnlessPut(ring, es, n - 1, k);
      if Resets(es[n - 1], k) {
        ItIsAsTold(At(ring, es, n - 1), es[n - 1], k);
      } else {
        OthersLeaveIt(At(ring, es, n - 1), es[n - 1], k);
      }
    }
  }

  /** The version is of a key that was the active one at some moment from `m` up to `n`. */
  ghost predicate InForce(ring: Ring, es: seq<Event>, m: nat, n: nat, version: nat)
    requires n <= |es|
  {
    exists l: nat :: m <= l < n && At(ring, es, l).ring.active == version
  }

  lemma InForceLonger(ring: Ring, es: seq<Event>, m: nat, n: nat, version: nat)
    requires m < n <= |es| && InForce(ring, es, m, n - 1, version)
    ensures InForce(ring, es, m, n, version)
  {
    hide Run;
    var l: nat :| m <= l < n - 1 && At(ring, es, l).ring.active == version;
    assert At(ring, es, l).ring.active == version;
  }

  lemma InForceNow(ring: Ring, es: seq<Event>, m: nat, n: nat)
    requires m < n <= |es|
    ensures InForce(ring, es, m, n, At(ring, es, n - 1).ring.active)
  {
    hide Run;
  }

  /** What a Put stores is only ever sealed by a key that was the active one then or later. */
  lemma {:induction false} SealedByAKeyInForce(ring: Ring, es: seq<Event>, m: nat, n: nat, k: nat)
    requires m < n <= |es| && PutsOn(es[m], k) && k in At(ring, es, n).rows
    ensures InForce(ring, es, m, n, At(ring, es, n).rows[k].keyVersion)
  {
    hide Run, Exec, InForce;
    var s, e := At(ring, es, n - 1), es[n - 1];
    NextState(ring, es, n - 1);
    InForceNow(ring, es, m, n);
    if Resets(e, k) {
      ItIsAsTold(s, e, k);
    } else {
      OthersLeaveIt(s, e, k);
    }
    if n > m + 1 && k in s.rows {
      SealedByAKeyInForce(ring, es, m, n - 1, k);
      InForceLonger(ring, es, m, n, s.rows[k].keyVersion);
    }
  }

  // ---- The service ---------------------------------------------------------

  /** The rows a rotation still has to see to. */
  function Stale(rows: map<nat, Row>, active: nat): set<nat> {
    set k | k in rows && rows[k].keyVersion != active
  }

  /** The same credentials behind the same switches. */
  predicate SameMeaning(was: Row, now: Row) {
    now.blob.secret == was.blob.secret && now.enabled == was.enabled && now.validated == was.validated
  }

  class Vault {
    var ring: Ring
    var rows: map<nat, Row>
    ghost var last: map<nat, nat>
    ghost var proven: map<nat, nat>

    ghost function View(): State
      reads this
    {
      State(ring, rows, last, proven, map[])
    }

    ghost predicate Valid()
      reads this
    {
      Inv(View())
    }

    constructor (ring: Ring)
      requires RingOk(ring)
      ensures Valid() && View() == Empty(ring)
    {
      this.ring := ring;
      rows, last, proven := map[], map[], map[];
    }

    method PutCredentials(k: nat, secret: nat)
      requires Valid()
      modifies this
      ensures Valid() && View() == Exec(old(View()), Put(k, secret))
      ensures rows == old(rows)[k := Row(Blob(ring.active, secret), ring.active, false, false)]
    {
      StepKeeps(View(), Put(k, secret));
      rows := rows[k := Row(Seal(ring, secret), ring.active, false, false)];
      last := last[k := secret];
    }

    method MarkAsValidated(k: nat, enable: bool) returns (ok: bool)
      requires Valid()
      modifies this
      ensures Valid() && View() == Exec(old(View()), MarkValidated(k, enable)) && ok == (k in old(rows))
      ensures ok ==> rows == old(rows)[k := old(rows)[k].(validated := true, enabled := enable)]
      ensures !ok ==> rows == old(rows)
    {
      StepKeeps(View(), MarkValidated(k, enable));
      ok := k in rows;
      if ok {
        proven := proven[k := rows[k].blob.secret];
        rows := rows[k := rows[k].(validated := true, enabled := enable)];
      }
    }

    method DeleteConfig(k: nat) returns (ok: bool)
      requires Valid()
      modifies this
      ensures Valid() && View() == Exec(old(View()), Delete(k)) && ok == (k in old(rows))
      ensures rows == old(rows) - {k}
    {
      StepKeeps(View(), Delete(k));
      ok := k in rows;
      rows := rows - {k};
    }

    /** The credentials put last, for as long as the key that sealed them is in the ring. */
    method LoadCredentials(k: nat) returns (r: Result<(nat, bool), StoreError>)
      requires Valid()
      ensures k !in rows ==> r == Failure(ProviderUnknown)
      ensures k in rows ==> k in last
      ensures k in rows && rows[k].keyVersion in ring.versions ==> r == Success((last[k], rows[k].enabled))
      ensures k in rows && rows[k].keyVersion !in ring.versions ==> r == Failure(Unreadable(rows[k].keyVersion))
    {
      if k !in rows {
        return Failure(ProviderUnknown);
      }
      assert RowOk(View(), k);
      var plain := Open(ring, rows[k].blob);
      if plain.Failure? {
        return Failure(plain.error);
      }
      r := Success((plain.value, rows[k].enabled));
    }

    /** `SELECT … WHERE key_version <> $1 LIMIT $2`. */
    method SelectStale(batch: nat) returns (picked: seq<(nat, Blob)>)
      ensures |picked| == if |Stale(rows, ring.active)| < batch then |Stale(rows, ring.active)| else batch
      ensures forall i :: 0 <= i < |picked| ==>
                picked[i].0 in Stale(rows, ring.active) && picked[i].1 == rows[picked[i].0].blob
      ensures forall i, j :: 0 <= i < j < |picked| ==> picked[i].0 != picked[j].0
    {
      picked := [];
      ghost var stale := Stale(rows, ring.active);
      var left := set k | k in rows && rows[k].keyVersion != ring.active;
      while left != {} && |picked| < batch
        invariant left <= stale && |left| + |picked| == |stale| && |picked| <= batch
        invariant forall i :: 0 <= i < |picked| ==>
                    picked[i].0 in stale && picked[i].0 !in left && picked[i].1 == rows[picked[i].0].blob
        invariant forall i, j :: 0 <= i < j < |picked| ==> picked[i].0 != picked[j].0
        decreases |left|
      {
        var k :| k in left;
        left := left - {k};
        picked := picked + [(k, rows[k].blob)];
      }
    }

    method ResealRow(k: nat, secret: nat)
      modifies this`rows
      ensures rows == if k in old(rows) then
                        old(rows)[k := old(rows)[k].(blob := Seal(ring, secret), keyVersion := ring.active)]
                      else old(rows)
    {
      if k in rows {
        rows := rows[k := rows[k].(blob := Seal(ring, secret), keyVersion := ring.active)];
      }
    }

    /**
     * `rotate`, undisturbed. Every row keeps its credentials and its switches;
     * each row resealed is one stale row fewer. `remaining` counts the picked
     * rows that were current already, of which there are none: it is zero
     * however many stale rows are left.
     */
    method Rotate(batch: nat) returns (r: Result<(nat, nat), StoreError>)
      requires Valid()
      modifies this`rows
      ensures Valid() && rows.Keys == old(rows).Keys
      ensures forall k :: k in rows ==> SameMeaning(old(rows)[k], rows[k])
      ensures r.Success? ==>
                var stale := |Stale(old(rows), ring.active)|;
                && r.value.1 == 0 && r.value.0 == (if stale < batch then stale else batch)
                && |Stale(rows, ring.active)| == stale - r.value.0
      ensures r.Failure? ==> r.error.Unreadable? && r.error.version !in ring.versions
      ensures (forall k :: k in old(rows) ==> old(rows)[k].keyVersion in ring.versions) ==> r.Success?
      ensures forall k :: k in rows ==> OnlyResealed(ring, old(rows)[k], rows[k])
    {
      hide Rotated, Waiting, SameMeaning, OnlyResealed, Inv;
      var picked := SelectStale(batch);
      ghost var was := rows;
      ghost var stale := |Stale(rows, ring.active)|;
      NothingRotated(ring, rows, picked);
      var resealed := 0;
      for i := 0 to |picked|
        invariant Valid() && resealed == i
        invariant Rotated(ring, was, rows) && Waiting(ring, was, rows, picked, i)
        invariant |Stale(rows, ring.active)| == stale - i
      {
        var (k, blob) := picked[i];
        PickedIsStale(View(), was, picked, i);
        if IsCurrent(ring, blob) {
          assert false;
        }
        var plain := Open(ring, blob);
        if plain.Failure? {
          RotatedRows(ring, was, rows);
          return Failure(plain.error);
        }
        ghost var view := View();
        ResealRow(k, plain.value);
        ResealedOk(view, View(), k);
        OneMoreResealed(ring, was, view.rows, picked, i);
        resealed := resealed + 1;
      }
      RotatedRows(ring, was, rows);
      r := Success((resealed, |picked| - resealed));
    }

    /**
     * `rotate` called again and again, whatever each call answers, as whoever has
     * more than one batch of rows must. Everything ends up under the active key
     * exactly when every stale row can still be opened and the calls were enough.
     */
    method RotateAgain(batch: nat, calls: nat)
      requires Valid()
      modifies this`rows
      ensures Valid() && rows.Keys == old(rows).Keys
      ensures forall k :: k in rows ==> SameMeaning(old(rows)[k], rows[k])
      ensures Stale(rows, ring.active) == {}
         <==> AllReadable(old(rows), ring) && |Stale(old(rows), ring.active)| <= calls * batch
    {
      ghost var was := rows;
      for i := 0 to calls
        invariant Valid() && rows.Keys == was.Keys
        invariant forall k :: k in rows ==> SameMeaning(was[k], rows[k])
        invariant forall k :: k in rows ==> OnlyResealed(ring, was[k], rows[k])
        invariant AllReadable(was, ring) ==>
                    AllReadable(rows, ring) && |Stale(rows, ring.active)| == Left(|Stale(was, ring.active)|, i * batch)
      {
        assert (i + 1) * batch == i * batch + batch;
        var r := Rotate(batch);
      }
      NoneStale(rows, ring.active);
      if !AllReadable(was, ring) {
        var k :| k in Stale(was, ring.active) && was[k].keyVersion !in ring.versions;
        assert k in Stale(rows, ring.active);
      }
    }
  }

  /** What a rotation has done so far: the same rows, some of them resealed. */
  predicate Rotated(ring: Ring, was: map<nat, Row>, now: map<nat, Row>) {
    now.Keys == was.Keys && forall k :: k in now ==> SameMeaning(was[k], now[k]) && OnlyResealed(ring, was[k], now[k])
  }

  /** And what it has not: the picked rows from `i` on, each of them once. */
  predicate Waiting(ring: Ring, was: map<nat, Row>, now: map<nat, Row>, picked: seq<(nat, Blob)>, i: nat) {
    && (forall j :: i <= j < |picked| ==>
          && picked[j].0 in Stale(now, ring.active) && picked[j].0 in was
          && now[picked[j].0] == was[picked[j].0] && picked[j].1 == was[picked[j].0].blob)
    && forall j, l :: 0 <= j < l < |picked| ==> picked[j].0 != picked[l].0
  }

  lemma NothingRotated(ring: Ring, rows: map<nat, Row>, picked: seq<(nat, Blob)>)
    requires forall i :: 0 <= i < |picked| ==>
               picked[i].0 in Stale(rows, ring.active) && picked[i].1 == rows[picked[i].0].blob
    requires forall i, j :: 0 <= i < j < |picked| ==> picked[i].0 != picked[j].0
    ensures Rotated(ring, rows, rows) && Waiting(ring, rows, rows, picked, 0)
  {
  }

  lemma RotatedRows(ring: Ring, was: map<nat, Row>, now: map<nat, Row>)
    requires Rotated(ring, was, now)
    ensures now.Keys == was.Keys
    ensures forall k :: k in now ==> SameMeaning(was[k], now[k]) && OnlyResealed(ring, was[k], now[k])
  {
  }

  lemma PickedIsStale(s: State, was: map<nat, Row>, picked: seq<(nat, Blob)>, i: nat)
    requires Inv(s) && i < |picked| && Waiting(s.ring, was, s.rows, picked, i)
    ensures var (k, blob) := picked[i];
            k in s.rows && k in was && s.rows[k].blob == blob && !IsCurrent(s.ring, blob)
            && was[k].keyVersion == blob.version
  {
    assert RowOk(s, picked[i].0);
  }

  lemma OneMoreResealed(ring: Ring, was: map<nat, Row>, now: map<nat, Row>, picked: seq<(nat, Blob)>, i: nat)
    requires i < |picked| && Rotated(ring, was, now) && Waiting(ring, was, now, picked, i)
    requires was[picked[i].0].keyVersion in ring.versions
    ensures var (k, blob) := picked[i];
            var next := now[k := now[k].(blob := Seal(ring, blob.secret), keyVersion := ring.active)];
            && Rotated(ring, was, next) && Waiting(ring, was, next, picked, i + 1)
            && |Stale(next, ring.active)| == |Stale(now, ring.active)| - 1
  {
    var (k, blob) := picked[i];
    var next := now[k := now[k].(blob := Seal(ring, blob.secret), keyVersion := ring.active)];
    assert Stale(next, ring.active) == Stale(now, ring.active) - {k};
  }

  /** A row that changed was readable, and is under the active key now. */
  predicate OnlyResealed(ring: Ring, was: Row, now: Row) {
    now == was || (was.keyVersion in ring.versions && now.keyVersion == ring.active)
  }

  /** Every stale row was sealed under a key that is still in the ring. */
  predicate AllReadable(rows: map<nat, Row>, ring: Ring) {
    forall k :: k in Stale(rows, ring.active) ==> rows[k].keyVersion in ring.versions
  }

  function Left(stale: nat, taken: nat): nat { if stale <= taken then 0 else stale - taken }

  lemma NoneStale(rows: map<nat, Row>, active: nat)
    ensures Stale(rows, active) == {} <==> |Stale(rows, active)| == 0
  {
  }

  /** Some number of calls is enough exactly when the batch is not empty, or nothing was stale. */
  lemma SomeCallsAreEnough(stale: nat, batch: nat)
    ensures (exists calls: nat :: stale <= calls * batch) <==> batch > 0 || stale == 0
  {
    if batch > 0 {
      assert stale <= stale * batch;
    } else {
      assert forall calls: nat :: calls * batch == 0;
    }
    assert stale == 0 ==> stale <= 0 * batch;
  }

  lemma ResealedOk(s: State, t: State, k: nat)
    requires Inv(s) && k in s.rows && t == Resealed(s, k, s.rows[k].blob.secret) && s.rotations == map[]
    ensures Inv(t)
  {
    forall j | j in t.rows ensures RowOk(t, j) {
      assert RowOk(s, j);
    }
  }
}
