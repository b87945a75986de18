/**
 * Bounded reads and bounded retries of external calls (src/connectors/resilient.js).
 *
 * Bodies are bytes. The source decodes them once, at the end, so the text is a
 * function of the bytes returned here. Waits are real numbers of milliseconds.
 */
module Resilient {
  import opened Wrappers

  type byte = b: int | 0 <= b < 256

  // ---- Reading a body ------------------------------------------------------

  function Flatten(chunks: seq<seq<byte>>): seq<byte> {
    if chunks == [] then [] else Flatten(chunks[..|chunks| - 1]) + chunks[|chunks| - 1]
  }

  lemma FlattenPush(chunks: seq<seq<byte>>, chunk: seq<byte>)
    ensures Flatten(chunks + [chunk]) == Flatten(chunks) + chunk
  {
    assert (chunks + [chunk])[..|chunks|] == chunks;
  }

  lemma {:induction false} FlattenConcat(a: seq<seq<byte>>, b: seq<seq<byte>>)
    ensures Flatten(a + b) == Flatten(a) + Flatten(b)
  {
    if b == [] {
      assert a + b == a;
    } else {
      assert (a + b)[..|a + b| - 1] == a + b[..|b| - 1];
      FlattenConcat(a, b[..|b| - 1]);
    }
  }

  /** Where a body is cut into chunks does not matter to what it is. */
  lemma SplitAnywhere(chunks: seq<seq<byte>>, k: nat, cut: nat)
    requires k < |chunks| && cut <= |chunks[k]|
    ensures Flatten(chunks[..k] + [chunks[k][..cut], chunks[k][cut..]] + chunks[k + 1..]) == Flatten(chunks)
  {
    hide Flatten;
    var halves := [chunks[k][..cut], chunks[k][cut..]];
    Halves(chunks[k], cut);
    FlattenConcat(chunks[..k] + halves, chunks[k + 1..]);
    FlattenConcat(chunks[..k], halves);
    FlattenConcat(chunks[..k] + [chunks[k]], chunks[k + 1..]);
    FlattenPush(chunks[..k], chunks[k]);
    assert chunks == chunks[..k] + [chunks[k]] + chunks[k + 1..];
  }

  lemma Halves(chunk: seq<byte>, cut: nat)
    requires cut <= |chunk|
    ensures Flatten([chunk[..cut], chunk[cut..]]) == chunk
  {
    FlattenPush([], chunk[..cut]);
    FlattenPush([chunk[..cut]], chunk[cut..]);
    assert [] + [chunk[..cut]] == [chunk[..cut]] && [chunk[..cut]] + [chunk[cut..]] == [chunk[..cut], chunk[cut..]];
  }

  datatype ReadError = TooLarge | StreamFailed

  /** `byteCappedCollector`. */
  class Collector {
    const maxBytes: nat
    var chunks: seq<seq<byte>>
    var received: nat

    /** Never more than the ceiling in memory; a chunk that was refused is counted, not kept. */
    ghost predicate Valid()
      reads this
    {
      |Flatten(chunks)| <= maxBytes && |Flatten(chunks)| <= received
    }

    constructor (maxBytes: nat)
      ensures Valid() && this.maxBytes == maxBytes && chunks == [] && received == 0
    {
      this.maxBytes, chunks, received := maxBytes, [], 0;
    }

    method Push(chunk: seq<byte>) returns (ok: bool)
      requires Valid()
      modifies this
      ensures Valid() && received == old(received) + |chunk|
      ensures ok <==> old(received) + |chunk| <= maxBytes
      ensures chunks == if ok then old(chunks) + [chunk] else old(chunks)
    {
      received := received + |chunk|;
      ok := received <= maxBytes;
      if ok {
        FlattenPush(chunks, chunk);
        chunks := chunks + [chunk];
      }
    }

    method Bytes() returns (all: seq<byte>)
      ensures all == Flatten(chunks)
    {
      all := [];
      for i := 0 to |chunks|
        invariant all == Flatten(chunks[..i])
      {
        FlattenPush(chunks[..i], chunks[i]);
        assert chunks[..i + 1] == chunks[..i] + [chunks[i]];
        all := all + chunks[i];
      }
      assert chunks[..|chunks|] == chunks;
    }
  }

  /**
   * A response: what it declares, and its stream, cut off by an error or read to
   * its end. One without a stream hands over its body whole.
   */
  datatype Response = Response(declared: Option<nat>, stream: Option<Stream>, body: seq<byte>)
  datatype Stream = Stream(chunks: seq<seq<byte>>, breaks: bool)

  predicate Declares(r: Response, maxBytes: nat) { r.declared.Some? && r.declared.value > maxBytes }

  /** Some point of the stream is past the ceiling. */
  predicate Overflows(s: Stream, maxBytes: nat) { |Flatten(s.chunks)| > maxBytes }

  lemma {:induction false} FlattenGrows(chunks: seq<seq<byte>>, i: nat)
    requires i <= |chunks|
    ensures |Flatten(chunks[..i])| <= |Flatten(chunks)|
  {
    assert chunks == chunks[..i] + chunks[i..];
    FlattenConcat(chunks[..i], chunks[i..]);
  }

  /**
   * `readCappedText`: the whole body exactly when neither what is declared nor
   * what arrives is over the ceiling, however it is chunked. `held` is the most
   * that was ever in memory.
   */
  method ReadCapped(r: Response, maxBytes: nat) returns (result: Result<seq<byte>, ReadError>, held: nat)
    ensures Declares(r, maxBytes) ==> result == Failure(TooLarge) && held == 0
    ensures !Declares(r, maxBytes) && r.stream.Some? ==>
              && held <= maxBytes
              && result == if Overflows(r.stream.value, maxBytes) then Failure(TooLarge)
                           else if r.stream.value.breaks then Failure(StreamFailed)
                           else Success(Flatten(r.stream.value.chunks))
    ensures !Declares(r, maxBytes) && r.stream.None? ==> result == Success(r.body) && held == |r.body|
  {
    held := 0;
    if r.declared.Some? && r.declared.value > maxBytes {
      return Failure(TooLarge), 0;
    }
    if r.stream.None? {
      return Success(r.body), |r.body|;
    }
    var chunks := r.stream.value.chunks;
    var collector := new Collector(maxBytes);
    for i := 0 to |chunks|
      invariant collector.Valid() && collector.maxBytes == maxBytes
      invariant collector.chunks == chunks[..i] && collector.received == |Flatten(chunks[..i])| && held <= maxBytes
    {
      FlattenPush(chunks[..i], chunks[i]);
      assert chunks[..i + 1] == chunks[..i] + [chunks[i]];
      FlattenGrows(chunks, i + 1);
      var ok := collector.Push(chunks[i]);
      held := |Flatten(collector.chunks)|;
      if !ok {
        return Failure(TooLarge), held;
      }
    }
    assert chunks[..|chunks|] == chunks;
    if r.stream.value.breaks {
      return Failure(StreamFailed), held;
    }
    var all := collector.Bytes();
    result := Success(all);
  }

  // ---- Retrying ------------------------------------------------------------

  datatype Outcome = Value(v: int) | Fatal(error: int) | Transient(error: int)

  /** 4xx other than 429 cannot be helped by asking again. */
  predicate IsFatalStatus(status: nat) { 400 <= status < 500 && status != 429 }

  function Pow2(n: nat): nat { if n == 0 then 1 else 2 * Pow2(n - 1) }

  /** The attempt that decides: the first success or fatal error, or the last allowed. */
  predicate Decides(outcomes: seq<Outcome>, n: nat) {
    && 0 < n <= |outcomes|
    && (forall i :: 0 <= i < n - 1 ==> outcomes[i].Transient?)
    && (n < |outcomes| ==> !outcomes[n - 1].Transient?)
  }

  lemma OneDecides(outcomes: seq<Outcome>, m: nat, n: nat)
    requires Decides(outcomes, m) && Decides(outcomes, n)
    ensures m == n
  {
    assert forall i :: 0 <= i < m - 1 ==> outcomes[i].Transient?;
    assert forall i :: 0 <= i < n - 1 ==> outcomes[i].Transient?;
  }

  /**
   * `withRetries`. `outcomes` are what up to `retries` attempts would answer and
   * `jitter` the fractions Math.random draws; `made` attempts are made.
   */
  method WithRetries(outcomes: seq<Outcome>, jitter: seq<real>, baseDelay: real)
    returns (last: Outcome, made: nat, waited: real)
    requires outcomes != [] && |jitter| == |outcomes| && baseDelay >= 0.0
    requires forall i :: 0 <= i < |jitter| ==> 0.0 <= jitter[i] < 1.0
    ensures Decides(outcomes, made) && last == outcomes[made - 1]
    ensures baseDelay * (Pow2(made - 1) - 1) as real <= waited <= 1.25 * (baseDelay * (Pow2(made - 1) - 1) as real)
  {
    made, waited := 0, 0.0;
    last := outcomes[0];
    var backoff := baseDelay;
    for i := 0 to |outcomes|
      invariant made == i && backoff == baseDelay * Pow2(i) as real
      invariant forall k :: 0 <= k < i ==> outcomes[k].Transient?
      invariant i < |outcomes|
      invariant baseDelay * (Pow2(i) - 1) as real <= waited <= 1.25 * (baseDelay * (Pow2(i) - 1) as real)
    {
      last, made := outcomes[i], i + 1;
      if !last.Transient? || i == |outcomes| - 1 {
        return;
      }
      var pause := backoff + jitter[i] * backoff * 0.25;
      Pow2Positive(i);
      PauseBounds(baseDelay, Pow2(i), jitter[i], backoff, pause, waited);
      waited := waited + pause;
      backoff := backoff * 2.0;
    }
  }

  lemma PauseBounds(base: real, p: nat, jitter: real, backoff: real, pause: real, waited: real)
    requires base >= 0.0 && p >= 1 && 0.0 <= jitter < 1.0 && backoff == base * p as real
    requires pause == backoff + jitter * backoff * 0.25
    requires base * (p - 1) as real <= waited <= 1.25 * (base * (p - 1) as real)
    ensures base * (2 * p - 1) as real <= waited + pause <= 1.25 * (base * (2 * p - 1) as real)
    ensures backoff * 2.0 == base * (2 * p) as real
  {
    NonNegativeProduct(base, p as real);
    Fraction(jitter, backoff);
    RealSum(base, (p - 1) as real, p as real);
    RealSum(base, p as real, p as real);
    var x, y := base * (p - 1) as real, base * p as real;
    assert (p - 1) as real + p as real == (2 * p - 1) as real && p as real + p as real == (2 * p) as real;
    assert base * (2 * p - 1) as real == x + y && base * (2 * p) as real == y + y;
    PauseSum(x, y, jitter * backoff, pause, waited);
  }

  lemma PauseSum(x: real, y: real, drawn: real, pause: real, waited: real)
    requires 0.0 <= drawn <= y && pause == y + drawn * 0.25 && x <= waited <= 1.25 * x
    ensures x + y <= waited + pause <= 1.25 * (x + y)
  {
  }

  lemma NonNegativeProduct(a: real, b: real)
    requires a >= 0.0 && b >= 0.0
    ensures a * b >= 0.0
  {
  }

  lemma Fraction(f: real, x: real)
    requires 0.0 <= f < 1.0 && x >= 0.0
    ensures 0.0 <= f * x <= x
  {
    NonNegativeProduct(f, x);
    NonNegativeProduct(1.0 - f, x);
    assert (1.0 - f) * x == x - f * x;
  }

  lemma RealSum(a: real, b: real, c: real)
    ensures a * (b + c) == a * b + a * c
  {
  }

  lemma Pow2Positive(n: nat)
    ensures Pow2(n) >= 1
  {
  }
}
