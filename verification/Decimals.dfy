/**
 * Whole numbers as decimal digits, written and read back.
 */
module Decimals {
  predicate AllDigits(s: string) { forall i :: 0 <= i < |s| ==> '0' <= s[i] <= '9' }

  function Digit(d: nat): char
    requires d < 10
  {
    '0' + d as char
  }

  /** `value.toString()`. */
  function Digits(n: nat): (s: string)
    ensures |s| >= 1 && AllDigits(s)
  {
    if n < 10 then [Digit(n)] else Digits(n / 10) + [Digit(n % 10)]
  }

  function Zeros(n: nat): (z: string)
    ensures |z| == n && forall i :: 0 <= i < n ==> z[i] == '0'
  {
    seq(n, _ => '0')
  }

  /** `padStart(width, '0')`: what is already longer stays as it is. */
  function PadStart(s: string, width: nat): (r: string)
    ensures AllDigits(s) ==> AllDigits(r)
  {
    if |s| >= width then s else Zeros(width - |s|) + s
  }

  /** Reading digits back. */
  function Read(s: string): nat
    requires AllDigits(s)
  {
    if s == [] then 0 else 10 * Read(s[..|s| - 1]) + (s[|s| - 1] - '0') as nat
  }

  lemma {:induction false} ReadDigits(n: nat)
    ensures Read(Digits(n)) == n
  {
    if n >= 10 {
      ReadDigits(n / 10);
      assert Digits(n)[..|Digits(n)| - 1] == Digits(n / 10);
    }
  }

  lemma {:induction false} ReadPadded(zeros: nat, s: string)
    requires AllDigits(s)
    ensures Read(Zeros(zeros) + s) == Read(s)
  {
    var padded := Zeros(zeros) + s;
    if s == [] {
      assert padded == Zeros(zeros);
      if zeros > 0 {
        ReadPadded(zeros - 1, []);
        assert Zeros(zeros)[..zeros - 1] == Zeros(zeros - 1) + [];
      }
    } else {
      assert padded[..|padded| - 1] == Zeros(zeros) + s[..|s| - 1];
      ReadPadded(zeros, s[..|s| - 1]);
    }
  }

  lemma {:induction false} ReadWrittenPadded(n: nat, width: nat)
    ensures Read(PadStart(Digits(n), width)) == n
    ensures |PadStart(Digits(n), width)| >= width
  {
    ReadDigits(n);
    if |Digits(n)| < width {
      ReadPadded(width - |Digits(n)|, Digits(n));
    }
  }
}
