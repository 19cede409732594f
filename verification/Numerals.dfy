/** Decimal numerals, as the scripts print and read them. */
module Numerals {

  predicate IsDigit(c: char) {
    '0' <= c <= '9'
  }

  predicate AllDigits(s: string) {
    forall k :: 0 <= k < |s| ==> IsDigit(s[k])
  }

  function Digit(d: nat): (c: char)
    requires d < 10
    ensures IsDigit(c) && DigitValue(c) == d
  {
    '0' + d as char
  }

  function DigitValue(c: char): nat
    requires IsDigit(c)
  {
    (c - '0') as nat
  }

  /** The shortest numeral of n. */
  function Show(n: nat): string {
    if n < 10 then [Digit(n)] else Show(n / 10) + [Digit(n % 10)]
  }

  function Value(s: string): nat
    requires AllDigits(s)
  {
    if s == [] then 0 else 10 * Value(s[..|s| - 1]) + DigitValue(s[|s| - 1])
  }

  /** Reading back a printed number. */
  lemma {:induction false} ValueOfShow(n: nat)
    ensures |Show(n)| >= 1 && AllDigits(Show(n)) && Value(Show(n)) == n
  {
    if n >= 10 {
      ValueOfShow(n / 10);
      var s := Show(n);
      assert s[..|s| - 1] == Show(n / 10);
    } else {
      assert Show(n)[..0] == [];
    }
  }

  lemma {:induction false} ShowWidens(m: nat, n: nat)
    requires m <= n
    ensures |Show(m)| <= |Show(n)|
  {
    if m >= 10 {
      assert m / 10 <= n / 10;
      ShowWidens(m / 10, n / 10);
    }
  }

  /** Zeros in front up to the given width. */
  function Zfill(s: string, width: nat): string
    decreases width
  {
    if |s| >= width then s else ['0'] + Zfill(s, width - 1)
  }

  lemma {:induction false} ZfillKeepsValue(s: string, width: nat)
    requires AllDigits(s)
    ensures AllDigits(Zfill(s, width)) && Value(Zfill(s, width)) == Value(s)
    ensures |Zfill(s, width)| == if |s| >= width then |s| else width
    decreases width
  {
    if |s| < width {
      ZfillKeepsValue(s, width - 1);
      LeadingZero(Zfill(s, width - 1));
    }
  }

  lemma {:induction false} LeadingZero(s: string)
    requires AllDigits(s)
    ensures Value(['0'] + s) == Value(s)
  {
    var z := ['0'] + s;
    if s == [] {
      assert z[..0] == [];
    } else {
      LeadingZero(s[..|s| - 1]);
      assert z[..|z| - 1] == ['0'] + s[..|s| - 1];
    }
  }
}
