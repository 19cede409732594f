/** Products, quotients and remainders by repeated addition and subtraction.
    Positions in a grid are reasoned about in this form, so that every proof
    about them stays in linear arithmetic; the last two lemmas say that the
    functions are the ordinary operators. */
module Grid {

  function Times(a: nat, m: nat): nat {
    if a == 0 then 0 else Times(a - 1, m) + m
  }

  function Quot(n: nat, m: nat): nat
    requires m > 0
  {
    if n < m then 0 else 1 + Quot(n - m, m)
  }

  function Rem(n: nat, m: nat): (r: nat)
    requires m > 0
    ensures r <= n && r < m
  {
    if n < m then n else Rem(n - m, m)
  }

  /** A position (q, r) of a grid with rows of length m is recovered from its number. */
  lemma {:induction false} Decode(q: nat, r: nat, m: nat)
    requires r < m
    ensures Quot(r + Times(q, m), m) == q
    ensures Rem(r + Times(q, m), m) == r
  {
    if q > 0 {
      Decode(q - 1, r, m);
    }
  }

  /** Every number is the number of the position it decodes to. */
  lemma {:induction false} Encode(n: nat, m: nat)
    requires m > 0
    ensures n == Rem(n, m) + Times(Quot(n, m), m)
    ensures Rem(n, m) < m
  {
    if n >= m {
      Encode(n - m, m);
    }
  }

  lemma {:induction false} TimesMonotone(a: nat, b: nat, m: nat)
    requires a <= b
    ensures Times(a, m) <= Times(b, m)
    ensures a < b ==> Times(a, m) + m <= Times(b, m)
  {
    if a < b {
      TimesMonotone(a, b - 1, m);
    }
  }

  /** Numbers below k rows decode to a row below k. */
  lemma {:induction false} QuotBound(n: nat, k: nat, m: nat)
    requires m > 0 && n < Times(k, m)
    ensures Quot(n, m) < k
  {
    Encode(n, m);
    if k <= Quot(n, m) {
      TimesMonotone(k, Quot(n, m), m);
    }
  }

  lemma {:induction false} TimesIsProduct(a: nat, m: nat)
    ensures Times(a, m) == a * m
  {
    if a > 0 {
      TimesIsProduct(a - 1, m);
    }
  }

  lemma {:induction false} ProductMonotone(a: int, b: int, m: nat)
    requires a <= b
    ensures a * m <= b * m
  {
  }

  /** Quotient and remainder are unique. */
  lemma {:induction false} DivisionUnique(n: int, m: nat, q: int, r: int)
    requires m > 0 && 0 <= r < m && n == q * m + r
    ensures n / m == q && n % m == r
  {
    var d := n / m;
    assert n == d * m + n % m;
    if d < q {
      ProductMonotone(d + 1, q, m);
      assert false;
    }
    if q < d {
      ProductMonotone(q + 1, d, m);
      assert false;
    }
  }

  lemma {:induction false} QuotIsDivision(n: nat, m: nat)
    requires m > 0
    ensures Quot(n, m) == n / m && Rem(n, m) == n % m
  {
    Encode(n, m);
    TimesIsProduct(Quot(n, m), m);
    DivisionUnique(n, m, Quot(n, m), Rem(n, m));
  }
}
