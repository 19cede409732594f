/** Bitwise operators on unbounded naturals. */
module Bits {

  function And(a: nat, b: nat): nat {
    if a == 0 || b == 0 then 0
    else (if a % 2 == 1 && b % 2 == 1 then 1 else 0) + 2 * And(a / 2, b / 2)
  }

  function Or(a: nat, b: nat): nat {
    if a == 0 then b
    else if b == 0 then a
    else (if a % 2 == 1 || b % 2 == 1 then 1 else 0) + 2 * Or(a / 2, b / 2)
  }

  function Power(k: nat): (r: nat)
    ensures r > 0
  {
    if k == 0 then 1 else 2 * Power(k - 1)
  }

  /** Or stays within as many bits as its operands have. */
  lemma {:induction false} OrBound(a: nat, b: nat, k: nat)
    requires a < Power(k) && b < Power(k)
    ensures Or(a, b) < Power(k)
  {
    if a != 0 && b != 0 {
      OrBound(a / 2, b / 2, k - 1);
    }
  }

  lemma {:induction false} AndSelf(a: nat)
    ensures And(a, a) == a
  {
    if a != 0 {
      AndSelf(a / 2);
    }
  }

  ghost predicate IsPower(n: nat) {
    exists k: nat :: n == Power(k)
  }

  lemma {:induction false} PowerHalf(n: nat)
    requires n > 1
    ensures IsPower(n) <==> n % 2 == 0 && IsPower(n / 2)
  {
    if IsPower(n) {
      var k: nat :| n == Power(k);
      assert n / 2 == Power(k - 1);
    }
    if n % 2 == 0 && IsPower(n / 2) {
      var k: nat :| n / 2 == Power(k);
      assert n == Power(k + 1);
    }
  }

  lemma {:induction false} AndHalf(n: nat)
    requires n > 1
    ensures And(n, n - 1) == 2 * And(n / 2, if n % 2 == 0 then n / 2 - 1 else n / 2)
  {
    if n % 2 == 0 {
      assert (n - 1) / 2 == n / 2 - 1;
    } else {
      assert (n - 1) / 2 == n / 2;
    }
  }

  /** A number is a power of two exactly if it is nonzero and shares no bit with
      its predecessor. */
  lemma {:induction false} PowerOfTwoIff(n: nat)
    requires n != 0
    ensures And(n, n - 1) == 0 <==> IsPower(n)
  {
    if n == 1 {
      assert Power(0) == 1;
    } else {
      AndHalf(n);
      PowerHalf(n);
      if n % 2 == 1 {
        AndSelf(n / 2);
      } else {
        PowerOfTwoIff(n / 2);
      }
    }
  }

  lemma {:induction false} PowerGrows(j: nat, k: nat)
    requires j <= k
    ensures Power(j) <= Power(k)
    ensures j < k ==> 2 * Power(j) <= Power(k)
  {
    if j < k {
      PowerGrows(j, k - 1);
    }
  }
}
