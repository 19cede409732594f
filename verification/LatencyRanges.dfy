/** The memory latency sweep: which range sizes are measured. */
module LatencyRanges {
  import opened Bits
  import opened Grid

  const MIN_RANGE := 4096

  predicate IsPow2(num: nat) {
    num != 0 && And(num, num - 1) == 0
  }

  /** x is one of the four evenly spaced sizes from 2^(s+2) up to, not including, 2^(s+3). */
  ghost predicate IsSize(x: nat, s: nat, m: nat) {
    s >= 10 && 4 <= m < 8 && x == Times(m, Power(s))
  }

  ghost predicate Listed(x: nat) {
    exists s: nat, m: nat :: IsSize(x, s, m)
  }

  lemma {:induction false} SizeBounds(m: nat, p: nat)
    requires 4 <= m < 8
    ensures 4 * p <= Times(m, p) && Times(m + 1, p) == Times(m, p) + p && Times(m + 1, p) <= 8 * p
    ensures Times(4, p) == 4 * p && Times(8, p) == 8 * p
  {
    TimesIsProduct(4, p);
    TimesIsProduct(8, p);
    TimesMonotone(4, m, p);
    TimesMonotone(m + 1, 8, p);
  }

  lemma {:induction false} PowersNear(s: nat)
    ensures Power(s + 1) == 2 * Power(s) && Power(s + 2) == 4 * Power(s) && Power(s + 3) == 8 * Power(s)
  {
    assert Power(s + 2) == 2 * Power(s + 1) && Power(s + 3) == 2 * Power(s + 2);
  }

  lemma {:induction false} NotPower(x: nat, s: nat)
    requires Power(s + 2) < x < Power(s + 3)
    ensures !IsPower(x)
  {
    if IsPower(x) {
      var k: nat :| x == Power(k);
      if k <= s + 2 {
        PowerGrows(k, s + 2);
      } else {
        PowerGrows(s + 3, k);
      }
    }
  }

  /** The successor of a size is a size, and a power of two exactly at the end of an octave. */
  lemma {:induction false} NextSize(s: nat, m: nat)
    requires s >= 10 && 4 <= m < 8
    ensures var next := Times(m, Power(s)) + Power(s);
            && (if m < 7 then IsSize(next, s, m + 1) else IsSize(next, s + 1, 4))
            && (IsPow2(next) <==> m == 7)
  {
    var p := Power(s);
    var next := Times(m, p) + p;
    SizeBounds(m, p);
    SizeBounds(4, 2 * p);
    PowersNear(s);
    PowerOfTwoIff(next);
    if m == 7 {
      assert next == Power(s + 3);
    } else {
      TimesMonotone(m + 1, 8, p);
      NotPower(next, s);
    }
  }

  /** Nothing lies between a size and its successor. */
  lemma {:induction false} NoSizeBetween(s: nat, m: nat, x: nat)
    requires s >= 10 && 4 <= m < 8 && Times(m, Power(s)) < x < Times(m, Power(s)) + Power(s)
    ensures !Listed(x)
  {
    if Listed(x) {
      var s1: nat, m1: nat :| IsSize(x, s1, m1);
      SizesOrdered(s, m, s1, m1);
    }
  }

  lemma {:induction false} SizesOrdered(s: nat, m: nat, s1: nat, m1: nat)
    requires 4 <= m < 8 && 4 <= m1 < 8
    ensures Times(m1, Power(s1)) <= Times(m, Power(s)) || Times(m1, Power(s1)) >= Times(m, Power(s)) + Power(s)
  {
    SizeBounds(m, Power(s));
    SizeBounds(m1, Power(s1));
    if s1 < s {
      PowerGrows(s1, s);
    } else if s < s1 {
      PowerGrows(s, s1);
    } else if m1 <= m {
      TimesMonotone(m1, m, Power(s));
    } else {
      TimesMonotone(m, m1, Power(s));
    }
  }

  lemma {:induction false} FirstSize()
    ensures Power(10) == 1024 && IsSize(MIN_RANGE, 10, 4)
  {
    SizeBounds(4, 1024);
    assert Power(5) == 32;
    assert Power(10) == 1024;
  }

  lemma {:induction false} LeastSize(x: nat)
    requires Listed(x)
    ensures x >= MIN_RANGE
  {
    var s: nat, m: nat :| IsSize(x, s, m);
    FirstSize();
    PowerGrows(10, s);
    SizeBounds(m, Power(s));
  }

  /** Powers of two from the smallest range on are sizes. */
  lemma {:induction false} PowersAreListed(k: nat)
    requires k >= 12
    ensures Listed(Power(k))
  {
    SizeBounds(4, Power(k - 2));
    PowersNear(k - 2);
    assert IsSize(Power(k), k - 2, 4);
  }

  /** The sizes in ascending order, up to the first that covers the maximum. */
  method MakeRanges(maxRange: nat) returns (ranges: seq<nat>)
    ensures |ranges| >= 1 && ranges[0] == MIN_RANGE && ranges[|ranges| - 1] >= maxRange
    ensures |ranges| > 1 ==> ranges[|ranges| - 2] < maxRange
    ensures forall i, j :: 0 <= i < j < |ranges| ==> ranges[i] < ranges[j]
    ensures forall x: nat :: x in ranges <==> Listed(x) && x <= ranges[|ranges| - 1]
  {
    ranges := [MIN_RANGE];
    var step := 1024;
    ghost var s, m := 10, 4;
    FirstSize();
    forall x: nat
      ensures x in ranges <==> Listed(x) && x <= MIN_RANGE
    {
      if Listed(x) {
        LeastSize(x);
      }
    }
    while ranges[|ranges| - 1] < maxRange
      invariant |ranges| >= 1 && ranges[0] == MIN_RANGE
      invariant |ranges| > 1 ==> ranges[|ranges| - 2] < maxRange
      invariant step == Power(s) && IsSize(ranges[|ranges| - 1], s, m)
      invariant forall i, j :: 0 <= i < j < |ranges| ==> ranges[i] < ranges[j]
      invariant forall x: nat :: x in ranges <==> Listed(x) && x <= ranges[|ranges| - 1]
      decreases maxRange - ranges[|ranges| - 1]
    {
      var newRange := ranges[|ranges| - 1] + step;
      NextSize(s, m);
      OneMoreSize(ranges, s, m, newRange);
      if IsPow2(newRange) {
        step := step * 2;
        s, m := s + 1, 4;
      } else {
        m := m + 1;
      }
      ranges := ranges + [newRange];
    }
  }

  lemma {:induction false} OneMoreSize(ranges: seq<nat>, s: nat, m: nat, next: nat)
    requires s >= 10 && 4 <= m < 8 && next == Times(m, Power(s)) + Power(s) && Listed(next)
    requires forall x: nat :: x in ranges <==> Listed(x) && x <= Times(m, Power(s))
    ensures forall x: nat :: x in ranges + [next] <==> Listed(x) && x <= next
  {
    forall x: nat
      ensures x in ranges + [next] <==> Listed(x) && x <= next
    {
      assert x in ranges + [next] <==> x in ranges || x == next;
      if Times(m, Power(s)) < x < next {
        NoSizeBetween(s, m, x);
      }
    }
  }
}
