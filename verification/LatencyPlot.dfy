/** The sweep's states and the plot made from their samples: every range has one
    state that warms the memory and then k that measure, and the plot takes for
    each range the least of its measured samples. */
module LatencyPlot {
  import opened Grid

  /** A state of the traffic generator plays the trace of a range. */
  datatype State = State(range: nat, warming: bool)

  method MakeStates(n: nat, k: nat) returns (states: seq<State>)
    ensures |states| == Times(n, k + 1)
    ensures forall j: nat, i: nat :: j < n && i <= k ==> StateAt(states, j, i, k)
  {
    states := [];
    for r := 0 to n
      invariant |states| == Times(r, k + 1)
      invariant forall j: nat, i: nat :: j < r && i <= k ==> StateAt(states, j, i, k)
    {
      ghost var before := states;
      states := states + [State(r, true)];
      for i := 0 to k
        invariant states == before + [State(r, true)] + seq(i, x => State(r, false))
      {
        states := states + [State(r, false)];
      }
      forall j: nat, i: nat | j < r + 1 && i <= k
        ensures StateAt(states, j, i, k)
      {
        if j < r {
          assert StateAt(before, j, i, k);
        }
      }
    }
  }

  /** State i of range j: the first warms, the others measure. */
  ghost predicate StateAt(states: seq<State>, j: nat, i: nat, k: nat) {
    Times(j, k + 1) + i < |states| && states[Times(j, k + 1) + i] == State(j, i == 0)
  }

  /** Each state leads to the next; the last one stays. */
  method MakeTransitions(n: nat) returns (next: seq<nat>)
    requires n > 0
    ensures |next| == n && forall s :: 0 <= s < n ==> next[s] == if s < n - 1 then s + 1 else s
  {
    next := [];
    for s := 1 to n
      invariant |next| == s - 1 && forall t :: 0 <= t < s - 1 ==> next[t] == t + 1
    {
      next := next + [s];
    }
    next := next + [n - 1];
  }

  // ---- Taking the warming samples out ----

  /** Sample i of group j of the filtered list, where groups have k samples. */
  ghost predicate Picked(raw: seq<real>, filtered: seq<real>, k: nat, j: nat, i: nat) {
    i < k && Times(j, k) + i < |filtered| ==>
      Times(j, k + 1) + 1 + i < |raw| && filtered[Times(j, k) + i] == raw[Times(j, k + 1) + 1 + i]
  }

  /** The samples that measured, in order. */
  ghost predicate IsFiltered(raw: seq<real>, filtered: seq<real>, k: nat) {
    && (forall j: nat, i: nat :: Picked(raw, filtered, k, j, i))
    && |filtered| == Times(Quot(|raw|, k + 1), k) + Max(Rem(|raw|, k + 1) - 1, 0)
  }

  ghost function Max(a: int, b: int): int {
    if a >= b then a else b
  }

  lemma {:induction false} AtGroupStart(j: nat, p: nat, k: nat)
    requires p <= k
    ensures Rem(Times(j, k + 1) + p, k + 1) == p
  {
    Decode(j, p, k + 1);
  }

  method Filter(raw: seq<real>, k: nat) returns (filtered: seq<real>)
    ensures IsFiltered(raw, filtered, k)
  {
    filtered := [];
    ghost var j: nat, p: nat := 0, 0;
    for i := 0 to |raw|
      invariant p <= k && i == Times(j, k + 1) + p && |filtered| == Times(j, k) + Max(p - 1, 0)
      invariant forall a: nat, b: nat :: Picked(raw, filtered, k, a, b)
    {
      AtGroupStart(j, p, k);
      if Rem(i, k + 1) != 0 {
        ghost var before := filtered;
        filtered := filtered + [raw[i]];
        AllPicked(raw, before, filtered, k, j, p - 1);
      }
      if p == k {
        j, p := j + 1, 0;
      } else {
        p := p + 1;
      }
    }
    Decode(j, p, k + 1);
  }

  lemma {:induction false} AllPicked(raw: seq<real>, before: seq<real>, after: seq<real>, k: nat, j: nat, i: nat)
    requires i < k && |before| == Times(j, k) + i && Times(j, k + 1) + 1 + i < |raw|
    requires after == before + [raw[Times(j, k + 1) + 1 + i]]
    requires forall a: nat, b: nat :: Picked(raw, before, k, a, b)
    ensures forall a: nat, b: nat :: Picked(raw, after, k, a, b)
  {
    forall a: nat, b: nat
      ensures Picked(raw, after, k, a, b)
    {
      OneMorePicked(raw, before, after, k, j, i, a, b);
    }
  }

  lemma {:induction false} OneMorePicked(raw: seq<real>, before: seq<real>, after: seq<real>, k: nat, j: nat, i: nat,
          a: nat, b: nat)
    requires i < k && |before| == Times(j, k) + i && Times(j, k + 1) + 1 + i < |raw|
    requires after == before + [raw[Times(j, k + 1) + 1 + i]]
    requires Picked(raw, before, k, a, b)
    ensures Picked(raw, after, k, a, b)
  {
    if b < k && Times(a, k) + b == Times(j, k) + i {
      Decode(a, b, k);
      Decode(j, i, k);
    }
  }

  // ---- The iterations of each range ----

  /** Every k-th element from i on. */
  function Slice(s: seq<real>, i: nat, k: nat): seq<real>
    requires k > 0
    decreases |s| - i
  {
    if i >= |s| then [] else [s[i]] + Slice(s, i + k, k)
  }

  lemma {:induction false} SliceAt(s: seq<real>, i: nat, k: nat, c: nat)
    requires k > 0
    ensures c < |Slice(s, i, k)| <==> i + Times(c, k) < |s|
    ensures c < |Slice(s, i, k)| ==> Slice(s, i, k)[c] == s[i + Times(c, k)]
    decreases c
  {
    if c > 0 {
      if i < |s| {
        SliceAt(s, i + k, k, c - 1);
      } else {
        SliceAt(s, i, k, c - 1);
      }
    }
  }

  ghost predicate IsLeast(x: real, s: seq<real>, lo: nat, hi: nat) {
    && hi <= |s|
    && (exists t: nat :: lo <= t < hi && s[t] == x)
    && forall t: nat :: lo <= t < hi ==> x <= s[t]
  }

  /** The least of the c-th elements of all slices, if each has one. */
  method Least(slices: seq<seq<real>>, c: nat) returns (x: real)
    requires |slices| > 0 && forall i :: 0 <= i < |slices| ==> c < |slices[i]|
    ensures exists i :: 0 <= i < |slices| && slices[i][c] == x
    ensures forall i :: 0 <= i < |slices| ==> x <= slices[i][c]
  {
    x := slices[0][c];
    for i := 1 to |slices|
      invariant exists t :: 0 <= t < i && slices[t][c] == x
      invariant forall t :: 0 <= t < i ==> x <= slices[t][c]
    {
      if slices[i][c] < x {
        x := slices[i][c];
      }
    }
  }

  /** Some slice is used up. */
  predicate Exhausted(slices: seq<seq<real>>, c: nat) {
    exists i :: 0 <= i < |slices| && c >= |slices[i]|
  }

  ghost predicate AreSlices(slices: seq<seq<real>>, s: seq<real>, k: nat) {
    k > 0 && |slices| == k && forall i :: 0 <= i < k ==> slices[i] == Slice(s, i, k)
  }

  method Slices(s: seq<real>, k: nat) returns (slices: seq<seq<real>>)
    requires k > 0
    ensures AreSlices(slices, s, k)
  {
    slices := [];
    for i := 0 to k
      invariant |slices| == i && forall a :: 0 <= a < i ==> slices[a] == Slice(s, a, k)
    {
      slices := slices + [Slice(s, i, k)];
    }
  }

  /** The last slice is the first to be used up. */
  lemma {:induction false} ExhaustedIff(slices: seq<seq<real>>, s: seq<real>, k: nat, c: nat)
    requires AreSlices(slices, s, k)
    ensures Exhausted(slices, c) <==> Times(c + 1, k) > |s|
  {
    SliceAt(s, k - 1, k, c);
    if Exhausted(slices, c) {
      var i :| 0 <= i < k && c >= |slices[i]|;
      SliceAt(s, i, k, c);
    } else {
      assert c < |slices[k - 1]|;
    }
  }

  /** The plotted value of each range: the least of its measured samples. */
  method FinalLatencies(raw: seq<real>, k: nat) returns (final: seq<real>)
    ensures |final| == if k == 0 then 0 else Quot(|raw|, k + 1)
    ensures forall j: nat :: j < |final| ==> LeastOfGroup(final[j], raw, j, k)
  {
    var filtered := Filter(raw, k);
    final := [];
    if k == 0 {
      return;
    }
    var slices := Slices(filtered, k);
    while !Exhausted(slices, |final|)
      invariant |final| <= Quot(|raw|, k + 1)
      invariant forall j: nat :: j < |final| ==> LeastOfGroup(final[j], raw, j, k)
      decreases Quot(|raw|, k + 1) - |final|
    {
      var x := NextLatency(slices, |final|, raw, filtered, k);
      final := final + [x];
    }
    ExhaustedIff(slices, filtered, k, |final|);
    GroupFits(raw, filtered, k, |final|);
  }

  /** The least sample of the next range. */
  method NextLatency(slices: seq<seq<real>>, j: nat, ghost raw: seq<real>, ghost filtered: seq<real>, ghost k: nat)
    returns (x: real)
    requires k > 0 && IsFiltered(raw, filtered, k) && AreSlices(slices, filtered, k) && !Exhausted(slices, j)
    ensures j < Quot(|raw|, k + 1) && LeastOfGroup(x, raw, j, k)
  {
    ExhaustedIff(slices, filtered, k, j);
    GroupFits(raw, filtered, k, j);
    x := Least(slices, j);
    ghost var i :| 0 <= i < k && slices[i][j] == x;
    GroupLeast(raw, filtered, slices, k, j, x, i);
  }

  ghost predicate LeastOfGroup(x: real, raw: seq<real>, j: nat, k: nat) {
    IsLeast(x, raw, Times(j, k + 1) + 1, Times(j, k + 1) + 1 + k)
  }

  /** There are as many groups of filtered samples as of raw ones. */
  lemma {:induction false} GroupFits(raw: seq<real>, filtered: seq<real>, k: nat, j: nat)
    requires k > 0 && IsFiltered(raw, filtered, k)
    ensures Times(j + 1, k) <= |filtered| <==> j < Quot(|raw|, k + 1)
  {
    var q := Quot(|raw|, k + 1);
    if j < q {
      TimesMonotone(j + 1, q, k);
    } else {
      TimesMonotone(q + 1, j + 1, k);
    }
  }

  lemma {:induction false} GroupLeast(raw: seq<real>, filtered: seq<real>, slices: seq<seq<real>>, k: nat, j: nat,
          x: real, i0: nat)
    requires k > 0 && IsFiltered(raw, filtered, k) && AreSlices(slices, filtered, k)
    requires Times(j + 1, k) <= |filtered| && i0 < k
    requires forall i :: 0 <= i < k ==> j < |slices[i]|
    requires slices[i0][j] == x && forall i :: 0 <= i < k ==> x <= slices[i][j]
    ensures LeastOfGroup(x, raw, j, k)
  {
    var lo := Times(j, k + 1) + 1;
    SampleIs(raw, filtered, slices, k, j, i0);
    SampleIs(raw, filtered, slices, k, j, k - 1);
    assert raw[lo + i0] == x;
    forall t: nat | lo <= t < lo + k
      ensures x <= raw[t]
    {
      SampleIs(raw, filtered, slices, k, j, t - lo);
      assert x <= slices[t - lo][j];
    }
  }

  lemma {:induction false} SampleIs(raw: seq<real>, filtered: seq<real>, slices: seq<seq<real>>, k: nat, j: nat, i: nat)
    requires k > 0 && IsFiltered(raw, filtered, k) && AreSlices(slices, filtered, k)
    requires Times(j + 1, k) <= |filtered| && i < k && j < |slices[i]|
    ensures Times(j, k + 1) + 1 + i < |raw| && slices[i][j] == raw[Times(j, k + 1) + 1 + i]
  {
    SliceAt(filtered, i, k, j);
    assert Picked(raw, filtered, k, j, i);
  }

  /** With one sample per state, the plot has one value per range, and it is the
      least over exactly the states that measured that range. */
  lemma {:induction false} PlotMatchesSweep(states: seq<State>, raw: seq<real>, final: seq<real>, n: nat, k: nat,
          j: nat, t: nat)
    requires k > 0 && |raw| == |states| == Times(n, k + 1)
    requires forall j: nat, i: nat :: j < n && i <= k ==> StateAt(states, j, i, k)
    requires |final| == Quot(|raw|, k + 1) && forall j: nat :: j < |final| ==> LeastOfGroup(final[j], raw, j, k)
    ensures |final| == n
    ensures j < n && t < |states| ==>
      (states[t] == State(j, false) <==> Times(j, k + 1) + 1 <= t < Times(j, k + 1) + 1 + k)
    ensures j < n && t < |states| && states[t] == State(j, false) ==> final[j] <= raw[t]
  {
    Decode(n, 0, k + 1);
    if j < n && t < |states| {
      var q, r := Quot(t, k + 1), Rem(t, k + 1);
      Encode(t, k + 1);
      QuotBound(t, n, k + 1);
      assert StateAt(states, q, r, k);
      if Times(j, k + 1) + 1 <= t < Times(j, k + 1) + 1 + k {
        Decode(j, t - Times(j, k + 1), k + 1);
      }
      assert LeastOfGroup(final[j], raw, j, k);
    }
  }
}
