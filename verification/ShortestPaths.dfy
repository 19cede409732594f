/** The all-pairs shortest path computation that turns link weights into
    routing tables (Topology::extend_shortest_path and Topology::shortest_path).
    A weight matrix holds an entry for every ordered pair of switches; a pair
    without a link holds a large constant, so every pair counts as an edge. */
module ShortestPaths {

  type Matrix = seq<seq<int>>

  ghost predicate Square(w: Matrix) {
    forall i :: 0 <= i < |w| ==> |w[i]| == |w|
  }

  /** What the algorithm is started on: non-negative weights, zero diagonal. */
  ghost predicate WeightMatrix(w: Matrix) {
    && Square(w)
    && (forall i :: 0 <= i < |w| ==> w[i][i] == 0)
    && (forall i, j :: 0 <= i < |w| && 0 <= j < |w| ==> w[i][j] >= 0)
  }

  // ---- Walks, the independent meaning of a distance ----

  ghost predicate InRange(w: Matrix, p: seq<nat>) {
    forall k :: 0 <= k < |p| ==> p[k] < |w|
  }

  ghost function Cost(w: Matrix, p: seq<nat>): int
    requires Square(w) && InRange(w, p)
  {
    if |p| <= 1 then 0 else w[p[0]][p[1]] + Cost(w, p[1..])
  }

  ghost predicate IsWalk(w: Matrix, p: seq<nat>, i: nat, j: nat) {
    |p| > 0 && InRange(w, p) && p[0] == i && p[|p| - 1] == j
  }

  ghost predicate HasWalk(w: Matrix, i: nat, j: nat, c: int)
    requires Square(w)
  {
    exists p :: IsWalk(w, p, i, j) && Cost(w, p) == c
  }

  /** d[i][j] is the cost of some walk from i to j, and of a cheapest one. */
  ghost predicate CheapestWalks(w: Matrix, d: Matrix)
    requires Square(w)
  {
    && Square(d) && |d| == |w|
    && (forall i: nat, j: nat {:trigger HasWalk(w, i, j, d[i][j])} :: i < |w| && j < |w| ==> HasWalk(w, i, j, d[i][j]))
    && (forall p: seq<nat>, i: nat, j: nat {:trigger IsWalk(w, p, i, j)} ::
          IsWalk(w, p, i, j) ==> d[i][j] <= Cost(w, p))
  }

  ghost predicate Triangle(d: Matrix, i: nat, k: nat, j: nat)
    requires Square(d) && i < |d| && k < |d| && j < |d|
  {
    d[i][j] <= d[i][k] + d[k][j]
  }

  ghost predicate ClosedAt(d: Matrix, i: nat, j: nat)
    requires Square(d) && i < |d| && j < |d|
  {
    forall k: nat :: k < |d| ==> Triangle(d, i, k, j)
  }

  ghost predicate Closed(d: Matrix)
    requires Square(d)
  {
    forall i: nat, j: nat :: i < |d| && j < |d| ==> ClosedAt(d, i, j)
  }

  /** What every step of the algorithm keeps. */
  ghost predicate Sound(w: Matrix, d: Matrix)
    requires Square(w)
  {
    && Square(d) && |d| == |w|
    && (forall i, j :: 0 <= i < |w| && 0 <= j < |w| ==> 0 <= d[i][j] <= w[i][j])
    && (forall i: nat, j: nat {:trigger HasWalk(w, i, j, d[i][j])} :: i < |w| && j < |w| ==> HasWalk(w, i, j, d[i][j]))
  }

  lemma {:induction false} CostOfJoin(w: Matrix, p: seq<nat>, q: seq<nat>)
    requires Square(w) && InRange(w, p) && InRange(w, q)
    requires |p| > 0 && |q| > 0 && p[|p| - 1] == q[0]
    ensures InRange(w, p + q[1..])
    ensures Cost(w, p + q[1..]) == Cost(w, p) + Cost(w, q)
  {
    if |p| == 1 {
      assert p + q[1..] == q;
    } else {
      CostOfJoin(w, p[1..], q);
      assert (p + q[1..])[1..] == p[1..] + q[1..];
    }
  }

  lemma {:induction false} JoinWalks(w: Matrix, i: nat, k: nat, j: nat, a: int, b: int)
    requires Square(w) && HasWalk(w, i, k, a) && HasWalk(w, k, j, b)
    ensures HasWalk(w, i, j, a + b)
  {
    var p :| IsWalk(w, p, i, k) && Cost(w, p) == a;
    var q :| IsWalk(w, q, k, j) && Cost(w, q) == b;
    CostOfJoin(w, p, q);
    assert IsWalk(w, p + q[1..], i, j);
  }

  lemma {:induction false} SoundInitially(w: Matrix)
    requires WeightMatrix(w)
    ensures Sound(w, w)
  {
    forall i: nat, j: nat | i < |w| && j < |w|
      ensures HasWalk(w, i, j, w[i][j])
    {
      var p := [i, j];
      assert p[1..] == [j];
      assert IsWalk(w, p, i, j) && Cost(w, p) == w[i][j];
    }
  }

  /** A triangle-closed matrix below the weights is below every walk. */
  lemma {:induction false} ClosedIsBelowWalks(w: Matrix, d: Matrix, p: seq<nat>, i: nat, j: nat)
    requires WeightMatrix(w) && Sound(w, d) && Closed(d)
    requires IsWalk(w, p, i, j)
    ensures d[i][j] <= Cost(w, p)
    decreases |p|
  {
    if |p| > 1 {
      ClosedIsBelowWalks(w, d, p[1..], p[1], j);
      assert ClosedAt(d, i, j);
      assert Triangle(d, i, p[1], j);
    }
  }

  lemma {:induction false} ClosedIsCheapest(w: Matrix, d: Matrix)
    requires WeightMatrix(w) && Sound(w, d) && Closed(d)
    ensures CheapestWalks(w, d)
  {
    forall p: seq<nat>, i: nat, j: nat | IsWalk(w, p, i, j)
      ensures d[i][j] <= Cost(w, p)
    {
      ClosedIsBelowWalks(w, d, p, i, j);
    }
  }

  /** Cheapest-walk costs obey the triangle inequality. */
  lemma {:induction false} CheapestIsClosed(w: Matrix, d: Matrix, i: nat, k: nat, j: nat)
    requires Square(w) && CheapestWalks(w, d)
    requires i < |w| && k < |w| && j < |w|
    ensures d[i][j] <= d[i][k] + d[k][j]
  {
    JoinWalks(w, i, k, j, d[i][k], d[k][j]);
  }

  /** Cheapest-walk costs are below the edge weights. */
  lemma {:induction false} CheapestIsBelowWeights(w: Matrix, d: Matrix, i: nat, j: nat)
    requires Square(w) && CheapestWalks(w, d)
    requires i < |w| && j < |w|
    ensures d[i][j] <= w[i][j]
  {
    var p := [i, j];
    assert p[1..] == [j];
    assert IsWalk(w, p, i, j);
    assert Cost(w, p) == w[i][j];
  }

  /** A potential that drops by no more than an edge's weight along that edge. */
  ghost predicate Potential(w: Matrix, h: seq<int>)
    requires Square(w)
  {
    |h| == |w| && forall i: nat, j: nat {:trigger w[i][j]} :: i < |w| && j < |w| ==> h[i] <= w[i][j] + h[j]
  }

  /** A potential bounds every walk's cost from below. */
  lemma {:induction false} PotentialBoundsWalks(w: Matrix, h: seq<int>, p: seq<nat>, t: nat)
    requires Square(w) && Potential(w, h)
    requires |p| > 0 && InRange(w, p) && p[|p| - 1] == t
    ensures h[p[0]] - h[t] <= Cost(w, p)
  {
    if |p| > 1 {
      PotentialBoundsWalks(w, h, p[1..], t);
    }
  }

  // ---- The termination measure ----

  ghost function RowSum(r: seq<int>): int {
    if r == [] then 0 else r[0] + RowSum(r[1..])
  }

  ghost function Sum(m: Matrix): int {
    if m == [] then 0 else RowSum(m[0]) + Sum(m[1..])
  }

  lemma {:induction false} RowSumUpdate(r: seq<int>, j: nat, v: int)
    requires j < |r|
    ensures RowSum(r[j := v]) == RowSum(r) - r[j] + v
  {
    if j == 0 {
      assert r[0 := v][1..] == r[1..];
    } else {
      RowSumUpdate(r[1..], j - 1, v);
      assert r[j := v][1..] == r[1..][j - 1 := v];
    }
  }

  lemma {:induction false} SumUpdate(m: Matrix, i: nat, j: nat, v: int)
    requires i < |m| && j < |m[i]|
    ensures Sum(m[i := m[i][j := v]]) == Sum(m) - m[i][j] + v
  {
    RowSumUpdate(m[i], j, v);
    if i == 0 {
      assert m[0 := m[0][j := v]][1..] == m[1..];
    } else {
      SumUpdate(m[1..], i - 1, j, v);
      assert m[i := m[i][j := v]][1..] == m[1..][i - 1 := m[1..][i - 1][j := v]];
    }
  }

  lemma {:induction false} RowSumNonNegative(r: seq<int>)
    requires forall j :: 0 <= j < |r| ==> r[j] >= 0
    ensures RowSum(r) >= 0
  {
    if r != [] {
      RowSumNonNegative(r[1..]);
    }
  }

  lemma {:induction false} SumNonNegative(m: Matrix)
    requires forall i, j :: 0 <= i < |m| && 0 <= j < |m[i]| ==> m[i][j] >= 0
    ensures Sum(m) >= 0
  {
    if m != [] {
      RowSumNonNegative(m[0]);
      forall i, j | 0 <= i < |m[1..]| && 0 <= j < |m[1..][i]|
        ensures m[1..][i][j] >= 0
      {
        assert m[i + 1][j] >= 0;
      }
      SumNonNegative(m[1..]);
    }
  }

  /** Writing a cheaper walk's cost into one cell keeps the matrix sound. */
  lemma {:induction false} SoundUpdate(w: Matrix, d: Matrix, i: nat, j: nat, v: int)
    requires Square(w) && Sound(w, d)
    requires i < |w| && j < |w| && 0 <= v <= d[i][j] && HasWalk(w, i, j, v)
    ensures Sound(w, d[i := d[i][j := v]])
  {
    var e := d[i := d[i][j := v]];
    assert Square(e);
    forall a: nat, b: nat | a < |w| && b < |w|
      ensures 0 <= e[a][b] <= w[a][b] && HasWalk(w, a, b, e[a][b])
    {
      assert HasWalk(w, a, b, d[a][b]);
      assert e[a][b] == if a == i && b == j then v else d[a][b];
    }
  }

  // ---- The algorithm ----

  ghost function View(a: array2<int>): Matrix
    reads a
  {
    seq(a.Length0, i requires 0 <= i < a.Length0 reads a =>
      seq(a.Length1, j requires 0 <= j < a.Length1 reads a => a[i, j]))
  }

  ghost predicate Mirrors(a: array2<int>, m: Matrix)
    reads a
  {
    && Square(m) && a.Length0 == a.Length1 == |m|
    && forall i, j :: 0 <= i < |m| && 0 <= j < |m| ==> a[i, j] == m[i][j]
  }

  lemma {:induction false} MirrorIsView(a: array2<int>, m: Matrix)
    requires Mirrors(a, m)
    ensures View(a) == m
  {
    forall i | 0 <= i < |m|
      ensures View(a)[i] == m[i]
    {
      assert forall j :: 0 <= j < |m| ==> View(a)[i][j] == m[i][j];
    }
  }

  /** No way over one intermediate switch costs less than v. */
  ghost predicate NoDetourBelow(d: Matrix, i: nat, j: nat, v: int)
    requires Square(d) && i < |d| && j < |d|
  {
    forall k: nat :: k < |d| ==> v <= d[i][k] + d[k][j]
  }

  /** The inner loop: the cheapest way from i to j over one intermediate switch.
      `via` is -1 exactly when the cell already holds the minimum. */
  method BestIntermediate(dist: array2<int>, i: nat, j: nat, ghost w: Matrix, ghost m: Matrix)
    returns (minimum: int, via: int)
    requires Square(w) && i < |w| && j < |w|
    requires Sound(w, m) && Mirrors(dist, m)
    ensures 0 <= minimum <= m[i][j] && HasWalk(w, i, j, minimum)
    ensures NoDetourBelow(m, i, j, minimum)
    ensures (via == -1 && minimum == m[i][j]) || (0 <= via < |w| && minimum < m[i][j])
  {
    minimum := dist[i, j];
    assert HasWalk(w, i, j, m[i][j]);
    via := -1;
    for k := 0 to dist.Length0
      invariant 0 <= minimum <= m[i][j] && HasWalk(w, i, j, minimum)
      invariant forall k' :: 0 <= k' < k ==> minimum <= m[i][k'] + m[k'][j]
      invariant (via == -1 && minimum == m[i][j]) || (0 <= via < |w| && minimum < m[i][j])
    {
      if dist[i, k] + dist[k, j] < minimum {
        assert HasWalk(w, i, k, m[i][k]) && HasWalk(w, k, j, m[k][j]);
        JoinWalks(w, i, k, j, m[i][k], m[k][j]);
        minimum := dist[i, k] + dist[k, j];
        via := k;
      }
    }
  }

  /** Relaxes one cell in place. */
  method RelaxCell(dist: array2<int>, i: nat, j: nat, ghost w: Matrix, ghost start: Matrix)
    returns (change: bool, ghost m: Matrix)
    requires Square(w) && i < |w| && j < |w|
    requires Sound(w, start) && Mirrors(dist, start)
    modifies dist
    ensures Sound(w, m) && Mirrors(dist, m)
    ensures NoDetourBelow(start, i, j, m[i][j])
    ensures m == start[i := start[i][j := m[i][j]]]
    ensures if change then Sum(m) < Sum(start) else m == start && ClosedAt(m, i, j)
  {
    m := start;
    assert start[i][j := start[i][j]] == start[i];
    var minimum, via := BestIntermediate(dist, i, j, w, m);
    change := dist[i, j] != minimum;
    if change {
      assert 0 <= via < dist.Length0;
      SumUpdate(m, i, j, minimum);
      SoundUpdate(w, m, i, j, minimum);
      dist[i, j] := minimum;
      m := m[i := m[i][j := minimum]];
    }
  }

  /** One pass over all cells, in place.  A pass that reports no change has
      found every cell triangle-closed; one that reports a change has lowered
      the matrix. */
  method RelaxAll(dist: array2<int>, ghost w: Matrix, ghost start: Matrix) returns (change: bool, ghost m: Matrix)
    requires Square(w) && Sound(w, start) && Mirrors(dist, start)
    modifies dist
    ensures Sound(w, m) && Mirrors(dist, m)
    ensures if change then Sum(m) < Sum(start) else m == start && Closed(m)
  {
    change, m := false, start;
    for i := 0 to dist.Length0
      invariant Sound(w, m) && Mirrors(dist, m)
      invariant if change then Sum(m) < Sum(start) else m == start
      invariant !change ==> forall a: nat, b: nat :: a < i && b < |m| ==> ClosedAt(m, a, b)
    {
      for j := 0 to dist.Length0
        invariant Sound(w, m) && Mirrors(dist, m)
        invariant if change then Sum(m) < Sum(start) else m == start
        invariant !change ==> forall a: nat, b: nat :: a < i && b < |m| ==> ClosedAt(m, a, b)
        invariant !change ==> forall b: nat :: b < j ==> ClosedAt(m, i, b)
      {
        var cell;
        cell, m := RelaxCell(dist, i, j, w, m);
        change := change || cell;
      }
    }
  }

  /** Relaxes every cell in place until a whole pass changes nothing. */
  method ExtendShortestPath(dist: array2<int>)
    requires dist.Length0 == dist.Length1
    requires WeightMatrix(View(dist))
    modifies dist
    ensures CheapestWalks(old(View(dist)), View(dist))
  {
    ghost var w := View(dist);
    ghost var m := w;
    SoundInitially(w);
    var change := true;
    while change
      invariant |w| == dist.Length0 && Sound(w, m) && Mirrors(dist, m)
      invariant !change ==> Closed(m)
      decreases Sum(m) + (if change then 1 else 0)
    {
      SumNonNegative(m);
      change, m := RelaxAll(dist, w, m);
      SumNonNegative(m);
    }
    ClosedIsCheapest(w, m);
    MirrorIsView(dist, m);
  }

  /** Topology::shortest_path: the weights are copied, then relaxed. */
  method ShortestPath(weights: array2<int>, ghost w: Matrix) returns (dist: array2<int>, ghost d: Matrix)
    requires Mirrors(weights, w) && WeightMatrix(w)
    ensures fresh(dist) && Mirrors(dist, d)
    ensures CheapestWalks(w, d)
  {
    var nodes := weights.Length0;
    dist := new int[nodes, nodes]((i, j) requires 0 <= i < nodes && 0 <= j < nodes reads weights => weights[i, j]);
    assert Mirrors(dist, w);
    MirrorIsView(dist, w);
    ExtendShortestPath(dist);
    d := View(dist);
  }
}
