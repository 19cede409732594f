/** The cheapest-path matrix of a mesh in closed form. */
module MeshDistance {
  import opened Grid
  import opened Mesh
  import opened Topology
  import opened ShortestPaths
  import opened LinkFacts

  // ---- Weighted distance on the grid ----

  function Toll(s: Scheme, d: Direction, hops: nat): nat {
    if Weight(s, d) == 1 then hops else 2 * hops
  }

  function Horizontal(s: Scheme, from: nat, to: nat): nat {
    if from <= to then Toll(s, East, to - from) else Toll(s, West, from - to)
  }

  function Vertical(s: Scheme, from: nat, to: nat): nat {
    if from <= to then Toll(s, North, to - from) else Toll(s, South, from - to)
  }

  /** Total weight of a direct journey from router a to router b. */
  function MeshCost(s: Scheme, g: Shape, a: nat, b: nat): nat
    requires g.cols > 0
  {
    Horizontal(s, Col(g, a), Col(g, b)) + Vertical(s, Row(g, a), Row(g, b))
  }

  /** A step in direction d from a comes nearer to b. */
  predicate Productive(g: Shape, a: nat, b: nat, d: Direction)
    requires g.cols > 0
  {
    match d
    case East => Col(g, a) < Col(g, b)
    case West => Col(g, a) > Col(g, b)
    case North => Row(g, a) < Row(g, b)
    case South => Row(g, a) > Row(g, b)
  }

  lemma {:induction false} ProductiveHasStep(g: Shape, a: nat, b: nat, d: Direction)
    requires IsRouter(g, a) && IsRouter(g, b) && Productive(g, a, b, d)
    ensures HasStep(g, a, d)
  {
    CoordinatesInverse(g, b);
  }

  /** A productive step costs exactly what it saves; any other adds its way back. */
  lemma {:induction false} StepCost(s: Scheme, g: Shape, a: nat, b: nat, d: Direction)
    requires IsRouter(g, a) && IsRouter(g, b) && HasStep(g, a, d)
    ensures Step(g, a, d) >= 0 && IsRouter(g, Step(g, a, d))
    ensures Productive(g, a, b, d) ==> MeshCost(s, g, a, b) == Weight(s, d) + MeshCost(s, g, Step(g, a, d), b)
    ensures !Productive(g, a, b, d) ==>
      MeshCost(s, g, Step(g, a, d), b) == MeshCost(s, g, a, b) + Weight(s, Opposite(d))
  {
    StepMoves(g, a, d);
  }

  lemma {:induction false} SamePlace(s: Scheme, g: Shape, a: nat, b: nat)
    requires IsRouter(g, a) && IsRouter(g, b)
    ensures a == b <==> MeshCost(s, g, a, b) == 0
    ensures a == b <==> forall d :: !Productive(g, a, b, d)
  {
    CoordinatesInverse(g, a);
    CoordinatesInverse(g, b);
    if forall d :: !Productive(g, a, b, d) {
      assert !Productive(g, a, b, East) && !Productive(g, a, b, West);
      assert !Productive(g, a, b, North) && !Productive(g, a, b, South);
    }
  }

  // ---- Lower bound: a potential towards one controller ----

  function Capped(c: int): int {
    if c < INFINITE_LATENCY then c else INFINITE_LATENCY
  }

  /** A lower bound for the distance from switch i to the exit of controller e.node. */
  ghost function Height(s: Scheme, g: Shape, n: nat, e: ExtLink, i: nat): (h: int)
    requires g.cols > 0
    ensures 0 <= h <= INFINITE_LATENCY
  {
    if i < n || i == n + e.node then 0
    else if i < 2 * n || !IsRouter(g, i - 2 * n) then INFINITE_LATENCY
    else Capped(MeshCost(s, g, i - 2 * n, e.router) + EXT_WEIGHT)
  }

  lemma {:induction false} HeightOverStep(s: Scheme, g: Shape, n: nat, e: ExtLink, k: (nat, nat), w: LinkEntry,
          a: nat, d: Direction)
    requires IsStepKey(s, g, n, k, w, a, d) && IsRouter(g, e.router) && e.node < n
    ensures Height(s, g, n, e, k.0) <= w.weight + Height(s, g, n, e, k.1)
  {
    StepCost(s, g, a, e.router, d);
  }

  lemma {:induction false} HeightOverExit(s: Scheme, g: Shape, n: nat, e: ExtLink, k: (nat, nat), w: LinkEntry,
          l: ExtLink)
    requires IsExtEntry(n, k, w, l) && IsRouter(g, l.router) && e.node < n && l.node < n
    requires l.node == e.node ==> l.router == e.router
    ensures Height(s, g, n, e, k.0) <= w.weight + Height(s, g, n, e, k.1)
  {
    SamePlace(s, g, l.router, l.router);
  }

  lemma {:induction false} HeightOverLink(s: Scheme, g: Shape, ext: seq<ExtLink>, ints: seq<IntLink>, e: ExtLink,
          k: (nat, nat))
    requires MeshNet(s, g, ext, ints) && e in ext && k in LinksOf(ext, ints)
    ensures Height(s, g, |ext|, e, k.0) <= LinksOf(ext, ints)[k].weight + Height(s, g, |ext|, e, k.1)
  {
    var isStep, a, d, l := MeshKeys(s, g, ext, ints, k);
    if isStep {
      HeightOverStep(s, g, |ext|, e, k, LinksOf(ext, ints)[k], a, d);
    } else {
      HeightOverExit(s, g, |ext|, e, k, LinksOf(ext, ints)[k], l);
    }
  }

  ghost function Heights(s: Scheme, g: Shape, n: nat, e: ExtLink, size: nat): seq<int>
    requires g.cols > 0
  {
    seq(size, i requires 0 <= i => Height(s, g, n, e, i))
  }

  lemma {:induction false} HeightsArePotential(s: Scheme, g: Shape, ext: seq<ExtLink>, ints: seq<IntLink>, e: ExtLink,
          size: nat)
    requires MeshNet(s, g, ext, ints) && e in ext
    ensures Potential(Weights(LinksOf(ext, ints), size), Heights(s, g, |ext|, e, size))
  {
    var links := LinksOf(ext, ints);
    var (w, h) := (Weights(links, size), Heights(s, g, |ext|, e, size));
    forall i: nat, j: nat | i < size && j < size
      ensures h[i] <= w[i][j] + h[j]
    {
      assert w[i][j] == WeightAt(links, i, j);
      if (i, j) in links {
        HeightOverLink(s, g, ext, ints, e, (i, j));
      }
    }
  }

  /** A mesh together with the matrix computed for it. */
  ghost predicate Solved(s: Scheme, g: Shape, ext: seq<ExtLink>, ints: seq<IntLink>, size: nat, dist: Matrix) {
    && MeshNet(s, g, ext, ints)
    && IsSize(LinksOf(ext, ints), size)
    && CheapestWalks(Weights(LinksOf(ext, ints), size), dist)
  }

  lemma {:induction false} DistanceAtLeastHeight(s: Scheme, g: Shape, ext: seq<ExtLink>, ints: seq<IntLink>,
          size: nat, dist: Matrix, e: ExtLink, i: nat)
    requires Solved(s, g, ext, ints, size, dist) && e in ext
    requires i < size && |ext| + e.node < size
    ensures dist[i][|ext| + e.node] >= Height(s, g, |ext|, e, i)
  {
    var (w, t) := (Weights(LinksOf(ext, ints), size), |ext| + e.node);
    assert HasWalk(w, i, t, dist[i][t]);
    var p :| IsWalk(w, p, i, t) && Cost(w, p) == dist[i][t];
    HeightsArePotential(s, g, ext, ints, e, size);
    PotentialBoundsWalks(w, Heights(s, g, |ext|, e, size), p, t);
  }

  // ---- Upper bound ----

  /** Every router of the mesh and every controller has its switch id in the matrix. */
  lemma {:induction false} InMatrix(s: Scheme, g: Shape, ext: seq<ExtLink>, ints: seq<IntLink>, size: nat)
    requires MeshNet(s, g, ext, ints) && IsSize(LinksOf(ext, ints), size)
    ensures forall a :: 0 <= a && IsRouter(g, a) ==> 2 * |ext| + a < size
    ensures 2 * |ext| <= size
  {
    forall a: nat | IsRouter(g, a)
      ensures 2 * |ext| + a < size
    {
      if d :| HasStep(g, a, d) {
        StepMoves(g, a, d);
        MeshStep(s, g, ext, ints, a, d, (2 * |ext| + a, 2 * |ext| + Step(g, a, d)));
      } else {
        OneRouter(g, a);
        OneRouter(g, ext[0].router);
        MeshExt(s, g, ext, ints, ext[0], (ext[0].node, 2 * |ext| + ext[0].router));
      }
    }
    assert IsRouter(g, 0) by {
      TimesMonotone(1, g.rows, g.cols);
    }
  }

  /** A router without neighbours is the only router. */
  lemma {:induction false} OneRouter(g: Shape, a: nat)
    requires IsRouter(g, a)
    requires exists b: nat :: IsRouter(g, b) && forall d :: !HasStep(g, b, d)
    ensures a == 0
  {
    var b: nat :| IsRouter(g, b) && forall d :: !HasStep(g, b, d);
    CoordinatesInverse(g, a);
    CoordinatesInverse(g, b);
    assert !HasStep(g, b, East) && !HasStep(g, b, West) && !HasStep(g, b, North) && !HasStep(g, b, South);
    assert g.rows == 1 && g.cols == 1;
  }

  lemma {:induction false} DistanceOverStep(s: Scheme, g: Shape, ext: seq<ExtLink>, ints: seq<IntLink>, size: nat,
          dist: Matrix, a: nat, d: Direction, t: nat)
    requires Solved(s, g, ext, ints, size, dist) && IsRouter(g, a) && HasStep(g, a, d)
    requires Step(g, a, d) >= 0 && 2 * |ext| + a < size && 2 * |ext| + Step(g, a, d) < size && t < size
    ensures dist[2 * |ext| + a][t] <= Weight(s, d) + dist[2 * |ext| + Step(g, a, d)][t]
  {
    var (i, j) := (2 * |ext| + a, 2 * |ext| + Step(g, a, d));
    var w := Weights(LinksOf(ext, ints), size);
    MeshStep(s, g, ext, ints, a, d, (i, j));
    CheapestIsBelowWeights(w, dist, i, j);
    CheapestIsClosed(w, dist, i, j, t);
  }

  lemma {:induction false} DistanceAtExit(s: Scheme, g: Shape, ext: seq<ExtLink>, ints: seq<IntLink>, size: nat,
          dist: Matrix, e: ExtLink)
    requires Solved(s, g, ext, ints, size, dist) && e in ext
    requires 2 * |ext| + e.router < size && |ext| + e.node < size
    ensures dist[2 * |ext| + e.router][|ext| + e.node] <= EXT_WEIGHT
  {
    var k := (2 * |ext| + e.router, |ext| + e.node);
    MeshExt(s, g, ext, ints, e, k);
    CheapestIsBelowWeights(Weights(LinksOf(ext, ints), size), dist, k.0, k.1);
  }

  lemma {:induction false} DistanceAtMostCost(s: Scheme, g: Shape, ext: seq<ExtLink>, ints: seq<IntLink>, size: nat,
          dist: Matrix, e: ExtLink, a: nat)
    requires Solved(s, g, ext, ints, size, dist) && e in ext && IsRouter(g, a)
    requires 2 * |ext| + a < size && |ext| + e.node < size
    ensures dist[2 * |ext| + a][|ext| + e.node] <= MeshCost(s, g, a, e.router) + EXT_WEIGHT
    decreases MeshCost(s, g, a, e.router)
  {
    SamePlace(s, g, a, e.router);
    if a == e.router {
      DistanceAtExit(s, g, ext, ints, size, dist, e);
    } else {
      var d :| Productive(g, a, e.router, d);
      ProductiveHasStep(g, a, e.router, d);
      StepCost(s, g, a, e.router, d);
      InMatrix(s, g, ext, ints, size);
      DistanceOverStep(s, g, ext, ints, size, dist, a, d, |ext| + e.node);
      DistanceAtMostCost(s, g, ext, ints, size, dist, e, Step(g, a, d));
    }
  }

  lemma {:induction false} DistanceAtMostInfinite(s: Scheme, g: Shape, ext: seq<ExtLink>, ints: seq<IntLink>,
          size: nat, dist: Matrix, i: nat, j: nat)
    requires Solved(s, g, ext, ints, size, dist) && i < size && j < size
    ensures dist[i][j] <= INFINITE_LATENCY
  {
    var links := LinksOf(ext, ints);
    CheapestIsBelowWeights(Weights(links, size), dist, i, j);
    if (i, j) in links {
      var isStep, a, d, l := MeshKeys(s, g, ext, ints, (i, j));
    }
  }

  /** From a router to the exit of a controller: the grid distance plus the
      external link, but never more than the constant for "no link". */
  lemma {:induction false} RouterDistance(s: Scheme, g: Shape, ext: seq<ExtLink>, ints: seq<IntLink>, size: nat,
          dist: Matrix, e: ExtLink, a: nat)
    requires Solved(s, g, ext, ints, size, dist) && e in ext && IsRouter(g, a)
    ensures 2 * |ext| + a < size && |ext| + e.node < size
    ensures dist[2 * |ext| + a][|ext| + e.node] == Capped(MeshCost(s, g, a, e.router) + EXT_WEIGHT)
  {
    var n := |ext|;
    InMatrix(s, g, ext, ints, size);
    DistanceAtLeastHeight(s, g, ext, ints, size, dist, e, 2 * n + a);
    DistanceAtMostCost(s, g, ext, ints, size, dist, e, a);
    DistanceAtMostInfinite(s, g, ext, ints, size, dist, 2 * n + a, n + e.node);
  }

  /** The exit of one controller does not lead to another. */
  lemma {:induction false} ExitDistance(s: Scheme, g: Shape, ext: seq<ExtLink>, ints: seq<IntLink>, size: nat,
          dist: Matrix, e: ExtLink, x: nat)
    requires Solved(s, g, ext, ints, size, dist) && e in ext && x < |ext|
    ensures |ext| + x < size && |ext| + e.node < size
    ensures dist[|ext| + x][|ext| + e.node] >= if x == e.node then 0 else INFINITE_LATENCY
    ensures x == e.node ==> dist[|ext| + x][|ext| + e.node] == 0
  {
    InMatrix(s, g, ext, ints, size);
    DistanceAtLeastHeight(s, g, ext, ints, size, dist, e, |ext| + x);
    if x == e.node {
      var (w, t) := (Weights(LinksOf(ext, ints), size), |ext| + x);
      assert IsWalk(w, [t], t, t) && Cost(w, [t]) == 0;
    }
  }
}
