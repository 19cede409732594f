/** What the routing tables of a mesh make a router do. */
module MeshRouting {
  import opened Grid
  import opened Mesh
  import opened Topology
  import opened ShortestPaths
  import opened LinkFacts
  import opened MeshDistance
  import opened RoutingUnit

  /** The routing table of router a. */
  ghost function TableOf(ext: seq<ExtLink>, ints: seq<IntLink>, size: nat, dist: Matrix, a: nat): seq<OutPort>
    requires 2 * |ext| + a < size && |dist| == size && Square(dist)
  {
    var links := LinksOf(ext, ints);
    Ports(links, Weights(links, size), dist, |ext|, 2 * |ext| + a, size)
  }

  // ---- The route rule in closed form ----

  /** Direction d is productive towards router b, and no productive direction weighs less. */
  ghost predicate Allowed(s: Scheme, g: Shape, a: nat, b: nat, d: Direction)
    requires g.cols > 0
  {
    && Productive(g, a, b, d)
    && forall f :: Productive(g, a, b, f) ==> Weight(s, d) <= Weight(s, f)
  }

  /** Switch j is where a packet for controller e may go next from router a. */
  ghost predicate MeshNext(s: Scheme, g: Shape, n: nat, a: nat, e: ExtLink, j: nat)
    requires IsRouter(g, a) && IsRouter(g, e.router)
  {
    if a == e.router then j == n + e.node
    else exists d :: Allowed(s, g, a, e.router, d) && j == 2 * n + Step(g, a, d)
  }

  /** The largest weighted distance the tables can express. */
  ghost predicate WithinReach(s: Scheme, g: Shape, a: nat, e: ExtLink)
    requires g.cols > 0
  {
    MeshCost(s, g, a, e.router) + EXT_WEIGHT <= INFINITE_LATENCY
  }

  // ---- Table entries ----

  lemma {:induction false} StepOffers(s: Scheme, g: Shape, ext: seq<ExtLink>, ints: seq<IntLink>, size: nat,
          dist: Matrix, e: ExtLink, a: nat, d: Direction)
    requires Solved(s, g, ext, ints, size, dist) && e in ext && IsRouter(g, a) && HasStep(g, a, d)
    ensures Step(g, a, d) >= 0 && 2 * |ext| + a < size && 2 * |ext| + Step(g, a, d) < size && |ext| + e.node < size
    ensures StartsCheapest(Weights(LinksOf(ext, ints), size), dist, |ext|,
                           2 * |ext| + a, 2 * |ext| + Step(g, a, d), e.node)
       <==> WithinReach(s, g, a, e) && Productive(g, a, e.router, d)
  {
    StepCost(s, g, a, e.router, d);
    var b: nat := Step(g, a, d);
    RouterDistance(s, g, ext, ints, size, dist, e, a);
    RouterDistance(s, g, ext, ints, size, dist, e, b);
    MeshStep(s, g, ext, ints, a, d, (2 * |ext| + a, 2 * |ext| + b));
    var w := Weights(LinksOf(ext, ints), size);
    assert w[2 * |ext| + a][2 * |ext| + b] == Weight(s, d);
  }

  lemma {:induction false} ExitOffers(s: Scheme, g: Shape, ext: seq<ExtLink>, ints: seq<IntLink>, size: nat,
          dist: Matrix, e: ExtLink, l: ExtLink)
    requires Solved(s, g, ext, ints, size, dist) && e in ext && l in ext
    ensures 2 * |ext| + l.router < size && |ext| + l.node < size && |ext| + e.node < size
    ensures StartsCheapest(Weights(LinksOf(ext, ints), size), dist, |ext|, 2 * |ext| + l.router, |ext| + l.node, e.node)
       <==> l.node == e.node
  {
    RouterDistance(s, g, ext, ints, size, dist, e, l.router);
    ExitDistance(s, g, ext, ints, size, dist, e, l.node);
    MeshExt(s, g, ext, ints, l, (2 * |ext| + l.router, |ext| + l.node));
    var w := Weights(LinksOf(ext, ints), size);
    assert w[2 * |ext| + l.router][|ext| + l.node] == EXT_WEIGHT;
    SamePlace(s, g, l.router, l.router);
  }

  /** The ports of a switch are its links, in order of the switch they lead to. */
  lemma {:induction false} PortsAt(links: LinkMap, w: Matrix, dist: Matrix, n: nat, i: nat, k: nat, p: OutPort)
    requires Square(w) && Square(dist) && |dist| == |w| && i < |w| && k <= |w| && 2 * n <= |w|
    ensures p in Ports(links, w, dist, n, i, k) <==>
      && p.next < k && IsPort(w, i, p.next)
      && p == OutPort(p.next, DirectionOf(links, n, i, p.next), w[i][p.next], Destinations(w, dist, n, i, p.next))
  {
    if k > 0 {
      PortsAt(links, w, dist, n, i, k - 1, p);
    }
  }

  /** A step port of router a, as the tables hold it. */
  ghost predicate IsStepPort(s: Scheme, g: Shape, n: nat, a: nat, d: Direction, p: OutPort)
    requires IsRouter(g, a)
  {
    HasStep(g, a, d) && p.next == 2 * n + Step(g, a, d) && p.weight == Weight(s, d) && p.direction == PortOf(s, d)
  }

  /** The exit port of router a for controller l. */
  ghost predicate IsExitPort(n: nat, a: nat, l: ExtLink, p: OutPort) {
    l.router == a && p.next == n + l.node && p.weight == EXT_WEIGHT && p.direction == Local
  }

  /** What a port of router a is. */
  lemma {:induction false} PortKind(s: Scheme, g: Shape, ext: seq<ExtLink>, ints: seq<IntLink>, size: nat,
          dist: Matrix, a: nat, p: OutPort)
    returns (isStep: bool, d: Direction, l: ExtLink)
    requires Solved(s, g, ext, ints, size, dist) && IsRouter(g, a)
    requires 2 * |ext| + a < size && p in TableOf(ext, ints, size, dist, a)
    ensures isStep ==> IsStepPort(s, g, |ext|, a, d, p)
    ensures !isStep ==> l in ext && IsExitPort(|ext|, a, l, p)
    ensures p.next < size
    ensures p.dests == Destinations(Weights(LinksOf(ext, ints), size), dist, |ext|, 2 * |ext| + a, p.next)
  {
    var (n, links) := (|ext|, LinksOf(ext, ints));
    var w := Weights(links, size);
    PortsAt(links, w, dist, n, 2 * n + a, size, p);
    var k := (2 * n + a, p.next);
    assert w[k.0][k.1] == WeightAt(links, k.0, k.1);
    var b;
    isStep, b, d, l := MeshKeys(s, g, ext, ints, k);
  }

  /** What a port of router a is, and whether it offers controller e. */
  lemma {:induction false} PortMeaning(s: Scheme, g: Shape, ext: seq<ExtLink>, ints: seq<IntLink>, size: nat,
          dist: Matrix, e: ExtLink, a: nat, p: OutPort)
    returns (isStep: bool, d: Direction, l: ExtLink)
    requires Solved(s, g, ext, ints, size, dist) && e in ext && IsRouter(g, a)
    requires 2 * |ext| + a < size && p in TableOf(ext, ints, size, dist, a)
    ensures isStep ==> IsStepPort(s, g, |ext|, a, d, p)
    ensures isStep ==> (e.node in p.dests <==> WithinReach(s, g, a, e) && Productive(g, a, e.router, d))
    ensures !isStep ==> l in ext && IsExitPort(|ext|, a, l, p) && (e.node in p.dests <==> l.node == e.node)
  {
    InMatrix(s, g, ext, ints, size);
    isStep, d, l := PortKind(s, g, ext, ints, size, dist, a, p);
    if isStep {
      StepOffers(s, g, ext, ints, size, dist, e, a, d);
    } else {
      ExitOffers(s, g, ext, ints, size, dist, e, l);
    }
  }

  lemma {:induction false} PortInTable(s: Scheme, g: Shape, ext: seq<ExtLink>, ints: seq<IntLink>, size: nat,
          dist: Matrix, a: nat, j: nat)
    returns (p: OutPort)
    requires Solved(s, g, ext, ints, size, dist)
    requires 2 * |ext| + a < size && j < size && (2 * |ext| + a, j) in LinksOf(ext, ints)
    requires 0 < LinksOf(ext, ints)[(2 * |ext| + a, j)].weight < INFINITE_LATENCY
    ensures p in TableOf(ext, ints, size, dist, a)
    ensures p.next == j
  {
    var (n, links) := (|ext|, LinksOf(ext, ints));
    var w := Weights(links, size);
    InMatrix(s, g, ext, ints, size);
    var i := 2 * n + a;
    assert w[i][j] == WeightAt(links, i, j);
    p := OutPort(j, DirectionOf(links, n, i, j), w[i][j], Destinations(w, dist, n, i, j));
    PortsAt(links, w, dist, n, i, size, p);
  }

  /** Every step of the grid has its port. */
  lemma {:induction false} StepPort(s: Scheme, g: Shape, ext: seq<ExtLink>, ints: seq<IntLink>, size: nat,
          dist: Matrix, e: ExtLink, a: nat, d: Direction)
    returns (p: OutPort)
    requires Solved(s, g, ext, ints, size, dist) && e in ext && IsRouter(g, a) && HasStep(g, a, d)
    requires 2 * |ext| + a < size
    ensures p in TableOf(ext, ints, size, dist, a) && IsStepPort(s, g, |ext|, a, d, p)
    ensures e.node in p.dests <==> WithinReach(s, g, a, e) && Productive(g, a, e.router, d)
  {
    StepOffers(s, g, ext, ints, size, dist, e, a, d);
    var j := 2 * |ext| + Step(g, a, d);
    MeshStep(s, g, ext, ints, a, d, (2 * |ext| + a, j));
    p := PortInTable(s, g, ext, ints, size, dist, a, j);
    var isStep, f, l := PortMeaning(s, g, ext, ints, size, dist, e, a, p);
    StepMoves(g, a, d);
    if f != d && isStep {
      StepsDiffer(g, a, d, f);
    }
  }

  /** Every controller has its exit port at its router. */
  lemma {:induction false} ExitPort(s: Scheme, g: Shape, ext: seq<ExtLink>, ints: seq<IntLink>, size: nat,
          dist: Matrix, e: ExtLink)
    returns (p: OutPort)
    requires Solved(s, g, ext, ints, size, dist) && e in ext
    requires 2 * |ext| + e.router < size
    ensures p in TableOf(ext, ints, size, dist, e.router) && IsExitPort(|ext|, e.router, e, p)
    ensures e.node in p.dests
  {
    ExitOffers(s, g, ext, ints, size, dist, e, e);
    MeshExt(s, g, ext, ints, e, (2 * |ext| + e.router, |ext| + e.node));
    p := PortInTable(s, g, ext, ints, size, dist, e.router, |ext| + e.node);
    var isStep, f, l := PortMeaning(s, g, ext, ints, size, dist, e, e.router, p);
    if isStep {
      StepMoves(g, e.router, f);
    }
  }

  // ---- What a lookup can return ----

  lemma {:induction false} OffersOne(p: OutPort, d: nat)
    ensures Offers(p, {d}) <==> d in p.dests
  {
    if d in p.dests {
      assert d in p.dests * {d};
    }
  }

  lemma {:induction false} SomeAllowed(s: Scheme, g: Shape, a: nat, b: nat) returns (d: Direction)
    requires IsRouter(g, a) && IsRouter(g, b) && a != b
    ensures Allowed(s, g, a, b, d)
  {
    SamePlace(s, g, a, b);
    if f :| Productive(g, a, b, f) && Weight(s, f) == 1 {
      d := f;
    } else {
      d :| Productive(g, a, b, d);
    }
  }

  /** Whatever a router's lookup returns for a controller follows the route rule. */
  lemma {:induction false} ChoiceFollowsRule(s: Scheme, g: Shape, ext: seq<ExtLink>, ints: seq<IntLink>, size: nat,
          dist: Matrix, e: ExtLink, a: nat, k: nat)
    requires Solved(s, g, ext, ints, size, dist) && e in ext && IsRouter(g, a)
    requires 2 * |ext| + a < size && IsChoice(TableOf(ext, ints, size, dist, a), {e.node}, k)
    ensures WithinReach(s, g, a, e)
    ensures MeshNext(s, g, |ext|, a, e, TableOf(ext, ints, size, dist, a)[k].next)
  {
    var table := TableOf(ext, ints, size, dist, a);
    var p := table[k];
    OffersOne(p, e.node);
    var isStep, d, l := PortMeaning(s, g, ext, ints, size, dist, e, a, p);
    SamePlace(s, g, a, e.router);
    if isStep {
      forall f | Productive(g, a, e.router, f)
        ensures Weight(s, d) <= Weight(s, f)
      {
        ProductiveHasStep(g, a, e.router, f);
        var q := StepPort(s, g, ext, ints, size, dist, e, a, f);
        OffersOne(q, e.node);
      }
      assert Allowed(s, g, a, e.router, d);
    }
  }

  /** Everything the route rule permits can be returned by the lookup. */
  lemma {:induction false} RuleIsChoosable(s: Scheme, g: Shape, ext: seq<ExtLink>, ints: seq<IntLink>, size: nat,
          dist: Matrix, e: ExtLink, a: nat, j: nat)
    returns (k: nat)
    requires Solved(s, g, ext, ints, size, dist) && e in ext && IsRouter(g, a)
    requires 2 * |ext| + a < size && WithinReach(s, g, a, e) && MeshNext(s, g, |ext|, a, e, j)
    ensures IsChoice(TableOf(ext, ints, size, dist, a), {e.node}, k)
    ensures TableOf(ext, ints, size, dist, a)[k].next == j
  {
    var table := TableOf(ext, ints, size, dist, a);
    var p;
    if a == e.router {
      p := ExitPort(s, g, ext, ints, size, dist, e);
    } else {
      var d :| Allowed(s, g, a, e.router, d) && j == 2 * |ext| + Step(g, a, d);
      ProductiveHasStep(g, a, e.router, d);
      p := StepPort(s, g, ext, ints, size, dist, e, a, d);
    }
    k :| 0 <= k < |table| && table[k] == p;
    OffersOne(p, e.node);
    SamePlace(s, g, a, e.router);
    forall i | 0 <= i < |table| && Offers(table[i], {e.node})
      ensures p.weight <= table[i].weight
    {
      OffersOne(table[i], e.node);
      var isStep, f, l := PortMeaning(s, g, ext, ints, size, dist, e, a, table[i]);
    }
  }

  /** A route is found exactly when the weighted distance, external link
      included, does not exceed the constant that stands for "no link". */
  lemma {:induction false} RouteFoundIff(s: Scheme, g: Shape, ext: seq<ExtLink>, ints: seq<IntLink>, size: nat,
          dist: Matrix, e: ExtLink, a: nat)
    requires Solved(s, g, ext, ints, size, dist) && e in ext && IsRouter(g, a) && 2 * |ext| + a < size
    ensures (exists k :: IsChoice(TableOf(ext, ints, size, dist, a), {e.node}, k)) <==> WithinReach(s, g, a, e)
  {
    if k :| IsChoice(TableOf(ext, ints, size, dist, a), {e.node}, k) {
      ChoiceFollowsRule(s, g, ext, ints, size, dist, e, a, k);
    }
    if WithinReach(s, g, a, e) {
      var j: nat := |ext| + e.node;
      if a != e.router {
        var d := SomeAllowed(s, g, a, e.router);
        ProductiveHasStep(g, a, e.router, d);
        StepMoves(g, a, d);
        j := 2 * |ext| + Step(g, a, d);
      }
      assert MeshNext(s, g, |ext|, a, e, j);
      var k := RuleIsChoosable(s, g, ext, ints, size, dist, e, a, j);
    }
  }

  // ---- The rule for each topology ----

  /** With Mesh_XY weights a packet changes rows only in its destination's column. */
  lemma {:induction false} XYColumnsFirst(g: Shape, a: nat, b: nat, d: Direction)
    requires IsRouter(g, a) && IsRouter(g, b) && Allowed(XY, g, a, b, d)
    ensures Productive(g, a, b, d) && (d.North? || d.South? ==> Col(g, a) == Col(g, b))
  {
    assert Productive(g, a, b, East) ==> Weight(XY, East) == 1;
    assert Productive(g, a, b, West) ==> Weight(XY, West) == 1;
  }

  /** With Mesh_XY weights the rule is exactly the XY algorithm. */
  lemma {:induction false} XYRule(g: Shape, a: nat, b: nat, d: Direction)
    requires IsRouter(g, a) && IsRouter(g, b)
    ensures Allowed(XY, g, a, b, d) <==> a != b && d == XYDirection(g, a, b)
  {
    SamePlace(XY, g, a, b);
    QuotIsDivision(a, g.cols);
    QuotIsDivision(b, g.cols);
    assert Productive(g, a, b, East) ==> Weight(XY, East) == 1;
    assert Productive(g, a, b, West) ==> Weight(XY, West) == 1;
  }

  /** With Mesh_westfirst weights a packet goes west while it must, and then in
      any productive direction. */
  lemma {:induction false} WestFirstRule(g: Shape, a: nat, b: nat, d: Direction)
    requires IsRouter(g, a) && IsRouter(g, b)
    ensures Allowed(WestFirst, g, a, b, d) <==> Productive(g, a, b, d) && (Productive(g, a, b, West) ==> d == West)
  {
  }
}
