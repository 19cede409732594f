/** From the command-line options to the routing tables of a running mesh. */
module MeshNetwork {
  import opened Results
  import opened Grid
  import opened Mesh
  import opened MeshBuild
  import opened Topology
  import opened ShortestPaths
  import opened LinkFacts
  import opened MeshDistance
  import opened RoutingUnit
  import opened MeshRouting
  import opened MeshDeadlock

  /** Controllers are numbered 0, 1, ... without repetition. */
  ghost predicate Numbering(nodes: seq<Controller>) {
    && (forall i :: 0 <= i < |nodes| ==> nodes[i].nodeId < |nodes|)
    && (forall i, j :: 0 <= i < j < |nodes| ==> nodes[i].nodeId != nodes[j].nodeId)
  }

  /** What makeTopology builds, with no link removed, is a mesh in the sense of
      the routing theory. */
  lemma {:induction false} BuiltIsMeshNet(s: Scheme, nodes: seq<Controller>, g: Shape, net: Network)
    requires Numbering(nodes) && |nodes| > 1 && IsMesh(s, nodes, g, {}, net)
    ensures MeshNet(s, g, net.extLinks, net.intLinks)
  {
    NothingRemovedIsFull(s, nodes, g, net);
    FullLinksAreNeighbours(s, g, |nodes|);
    TimesIsProduct(g.rows, g.cols);
  }

  /** The int links start and end at routers. */
  lemma {:induction false} LinkEndsAreRouters(s: Scheme, g: Shape, ints: seq<IntLink>, l: IntLink)
    requires NeighbourLinks(s, g, ints) && l in ints
    ensures l.src != l.dst && l.weight > 0
    ensures l.src < g.rows * g.cols && l.dst < g.rows * g.cols
  {
    TimesIsProduct(g.rows, g.cols);
    assert Stepping(s, g, l);
    var d :| StepLink(s, g, l, d);
    StepMoves(g, l.src, d);
  }

  /** The link map of a mesh meets what CreateLinks asks for. */
  lemma {:induction false} MeshLinksAreUsable(s: Scheme, g: Shape, ext: seq<ExtLink>, ints: seq<IntLink>)
    requires MeshNet(s, g, ext, ints)
    ensures LinksOf(ext, ints) != map[]
    ensures forall k :: k in LinksOf(ext, ints) ==> k.0 != k.1 && LinksOf(ext, ints)[k].weight >= 0
    ensures exists k :: k in LinksOf(ext, ints) && 2 * |ext| <= k.0
  {
    var e := ext[0];
    MeshExt(s, g, ext, ints, e, (2 * |ext| + e.router, |ext| + e.node));
    forall k | k in LinksOf(ext, ints)
      ensures k.0 != k.1 && LinksOf(ext, ints)[k].weight >= 0
    {
      var isStep, a, d, l := MeshKeys(s, g, ext, ints, k);
      if isStep {
        StepMoves(g, a, d);
      }
    }
  }

  /** The tables hold, for every router, the ports of a solved mesh. */
  ghost predicate AreMeshTables(s: Scheme, g: Shape, ext: seq<ExtLink>, ints: seq<IntLink>, dist: Matrix,
          tables: seq<seq<OutPort>>)
  {
    && Solved(s, g, ext, ints, 2 * |ext| + |tables|, dist)
    && forall a :: 0 <= a < |tables| ==> tables[a] == TableOf(ext, ints, 2 * |ext| + |tables|, dist, a)
  }

  /** Topology construction and createLinks for a mesh. */
  method BuildTables(ghost s: Scheme, ghost g: Shape, routers: nat, ext: seq<ExtLink>, ints: seq<IntLink>)
    returns (tables: seq<seq<OutPort>>, ghost dist: Matrix)
    requires MeshNet(s, g, ext, ints) && routers == g.rows * g.cols
    ensures AreMeshTables(s, g, ext, ints, dist, tables)
    ensures exists m: Matrix :: AreMeshTables(s, g, ext, ints, m, tables)
  {
    TimesIsProduct(g.rows, g.cols);
    forall l | l in ints
      ensures l.src < routers && l.dst < routers
    {
      LinkEndsAreRouters(s, g, ints, l);
    }
    MeshLinksAreUsable(s, g, ext, ints);
    var topology := new Topology(routers, ext, ints);
    ghost var size;
    tables, size, dist := topology.CreateLinks();
  }

  /** Builds the links, the weight matrix and the routing tables of a mesh.  The
      tables are those of a solved mesh, so everything proved about those holds. */
  method InitNetwork(s: Scheme, nodes: seq<Controller>, numCpus: int, meshRows: int, routerLatency: nat)
    returns (r: Result<seq<seq<OutPort>>, BuildError>, ghost ext: seq<ExtLink>, ghost ints: seq<IntLink>,
          ghost dist: Matrix)
    requires Numbering(nodes) && |nodes| > 1
    ensures r.Err? ==> Refusal(nodes, numCpus, meshRows) == Some(r.error)
    ensures r.Ok? ==>
      && Refusal(nodes, numCpus, meshRows) == None
      && |ext| == |nodes| && Placed(nodes, numCpus, ext)
      && AreMeshTables(s, Shape(meshRows, numCpus / meshRows), ext, ints, dist, r.value)
    ensures r.Ok? ==> exists e: seq<ExtLink>, l: seq<IntLink>, m: Matrix ::
      AreMeshTables(s, Shape(meshRows, numCpus / meshRows), e, l, m, r.value)
  {
    ext, ints, dist := [], [], [];
    var built;
    match s {
      case XY => built := MakeMeshXY(nodes, numCpus, meshRows, routerLatency, {});
      case WestFirst => built := MakeMeshWestFirst(nodes, numCpus, meshRows, routerLatency);
    }
    if built.Err? {
      return Err(built.error), ext, ints, dist;
    }
    var net := built.value;
    ghost var g := Shape(meshRows, numCpus / meshRows);
    BuiltIsMeshNet(s, nodes, g, net);
    ext, ints := net.extLinks, net.intLinks;
    var tables;
    tables, dist := BuildTables(s, g, numCpus, net.extLinks, net.intLinks);
    r := Ok(tables);
  }

  // ---- The table and the direction-based XY algorithm agree ----

  /** In a Mesh_XY network the table lookup leaves by the port that
      outportComputeXY names. */
  lemma {:induction false} TableAgreesWithXY(g: Shape, ext: seq<ExtLink>, ints: seq<IntLink>, size: nat, dist: Matrix,
          e: ExtLink, a: nat, k: nat)
    requires Solved(XY, g, ext, ints, size, dist) && e in ext && IsRouter(g, a) && a != e.router
    requires 2 * |ext| + a < size && IsChoice(TableOf(ext, ints, size, dist, a), {e.node}, k)
    ensures TableOf(ext, ints, size, dist, a)[k].direction == Named(XYDirection(g, a, e.router))
  {
    var p := TableOf(ext, ints, size, dist, a)[k];
    ChoiceFollowsRule(XY, g, ext, ints, size, dist, e, a, k);
    var isStep, d, l := PortMeaning(XY, g, ext, ints, size, dist, e, a, p);
    var f :| Allowed(XY, g, a, e.router, f) && p.next == 2 * |ext| + Step(g, a, f);
    ProductiveHasStep(g, a, e.router, f);
    StepMoves(g, a, f);
    XYRule(g, a, e.router, f);
    if isStep && d != f {
      StepsDiffer(g, a, d, f);
    }
  }

  /** The port a packet comes in by at the end of a channel into a router. */
  function InportOf(c: Channel): Port
    requires !c.Leave?
  {
    match c
    case Inject(_) => Local
    case Hop(_, d) => PortOf(XY, Opposite(d))
  }

  lemma {:induction false} XYTurns(g: Shape, b: nat, d: Direction, dest: nat)
    requires IsRouter(g, b) && IsRouter(g, dest) && Allowed(XY, g, b, dest, d) && Step(g, b, d) != dest
    ensures HasStep(g, b, d) && Step(g, b, d) >= 0
    ensures InportAllowed(XYDirection(g, Step(g, b, d), dest), Named(Opposite(d)))
  {
    ProductiveHasStep(g, b, dest, d);
    StepMoves(g, b, d);
    var f := XYDirection(g, Step(g, b, d), dest);
    XYRule(g, Step(g, b, d), dest, f);
    assert Weight(XY, d) == 2 ==> !Productive(g, b, dest, East) && !Productive(g, b, dest, West);
  }

  /** The assertions in outportComputeXY never fail for a packet on its route. */
  lemma {:induction false} XYAssertionsHold(net: Net, dest: ExtLink, c: Channel)
    requires ValidNet(net) && net.s.XY? && dest in net.ext && OnRoute(net, dest, c) && End(net, c) != dest.router
    ensures !c.Leave? && InportAllowed(XYDirection(net.g, End(net, c), dest.router), InportOf(c))
  {
    if c.Hop? {
      XYTurns(net.g, c.router, c.dir, dest.router);
    }
  }

  // ---- Reach ----

  /** The largest weighted distance between two routers: corner to corner. */
  function MaxCost(s: Scheme, g: Shape): nat
    requires g.rows > 0 && g.cols > 0
  {
    Toll(s, East, g.cols - 1) + Toll(s, North, g.rows - 1)
  }

  lemma {:induction false} CostAtMostMax(s: Scheme, g: Shape, a: nat, b: nat)
    requires IsRouter(g, a) && IsRouter(g, b)
    ensures g.rows > 0 && MeshCost(s, g, a, b) <= MaxCost(s, g)
  {
    CoordinatesInverse(g, a);
    CoordinatesInverse(g, b);
  }

  /** The lookup at router a finds an output for controller e. */
  ghost predicate Finds(ext: seq<ExtLink>, ints: seq<IntLink>, size: nat, dist: Matrix, a: nat, e: ExtLink) {
    && 2 * |ext| + a < size && |dist| == size && Square(dist)
    && exists k :: IsChoice(TableOf(ext, ints, size, dist, a), {e.node}, k)
  }

  /** The lookups of all routers find outputs for all controllers. */
  ghost predicate AllFound(g: Shape, ext: seq<ExtLink>, ints: seq<IntLink>, size: nat, dist: Matrix) {
    forall a: nat, e :: IsRouter(g, a) && e in ext ==> Finds(ext, ints, size, dist, a, e)
  }

  ghost predicate Carries(ext: seq<ExtLink>, a: nat) {
    exists e :: e in ext && e.router == a
  }

  lemma {:induction false} FindsIff(s: Scheme, g: Shape, ext: seq<ExtLink>, ints: seq<IntLink>, size: nat, dist: Matrix,
                                    a: nat, e: ExtLink)
    requires Solved(s, g, ext, ints, size, dist) && IsRouter(g, a) && e in ext
    ensures IsRouter(g, e.router)
    ensures Finds(ext, ints, size, dist, a, e) <==> MeshCost(s, g, a, e.router) + EXT_WEIGHT <= INFINITE_LATENCY
  {
    InMatrix(s, g, ext, ints, size);
    RouteFoundIff(s, g, ext, ints, size, dist, e, a);
  }

  lemma {:induction false} CornersNeedMost(s: Scheme, g: Shape)
    requires g.rows > 0 && g.cols > 0
    ensures var a, b := At(g, 0, 0), At(g, g.rows - 1, g.cols - 1);
            IsRouter(g, a) && IsRouter(g, b) && MeshCost(s, g, a, b) == MaxCost(s, g)
  {
    Coordinates(g, 0, 0);
    Coordinates(g, g.rows - 1, g.cols - 1);
  }

  /** Every router of a mesh whose routers all carry a controller finds every
      controller exactly when the corner-to-corner weight, plus the external link,
      is at most 10000. */
  lemma {:induction false} AllRoutedIff(s: Scheme, g: Shape, ext: seq<ExtLink>, ints: seq<IntLink>, size: nat,
          dist: Matrix)
    requires Solved(s, g, ext, ints, size, dist) && g.rows > 0 && g.cols > 0
    requires forall a: nat :: IsRouter(g, a) ==> Carries(ext, a)
    ensures AllFound(g, ext, ints, size, dist) <==> MaxCost(s, g) + EXT_WEIGHT <= INFINITE_LATENCY
  {
    CornersNeedMost(s, g);
    var a, b := At(g, 0, 0), At(g, g.rows - 1, g.cols - 1);
    assert Carries(ext, b);
    var far :| far in ext && far.router == b;
    FindsIff(s, g, ext, ints, size, dist, a, far);
    if MaxCost(s, g) + EXT_WEIGHT <= INFINITE_LATENCY {
      forall a: nat, e | IsRouter(g, a) && e in ext
        ensures Finds(ext, ints, size, dist, a, e)
      {
        FindsIff(s, g, ext, ints, size, dist, a, e);
        CostAtMostMax(s, g, a, e.router);
      }
    }
  }

  /** With at least as many controllers as routers, every router of a built mesh
      carries one. */
  lemma {:induction false} BuiltCarries(nodes: seq<Controller>, routers: nat, ext: seq<ExtLink>, a: nat)
    requires 0 < routers <= |nodes| == |ext| && Placed(nodes, routers, ext) && a < routers
    ensures Carries(ext, a)
  {
    Encode(|nodes|, routers);
    TimesMonotone(1, Quot(|nodes|, routers), routers);
    assert ext[a].router == HomeRouter(|nodes|, routers, a) == a;
  }

  /** The limit is real: in every network over a single row of 10001 routers the
      lookup at one end finds no output for a controller at the other. */
  lemma {:induction false} LongRowIsNotRouted(s: Scheme, ext: seq<ExtLink>, ints: seq<IntLink>, size: nat,
          dist: Matrix, e: ExtLink)
    requires Solved(s, Shape(1, 10001), ext, ints, size, dist) && e in ext && e.router == 10000
    ensures !Finds(ext, ints, size, dist, 0, e)
  {
    var g := Shape(1, 10001);
    CornersNeedMost(s, g);
    assert At(g, 0, 0) == 0 && At(g, 0, 10000) == 10000;
    FindsIff(s, g, ext, ints, size, dist, 0, e);
  }
}
