/** makeTopology of Mesh_XY and Mesh_westfirst: argument checks, routers,
    controller placement and link emission. */
module MeshBuild {
  import opened Results
  import opened Grid
  import opened Mesh

  // ---- Placing controllers ----

  /** The router the i-th of n controllers is attached to: round robin, with the
      controllers left over by the division all on router 0. */
  function HomeRouter(n: nat, routers: nat, i: nat): nat
    requires routers > 0
  {
    if i < n - Rem(n, routers) then Rem(i, routers) else 0
  }

  ghost predicate RemainderIsDma(nodes: seq<Controller>, routers: nat)
    requires routers > 0
  {
    forall i :: |nodes| - Rem(|nodes|, routers) <= i < |nodes| ==> nodes[i].isDma
  }

  ghost predicate Placed(nodes: seq<Controller>, routers: nat, links: seq<ExtLink>)
    requires routers > 0
  {
    && |links| <= |nodes|
    && forall i :: 0 <= i < |links| ==> links[i] == ExtLink(i, nodes[i].nodeId, HomeRouter(|nodes|, routers, i))
  }

  /** The level of a uniformly distributed controller is below the number of levels. */
  lemma {:induction false} LevelBound(i: nat, n: nat, m: nat)
    requires m > 0 && i < n - Rem(n, m)
    ensures Quot(i, m) < Quot(n, m)
  {
    Encode(n, m);
    QuotBound(i, Quot(n, m), m);
  }

  /** All but the last `remainder` controllers, and those. */
  method SplitNodes(nodes: seq<Controller>, remainder: nat)
    returns (networkNodes: seq<Controller>, remainderNodes: seq<Controller>)
    requires remainder <= |nodes|
    ensures networkNodes == nodes[..|nodes| - remainder]
    ensures remainderNodes == nodes[|nodes| - remainder..]
  {
    networkNodes, remainderNodes := [], [];
    for i := 0 to |nodes|
      invariant networkNodes + remainderNodes == nodes[..i]
      invariant |networkNodes| == if i < |nodes| - remainder then i else |nodes| - remainder
    {
      if i < |nodes| - remainder {
        networkNodes := networkNodes + [nodes[i]];
      } else {
        remainderNodes := remainderNodes + [nodes[i]];
      }
    }
    assert networkNodes + remainderNodes == nodes;
  }

  lemma {:induction false} PlaceOne(nodes: seq<Controller>, routers: nat, links: seq<ExtLink>)
    requires routers > 0 && Placed(nodes, routers, links) && |links| < |nodes|
    ensures Placed(nodes, routers,
      links + [ExtLink(|links|, nodes[|links|].nodeId, HomeRouter(|nodes|, routers, |links|))])
  {
  }

  method ConnectControllers(nodes: seq<Controller>, routers: nat) returns (r: Result<seq<ExtLink>, BuildError>)
    requires routers > 0
    ensures r.Ok? <==> RemainderIsDma(nodes, routers)
    ensures r.Ok? ==> |r.value| == |nodes| && Placed(nodes, routers, r.value)
    ensures r.Err? ==> r.error == RemainderNotDma
  {
    var perRouter, remainder := |nodes| / routers, |nodes| % routers;
    QuotIsDivision(|nodes|, routers);
    var networkNodes, remainderNodes := SplitNodes(nodes, remainder);
    var links := [];
    for i := 0 to |networkNodes|
      invariant |links| == i && Placed(nodes, routers, links)
    {
      var level, routerId := i / routers, i % routers;
      QuotIsDivision(i, routers);
      LevelBound(i, |nodes|, routers);
      assert level < perRouter;
      PlaceOne(nodes, routers, links);
      links := links + [ExtLink(|links|, networkNodes[i].nodeId, routerId)];
    }
    for i := 0 to |remainderNodes|
      invariant |links| == |networkNodes| + i && Placed(nodes, routers, links)
      invariant forall j :: |networkNodes| <= j < |networkNodes| + i ==> nodes[j].isDma
    {
      assert remainderNodes[i] == nodes[|networkNodes| + i];
      if !remainderNodes[i].isDma {
        return Err(RemainderNotDma);
      }
      PlaceOne(nodes, routers, links);
      links := links + [ExtLink(|links|, remainderNodes[i].nodeId, 0)];
    }
    return Ok(links);
  }

  ghost function Attached(links: seq<ExtLink>, router: nat): nat {
    if links == [] then 0
    else Attached(links[..|links| - 1], router) + (if links[|links| - 1].router == router then 1 else 0)
  }

  lemma {:induction false} CountingUp(k: nat, m: nat)
    requires m > 0
    ensures Rem(k, m) + 1 < m ==> Quot(k + 1, m) == Quot(k, m) && Rem(k + 1, m) == Rem(k, m) + 1
    ensures Rem(k, m) + 1 >= m ==> Quot(k + 1, m) == Quot(k, m) + 1 && Rem(k + 1, m) == 0
    ensures Rem(k, m) < m
  {
    if k >= m {
      CountingUp(k - m, m);
    }
  }

  /** Among the first k uniformly distributed controllers, router j has one per
      full round and one more if the current round has passed it. */
  lemma {:induction false} AttachedInRounds(nodes: seq<Controller>, routers: nat, links: seq<ExtLink>, j: nat)
    requires routers > 0 && j < routers && Placed(nodes, routers, links)
    requires |links| <= |nodes| - Rem(|nodes|, routers)
    ensures Attached(links, j) == Quot(|links|, routers) + (if j < Rem(|links|, routers) then 1 else 0)
  {
    if links != [] {
      var k := |links| - 1;
      AttachedInRounds(nodes, routers, links[..k], j);
      CountingUp(k, routers);
    }
  }

  lemma {:induction false} AttachedRemainder(nodes: seq<Controller>, routers: nat, links: seq<ExtLink>, j: nat)
    requires routers > 0 && j < routers && Placed(nodes, routers, links)
    requires |nodes| - Rem(|nodes|, routers) <= |links|
    ensures Attached(links, j)
         == Quot(|nodes|, routers) + (if j == 0 then |links| - (|nodes| - Rem(|nodes|, routers)) else 0)
  {
    var whole := |nodes| - Rem(|nodes|, routers);
    if |links| == whole {
      AttachedInRounds(nodes, routers, links, j);
      Encode(|nodes|, routers);
      Decode(Quot(|nodes|, routers), 0, routers);
    } else {
      AttachedRemainder(nodes, routers, links[..|links| - 1], j);
    }
  }

  /** Every router gets the same number of controllers, except that router 0
      also gets the remainder. */
  lemma {:induction false} ControllerDistribution(nodes: seq<Controller>, routers: nat, links: seq<ExtLink>, j: nat)
    requires routers > 0 && j < routers && Placed(nodes, routers, links) && |links| == |nodes|
    ensures Attached(links, j) == |nodes| / routers + (if j == 0 then |nodes| % routers else 0)
  {
    AttachedRemainder(nodes, routers, links, j);
    QuotIsDivision(|nodes|, routers);
    Encode(|nodes|, routers);
  }

  // ---- makeTopology ----

  /** The checks that refuse the options, in the order they are made. */
  ghost function Refusal(nodes: seq<Controller>, numCpus: int, meshRows: int): Option<BuildError> {
    if numCpus == 0 then Some(DivisionByZero)
    else if !(0 < meshRows <= numCpus) then Some(RowsOutOfRange)
    else if (numCpus / meshRows) * meshRows != numCpus then Some(NotRectangular)
    else if !RemainderIsDma(nodes, numCpus) then Some(RemainderNotDma)
    else None
  }

  ghost predicate IsMesh(s: Scheme, nodes: seq<Controller>, g: Shape, removed: set<int>, net: Network) {
    && g.rows > 0 && g.cols > 0
    && |net.routers| == g.rows * g.cols
    && (forall i :: 0 <= i < |net.routers| ==> net.routers[i].routerId == i)
    && |net.extLinks| == |nodes| && Placed(nodes, g.rows * g.cols, net.extLinks)
    && net.intLinks == Kept(FullLinks(s, g, |nodes|), removed)
  }

  ghost predicate Builds(s: Scheme, nodes: seq<Controller>, numCpus: int, meshRows: int, removed: set<int>,
                         r: Result<Network, BuildError>) {
    match Refusal(nodes, numCpus, meshRows)
    case Some(e) => r == Err(e)
    case None => r.Ok? && IsMesh(s, nodes, Shape(meshRows, numCpus / meshRows), removed, r.value)
  }

  /** Each direction's block starts where the one before it ends. */
  lemma {:induction false} Offsets(g: Shape)
    ensures Offset(g, East) == 0
    ensures Offset(g, West) == Offset(g, East) + BlockSize(g, East)
    ensures Offset(g, North) == Offset(g, West) + BlockSize(g, West)
    ensures Offset(g, South) == Offset(g, North) + BlockSize(g, North)
  {
  }

  /** The loops for one direction, given the links before it. */
  method EmitDirection(s: Scheme, g: Shape, d: Direction, base: int, removed: set<int>, count: int,
          before: seq<IntLink>, ghost full: seq<IntLink>)
    returns (links: seq<IntLink>, linkCount: int)
    requires count == base + Offset(g, d) && before == Kept(full, removed)
    ensures links == Kept(full + DirLinks(s, g, d, base), removed)
    ensures linkCount == base + Offset(g, d) + BlockSize(g, d)
  {
    KeptOfConcat(full, DirLinks(s, g, d, base), removed);
    var block;
    block, linkCount := EmitBlock(s, g, d, count, removed);
    links := before + block;
  }

  /** The four pairs of nested loops, one per direction. */
  method EmitAll(s: Scheme, g: Shape, base: int, removed: set<int>) returns (links: seq<IntLink>)
    ensures links == Kept(FullLinks(s, g, base), removed)
  {
    Offsets(g);
    ghost var east, west, north := DirLinks(s, g, East, base), DirLinks(s, g, West, base), DirLinks(s, g, North, base);
    assert [] + east == east;
    var n;
    links, n := EmitDirection(s, g, East, base, removed, base, [], []);
    links, n := EmitDirection(s, g, West, base, removed, n, links, east);
    links, n := EmitDirection(s, g, North, base, removed, n, links, east + west);
    links, n := EmitDirection(s, g, South, base, removed, n, links, east + west + north);
  }

  /** Routers 12 to 15 host memory and get their own latency. */
  method MakeRouters(count: nat, routerLatency: nat) returns (routers: seq<Router>)
    ensures |routers| == count
    ensures forall i :: 0 <= i < count ==> routers[i] == Router(i, if 12 <= i <= 15 then 3 else routerLatency)
  {
    routers := [];
    for i := 0 to count
      invariant |routers| == i
      invariant forall k :: 0 <= k < i ==> routers[k] == Router(k, if 12 <= k <= 15 then 3 else routerLatency)
    {
      routers := routers + [Router(i, if i in [12, 13, 14, 15] then 3 else routerLatency)];
    }
  }

  method MakeMeshXY(nodes: seq<Controller>, numCpus: int, meshRows: int, routerLatency: nat, removed: set<int>)
    returns (r: Result<Network, BuildError>)
    ensures Builds(XY, nodes, numCpus, meshRows, removed, r)
    ensures r.Ok? ==> forall i :: 0 <= i < numCpus ==>
      r.value.routers[i].latency == if 12 <= i <= 15 then 3 else routerLatency
  {
    if numCpus == 0 { return Err(DivisionByZero); }
    if !(meshRows > 0 && meshRows <= numCpus) { return Err(RowsOutOfRange); }
    var columns := numCpus / meshRows;
    if columns * meshRows != numCpus { return Err(NotRectangular); }
    var routers := MakeRouters(numCpus, routerLatency);
    var ext := ConnectControllers(nodes, numCpus);
    if ext.Err? { return Err(ext.error); }
    var links := EmitAll(XY, Shape(meshRows, columns), |nodes|, removed);
    return Ok(Network(routers, ext.value, links));
  }

  method MakeMeshWestFirst(nodes: seq<Controller>, numCpus: int, meshRows: int, routerLatency: nat)
    returns (r: Result<Network, BuildError>)
    ensures Builds(WestFirst, nodes, numCpus, meshRows, {}, r)
    ensures r.Ok? ==> forall i :: 0 <= i < numCpus ==> r.value.routers[i].latency == routerLatency
  {
    if numCpus == 0 { return Err(DivisionByZero); }
    if !(meshRows > 0 && meshRows <= numCpus) { return Err(RowsOutOfRange); }
    var columns := numCpus / meshRows;
    if columns * meshRows != numCpus { return Err(NotRectangular); }
    var routers := seq(numCpus, i requires 0 <= i => Router(i, routerLatency));
    var ext := ConnectControllers(nodes, numCpus);
    if ext.Err? { return Err(ext.error); }
    var links := EmitAll(WestFirst, Shape(meshRows, columns), |nodes|, {});
    return Ok(Network(routers, ext.value, links));
  }

  /** A built mesh with nothing removed has exactly the neighbour links. */
  lemma {:induction false} NothingRemovedIsFull(s: Scheme, nodes: seq<Controller>, g: Shape, net: Network)
    requires IsMesh(s, nodes, g, {}, net)
    ensures net.intLinks == FullLinks(s, g, |nodes|)
  {
    NothingRemoved(FullLinks(s, g, |nodes|));
  }
}
