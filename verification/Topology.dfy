/** Class Topology of the Ruby network: the link map, the weight matrix and the
    routing table entries handed to the routers. */
module Topology {
  import opened Mesh
  import opened ShortestPaths

  /** Stands for "no link" in the weight matrix. */
  const INFINITE_LATENCY := 10000

  /** Weight of an external link, which the topology files leave at its default. */
  const EXT_WEIGHT := 1

  datatype LinkEntry = LinkEntry(weight: int, outport: Port, inport: Port)

  type LinkMap = map<(nat, nat), LinkEntry>

  /** One output port of a router: where the link leads, its weight, and the
      destinations for which it starts a cheapest path. */
  datatype OutPort = OutPort(next: nat, direction: Port, weight: int, dests: set<nat>)

  // Switch ids: 0..n-1 are the links into the network, n..2n-1 the links out of
  // it, and router r is 2n+r, for n controllers.

  ghost function AddExt(m: LinkMap, n: nat, l: ExtLink): LinkMap {
    var e := LinkEntry(EXT_WEIGHT, Unnamed, Unnamed);
    m[(l.node, 2 * n + l.router) := e][(2 * n + l.router, n + l.node) := e]
  }

  ghost function AddInt(m: LinkMap, n: nat, l: IntLink): LinkMap {
    m[(2 * n + l.src, 2 * n + l.dst) := LinkEntry(l.weight, l.outport, l.inport)]
  }

  ghost function ExtMap(n: nat, ext: seq<ExtLink>): LinkMap {
    if ext == [] then map[] else AddExt(ExtMap(n, ext[..|ext| - 1]), n, ext[|ext| - 1])
  }

  ghost function IntMap(n: nat, ext: seq<ExtLink>, ints: seq<IntLink>): LinkMap {
    if ints == [] then ExtMap(n, ext) else AddInt(IntMap(n, ext, ints[..|ints| - 1]), n, ints[|ints| - 1])
  }

  /** The link map of a topology with the given links. */
  ghost function LinksOf(ext: seq<ExtLink>, ints: seq<IntLink>): LinkMap {
    IntMap(|ext|, ext, ints)
  }

  function WeightAt(links: LinkMap, i: nat, j: nat): int {
    if (i, j) in links then links[(i, j)].weight
    else if i == j then 0
    else INFINITE_LATENCY
  }

  ghost function Weights(links: LinkMap, size: nat): Matrix {
    seq(size, i requires 0 <= i => seq(size, j requires 0 <= j => WeightAt(links, i, j)))
  }

  /** One more than the largest switch id. */
  ghost predicate IsSize(links: LinkMap, size: nat) {
    && (forall k :: k in links ==> k.0 < size && k.1 < size)
    && (exists k :: k in links && (size == k.0 + 1 || size == k.1 + 1))
  }

  /** The link from i to j starts a cheapest path to the exit of controller d. */
  ghost predicate StartsCheapest(w: Matrix, dist: Matrix, n: nat, i: nat, j: nat, d: nat)
    requires Square(w) && Square(dist) && |dist| == |w| && i < |w| && j < |w| && n + d < |w|
  {
    w[i][j] + dist[j][n + d] == dist[i][n + d]
  }

  /** Destinations for which the link from i to j starts a cheapest path. */
  ghost function Destinations(w: Matrix, dist: Matrix, n: nat, i: nat, j: nat): set<nat>
    requires Square(w) && Square(dist) && |dist| == |w| && i < |w| && j < |w| && 2 * n <= |w|
  {
    set d: nat | d < n && StartsCheapest(w, dist, n, i, j, d)
  }

  ghost predicate IsPort(w: Matrix, i: nat, j: nat)
    requires Square(w) && i < |w| && j < |w|
  {
    w[i][j] > 0 && w[i][j] != INFINITE_LATENCY
  }

  function DirectionOf(links: LinkMap, n: nat, i: nat, j: nat): Port {
    if j < 2 * n then Local else if (i, j) in links then links[(i, j)].outport else Unnamed
  }

  /** The output ports of switch i whose links lead to switches below k. */
  ghost function Ports(links: LinkMap, w: Matrix, dist: Matrix, n: nat, i: nat, k: nat): seq<OutPort>
    requires Square(w) && Square(dist) && |dist| == |w| && i < |w| && k <= |w| && 2 * n <= |w|
  {
    if k == 0 then []
    else
      var before := Ports(links, w, dist, n, i, k - 1);
      if IsPort(w, i, k - 1)
      then before + [OutPort(k - 1, DirectionOf(links, n, i, k - 1), w[i][k - 1], Destinations(w, dist, n, i, k - 1))]
      else before
  }

  /** The routing tables of all routers for some cheapest-path matrix. */
  ghost predicate AreTables(links: LinkMap, n: nat, size: nat, dist: Matrix, tables: seq<seq<OutPort>>) {
    && 2 * n <= size
    && CheapestWalks(Weights(links, size), dist)
    && |tables| == size - 2 * n
    && forall r :: 0 <= r < |tables| ==> tables[r] == Ports(links, Weights(links, size), dist, n, 2 * n + r, size)
  }

  class Topology {
    const nodes: nat
    const routers: nat
    var links: LinkMap

    constructor (routers: nat, ext: seq<ExtLink>, ints: seq<IntLink>)
      requires |ext| > 1
      requires forall l :: l in ext ==> l.node < |ext| && l.router < routers
      requires forall l :: l in ints ==> l.src < routers && l.dst < routers
      ensures this.routers == routers && nodes == |ext|
      ensures links == LinksOf(ext, ints)
    {
      this.routers := routers;
      nodes := |ext|;
      links := map[];
      new;
      for k := 0 to |ext|
        invariant links == ExtMap(nodes, ext[..k])
      {
        var l := ext[k];
        assert ext[..k + 1][..k] == ext[..k];
        var intIdx := l.router + 2 * nodes;
        AddLink(l.node, intIdx, LinkEntry(EXT_WEIGHT, Unnamed, Unnamed));
        AddLink(intIdx, l.node + nodes, LinkEntry(EXT_WEIGHT, Unnamed, Unnamed));
      }
      assert ext[..|ext|] == ext;
      for k := 0 to |ints|
        invariant links == IntMap(nodes, ext, ints[..k])
      {
        var l := ints[k];
        assert ints[..k + 1][..k] == ints[..k];
        AddLink(l.src + 2 * nodes, l.dst + 2 * nodes, LinkEntry(l.weight, l.outport, l.inport));
      }
      assert ints[..|ints|] == ints;
    }

    method AddLink(src: nat, dest: nat, e: LinkEntry)
      requires src <= routers + nodes + nodes && dest <= routers + nodes + nodes
      modifies this`links
      ensures links == old(links)[(src, dest) := e]
    {
      links := links[(src, dest) := e];
    }

    method NumSwitches() returns (size: nat)
      requires links != map[]
      ensures IsSize(links, size)
    {
      var keys := links.Keys;
      var maxId := 0;
      ghost var seen: set<(nat, nat)> := {};
      while keys != {}
        invariant keys + seen == links.Keys
        invariant forall k :: k in seen ==> k.0 <= maxId && k.1 <= maxId
        invariant seen != {} ==> exists k :: k in seen && (maxId == k.0 || maxId == k.1)
        invariant seen == {} ==> maxId == 0
        decreases keys
      {
        var k :| k in keys;
        keys := keys - {k};
        seen := seen + {k};
        if maxId <= k.0 { maxId := k.0; }
        if maxId <= k.1 { maxId := k.1; }
      }
      assert seen == links.Keys;
      size := maxId + 1;
    }

    /** The weight matrix: large everywhere, zero on the diagonal, then the links. */
    method FillWeights(size: nat) returns (w: array2<int>)
      requires IsSize(links, size)
      ensures fresh(w) && w.Length0 == w.Length1 == size
      ensures Mirrors(w, Weights(links, size))
    {
      w := new int[size, size]((i, j) => INFINITE_LATENCY);
      for i := 0 to size
        invariant forall a, b :: 0 <= a < size && 0 <= b < size ==>
          w[a, b] == if a == b && a < i then 0 else INFINITE_LATENCY
      {
        w[i, i] := 0;
      }
      var keys := links.Keys;
      ghost var filled: LinkMap := map[];
      while keys != {}
        invariant keys <= links.Keys
        invariant filled == map k | k in links && k !in keys :: links[k]
        invariant forall a: nat, b: nat :: a < size && b < size ==> w[a, b] == WeightAt(filled, a, b)
        decreases keys
      {
        var k :| k in keys;
        w[k.0, k.1] := links[k].weight;
        keys := keys - {k};
        filled := filled[k := links[k]];
      }
      assert filled == links;
    }

    /** The destination set of one link. */
    method ShortestPathToNode(weights: array2<int>, dist: array2<int>, i: nat, j: nat, ghost w: Matrix, ghost d: Matrix)
      returns (dests: set<nat>)
      requires Mirrors(weights, w) && Mirrors(dist, d) && |d| == |w|
      requires i < |w| && j < |w| && 2 * nodes <= |w|
      ensures dests == Destinations(w, d, nodes, i, j)
    {
      dests := {};
      for k := 0 to nodes
        invariant dests == set e: nat | e < k && StartsCheapest(w, d, nodes, i, j, e)
      {
        if weights[i, j] + dist[j, k + nodes] == dist[i, k + nodes] {
          dests := dests + {k};
        }
      }
    }

    /** The output ports of one switch, in the order its links are made. */
    method MakeLinks(weights: array2<int>, dist: array2<int>, i: nat, ghost w: Matrix, ghost d: Matrix)
      returns (ports: seq<OutPort>)
      requires Mirrors(weights, w) && Mirrors(dist, d) && |d| == |w|
      requires i < |w| && 2 * nodes <= |w|
      ensures ports == Ports(links, w, d, nodes, i, |w|)
    {
      ports := [];
      for j := 0 to weights.Length0
        invariant ports == Ports(links, w, d, nodes, i, j)
      {
        var weight := weights[i, j];
        if weight > 0 && weight != INFINITE_LATENCY {
          var dests := ShortestPathToNode(weights, dist, i, j, w, d);
          ports := ports + [OutPort(j, DirectionOf(links, nodes, i, j), weight, dests)];
        }
      }
    }

    /** Computes the routing tables.  The search for cheapest paths needs
        non-negative weights and no link from a switch to itself. */
    method CreateLinks() returns (tables: seq<seq<OutPort>>, ghost size: nat, ghost d: Matrix)
      requires links != map[]
      requires forall k :: k in links ==> k.0 != k.1 && links[k].weight >= 0
      requires exists k :: k in links && 2 * nodes <= k.0
      ensures IsSize(links, size)
      ensures AreTables(links, nodes, size, d, tables)
      ensures exists n: nat, m: Matrix :: IsSize(links, n) && AreTables(links, nodes, n, m, tables)
    {
      var count := NumSwitches();
      size := count;
      ghost var w := Weights(links, count);
      var weights := FillWeights(count);
      WeightsAreWeights(links, count);
      var dist;
      dist, d := ShortestPath(weights, w);
      tables := [];
      for r := 0 to count - 2 * nodes
        invariant |tables| == r && Mirrors(weights, w) && Mirrors(dist, d)
        invariant forall q :: 0 <= q < r ==> tables[q] == Ports(links, w, d, nodes, 2 * nodes + q, size)
      {
        var ports := MakeLinks(weights, dist, 2 * nodes + r, w, d);
        tables := tables + [ports];
      }
      assert IsSize(links, size) && AreTables(links, nodes, size, d, tables);
    }
  }

  lemma {:induction false} WeightsAreWeights(links: LinkMap, size: nat)
    requires forall k :: k in links ==> k.0 != k.1 && links[k].weight >= 0
    ensures WeightMatrix(Weights(links, size))
  {
    var w := Weights(links, size);
    forall i: nat, j: nat | i < size && j < size
      ensures w[i][j] == WeightAt(links, i, j)
    {
    }
  }
}
