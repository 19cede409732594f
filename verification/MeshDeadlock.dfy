/** The mesh topologies as networks of virtual channels: the routing tables computed
    for Mesh_XY and Mesh_westfirst make packets acquire links in a fixed order. */
module MeshDeadlock {
  import opened Results
  import opened Grid
  import opened Mesh
  import opened ShortestPaths
  import opened MeshDistance
  import opened RoutingUnit
  import opened MeshRouting
  import opened Fabric

  /** A mesh, the matrix computed for it, and the VCs per link. */
  datatype Net = Net(s: Scheme, g: Shape, ext: seq<ExtLink>, ints: seq<IntLink>, size: nat, dist: Matrix,
                     vcs: nat, ordered: bool, oneByOne: bool)

  ghost predicate ValidNet(net: Net) {
    && Solved(net.s, net.g, net.ext, net.ints, net.size, net.dist)
    && net.vcs > 0
  }

  /** A link with VCs: from a controller into its router, from router to router, or
      from a router out to a controller. */
  datatype Channel = Inject(from: ExtLink) | Hop(router: nat, dir: Direction) | Leave(to: ExtLink)

  datatype Out = Exit | Go(dir: Direction)

  ghost predicate IsChannel(net: Net, c: Channel) {
    match c
    case Inject(l) => l in net.ext
    case Hop(a, d) => IsRouter(net.g, a) && HasStep(net.g, a, d)
    case Leave(l) => l in net.ext
  }

  /** The router a channel leads to, or out of the network from. */
  ghost function End(net: Net, c: Channel): (a: nat)
    requires ValidNet(net) && IsChannel(net, c)
    ensures IsRouter(net.g, a)
  {
    match c
    case Inject(l) => l.router
    case Hop(a, d) => StepMoves(net.g, a, d); Step(net.g, a, d)
    case Leave(l) => l.router
  }

  /** The channel can come next after one that ends at router a. */
  ghost predicate StartsAt(c: Channel, a: nat) {
    match c
    case Inject(_) => false
    case Hop(b, _) => a == b
    case Leave(l) => a == l.router
  }

  /** The lookup in router a's table may return this output for the destination. */
  ghost predicate Picks(net: Net, a: nat, dest: ExtLink, out: Out)
    requires ValidNet(net) && IsRouter(net.g, a)
  {
    InMatrix(net.s, net.g, net.ext, net.ints, net.size);
    var table := TableOf(net.ext, net.ints, net.size, net.dist, a);
    exists k: nat :: IsChoice(table, {dest.node}, k) &&
      match out
      case Exit => table[k].next == |net.ext| + dest.node
      case Go(d) => HasStep(net.g, a, d) && table[k].next == 2 * |net.ext| + Step(net.g, a, d)
  }

  /** What the lookup can return, in closed form. */
  lemma {:induction false} PicksFollowRule(net: Net, a: nat, dest: ExtLink, out: Out)
    requires ValidNet(net) && IsRouter(net.g, a) && dest in net.ext && Picks(net, a, dest, out)
    ensures WithinReach(net.s, net.g, a, dest)
    ensures out.Exit? ==> a == dest.router
    ensures out.Go? ==> a != dest.router && Allowed(net.s, net.g, a, dest.router, out.dir)
  {
    InMatrix(net.s, net.g, net.ext, net.ints, net.size);
    var table := TableOf(net.ext, net.ints, net.size, net.dist, a);
    var k: nat :| IsChoice(table, {dest.node}, k) &&
      match out
      case Exit => table[k].next == |net.ext| + dest.node
      case Go(d) => HasStep(net.g, a, d) && table[k].next == 2 * |net.ext| + Step(net.g, a, d);
    ChoiceFollowsRule(net.s, net.g, net.ext, net.ints, net.size, net.dist, dest, a, k);
    if out.Go? {
      StepMoves(net.g, a, out.dir);
      if a != dest.router {
        var d :| Allowed(net.s, net.g, a, dest.router, d) && table[k].next == 2 * |net.ext| + Step(net.g, a, d);
        ProductiveHasStep(net.g, a, dest.router, d);
        if d != out.dir {
          StepsDiffer(net.g, a, d, out.dir);
        }
      }
    } else if a != dest.router {
      var d :| Allowed(net.s, net.g, a, dest.router, d) && table[k].next == 2 * |net.ext| + Step(net.g, a, d);
      ProductiveHasStep(net.g, a, dest.router, d);
      StepMoves(net.g, a, d);
    }
  }

  /** Within reach of its destination, a packet always has an output. */
  lemma {:induction false} SomePick(net: Net, a: nat, dest: ExtLink) returns (out: Out)
    requires ValidNet(net) && IsRouter(net.g, a) && dest in net.ext && WithinReach(net.s, net.g, a, dest)
    ensures Picks(net, a, dest, out)
  {
    InMatrix(net.s, net.g, net.ext, net.ints, net.size);
    var n := |net.ext|;
    var j: nat := n + dest.node;
    if a == dest.router {
      out := Exit;
    } else {
      var d := SomeAllowed(net.s, net.g, a, dest.router);
      ProductiveHasStep(net.g, a, dest.router, d);
      StepMoves(net.g, a, d);
      out, j := Go(d), 2 * n + Step(net.g, a, d);
    }
    assert MeshNext(net.s, net.g, n, a, dest, j);
    var k := RuleIsChoosable(net.s, net.g, net.ext, net.ints, net.size, net.dist, dest, a, j);
  }

  // ---- Ranks: the order in which packets acquire links ----

  ghost function Rank(net: Net, c: Channel): nat
    requires ValidNet(net) && IsChannel(net, c)
  {
    var g := net.g;
    match c
    case Inject(_) => 0
    case Leave(_) => LeaveRank(g)
    case Hop(a, d) =>
      CoordinatesInverse(g, a);
      var (row, col) := (Row(g, a), Col(g, a));
      match net.s
      case XY => (match d
        case East => 1 + col
        case West => 1 + g.cols - col
        case North => 2 + g.cols + row
        case South => 2 + g.cols + g.rows - row)
      case WestFirst => (match d
        case West => 1 + g.cols - col
        case North => 2 + g.cols + Times(col, g.rows + 2) + row
        case South => 2 + g.cols + Times(col, g.rows + 2) + g.rows - row
        case East => 2 + g.cols + Times(col, g.rows + 2) + g.rows + 1)
  }

  ghost function LeaveRank(g: Shape): nat {
    3 + g.cols + Times(g.cols, g.rows + 2) + g.rows + 1
  }

  /** The links out of the network rank above all others. */
  lemma {:induction false} LeaveRanksHighest(net: Net, c: Channel)
    requires ValidNet(net) && IsChannel(net, c) && !c.Leave?
    ensures Rank(net, c) < LeaveRank(net.g)
  {
    if c.Hop? {
      CoordinatesInverse(net.g, c.router);
      TimesMonotone(Col(net.g, c.router), net.g.cols, net.g.rows + 2);
    }
  }

  /** A channel a packet for dest may hold. */
  ghost predicate OnRoute(net: Net, dest: ExtLink, c: Channel)
    requires ValidNet(net)
  {
    && IsChannel(net, c)
    && (c.Hop? ==> Allowed(net.s, net.g, c.router, dest.router, c.dir))
    && (c.Leave? ==> c.to == dest)
  }

  /** Channel d can be waited for while channel c is held. */
  ghost predicate Depends(net: Net, c: Channel, d: Channel)
    requires ValidNet(net)
  {
    exists dest :: dest in net.ext && OnRoute(net, dest, c) && OnRoute(net, dest, d)
                   && !c.Leave? && StartsAt(d, End(net, c))
  }

  /** Packets acquire links in increasing rank. */
  lemma {:induction false} RankIncreases(net: Net, dest: ExtLink, c: Channel, d: Channel)
    requires ValidNet(net) && dest in net.ext && OnRoute(net, dest, c) && OnRoute(net, dest, d)
    requires !c.Leave? && StartsAt(d, End(net, c))
    ensures Rank(net, c) < Rank(net, d)
  {
    if d.Leave? {
      LeaveRanksHighest(net, c);
    } else if c.Hop? {
      if net.s.XY? {
        XYRankIncreases(net, dest, c, d);
      } else {
        WestFirstRankIncreases(net, dest, c, d);
      }
    } else {
      CoordinatesInverse(net.g, d.router);
    }
  }

  lemma {:induction false} XYRankIncreases(net: Net, dest: ExtLink, c: Channel, d: Channel)
    requires ValidNet(net) && net.s.XY? && dest in net.ext && OnRoute(net, dest, c) && OnRoute(net, dest, d)
    requires c.Hop? && d.Hop? && d.router == End(net, c)
    ensures Rank(net, c) < Rank(net, d)
  {
    CoordinatesInverse(net.g, d.router);
    CoordinatesInverse(net.g, c.router);
    StepMoves(net.g, c.router, c.dir);
    XYColumnsFirst(net.g, c.router, dest.router, c.dir);
    XYColumnsFirst(net.g, d.router, dest.router, d.dir);
  }

  lemma {:induction false} WestFirstRankIncreases(net: Net, dest: ExtLink, c: Channel, d: Channel)
    requires ValidNet(net) && net.s.WestFirst? && dest in net.ext && OnRoute(net, dest, c) && OnRoute(net, dest, d)
    requires c.Hop? && d.Hop? && d.router == End(net, c)
    ensures Rank(net, c) < Rank(net, d)
  {
    CoordinatesInverse(net.g, d.router);
    CoordinatesInverse(net.g, c.router);
    StepMoves(net.g, c.router, c.dir);
    WestFirstRule(net.g, c.router, dest.router, c.dir);
    WestFirstRule(net.g, d.router, dest.router, d.dir);
  }

  ghost predicate DependencyPath(net: Net, p: seq<Channel>)
    requires ValidNet(net)
  {
    forall i :: 0 <= i < |p| - 1 ==> Depends(net, p[i], p[i + 1])
  }

  lemma {:induction false} RankAlongPath(net: Net, p: seq<Channel>)
    requires ValidNet(net) && |p| > 1 && DependencyPath(net, p)
    ensures IsChannel(net, p[0]) && IsChannel(net, p[|p| - 1])
    ensures Rank(net, p[0]) < Rank(net, p[|p| - 1])
  {
    var l := |p| - 2;
    assert Depends(net, p[l], p[l + 1]);
    var c, d := p[l], p[l + 1];
    var dest :| dest in net.ext && OnRoute(net, dest, c) && OnRoute(net, dest, d)
                && !c.Leave? && StartsAt(d, End(net, c));
    RankIncreases(net, dest, p[l], p[l + 1]);
    if l > 0 {
      RankAlongPath(net, p[..l + 1]);
    }
  }

  /** The channel dependency graph has no cycle. */
  lemma {:induction false} NoDependencyCycle(net: Net, p: seq<Channel>)
    requires ValidNet(net) && |p| > 1 && DependencyPath(net, p)
    ensures p[0] != p[|p| - 1]
  {
    RankAlongPath(net, p);
  }

  // ---- Routes ----

  function Gap(x: nat, y: nat): nat {
    if x <= y then y - x else x - y
  }

  /** Grid distance in hops. */
  function Hops(g: Shape, a: nat, b: nat): nat
    requires g.cols > 0
  {
    Gap(Row(g, a), Row(g, b)) + Gap(Col(g, a), Col(g, b))
  }

  /** A productive step takes one hop off the distance. */
  lemma {:induction false} ProductiveStep(g: Shape, a: nat, b: nat, d: Direction)
    requires IsRouter(g, a) && IsRouter(g, b) && Productive(g, a, b, d)
    ensures HasStep(g, a, d) && Step(g, a, d) >= 0 && IsRouter(g, Step(g, a, d))
    ensures Hops(g, Step(g, a, d), b) == Hops(g, a, b) - 1
  {
    ProductiveHasStep(g, a, b, d);
    StepMoves(g, a, d);
  }

  /** The directions a packet may take from router a to its destination, one
      lookup result per router. */
  ghost predicate IsRoute(net: Net, a: nat, dest: ExtLink, path: seq<Direction>)
    requires ValidNet(net) && IsRouter(net.g, a)
    decreases |path|
  {
    if path == [] then Picks(net, a, dest, Exit)
    else
      && Picks(net, a, dest, Go(path[0]))
      && HasStep(net.g, a, path[0]) && Step(net.g, a, path[0]) >= 0 && IsRouter(net.g, Step(net.g, a, path[0]))
      && IsRoute(net, Step(net.g, a, path[0]), dest, path[1..])
  }

  /** Every route is minimal. */
  lemma {:induction false} RoutesAreMinimal(net: Net, a: nat, dest: ExtLink, path: seq<Direction>)
    requires ValidNet(net) && IsRouter(net.g, a) && dest in net.ext && IsRoute(net, a, dest, path)
    ensures |path| == Hops(net.g, a, dest.router)
    decreases |path|
  {
    if path == [] {
      PicksFollowRule(net, a, dest, Exit);
    } else {
      PicksFollowRule(net, a, dest, Go(path[0]));
      ProductiveStep(net.g, a, dest.router, path[0]);
      RoutesAreMinimal(net, Step(net.g, a, path[0]), dest, path[1..]);
    }
  }

  predicate IsVertical(d: Direction) {
    d.North? || d.South?
  }

  /** With Mesh_XY, all East and West hops come before any North or South hop. */
  lemma {:induction false} XYOrder(net: Net, a: nat, dest: ExtLink, path: seq<Direction>, i: nat, j: nat)
    requires ValidNet(net) && net.s.XY? && IsRouter(net.g, a) && dest in net.ext && IsRoute(net, a, dest, path)
    requires i <= j < |path| && IsVertical(path[i])
    ensures IsVertical(path[j])
    decreases |path|
  {
    var b := Step(net.g, a, path[0]);
    PicksFollowRule(net, a, dest, Go(path[0]));
    XYColumnsFirst(net.g, a, dest.router, path[0]);
    if i > 0 {
      XYOrder(net, b, dest, path[1..], i - 1, j - 1);
    } else if j > 0 {
      ProductiveStep(net.g, a, dest.router, path[0]);
      StepMoves(net.g, a, path[0]);
      PicksFollowRule(net, b, dest, Go(path[1]));
      XYColumnsFirst(net.g, b, dest.router, path[1]);
      XYOrder(net, b, dest, path[1..], 0, j - 1);
    }
  }

  /** With Mesh_westfirst, no hop after the first non-West one goes West. */
  lemma {:induction false} WestFirstOrder(net: Net, a: nat, dest: ExtLink, path: seq<Direction>, i: nat, j: nat)
    requires ValidNet(net) && net.s.WestFirst? && IsRouter(net.g, a) && dest in net.ext && IsRoute(net, a, dest, path)
    requires i <= j < |path| && path[i] != West
    ensures path[j] != West
    decreases |path|
  {
    var b := Step(net.g, a, path[0]);
    PicksFollowRule(net, a, dest, Go(path[0]));
    WestFirstRule(net.g, a, dest.router, path[0]);
    if i > 0 {
      WestFirstOrder(net, b, dest, path[1..], i - 1, j - 1);
    } else if j > 0 {
      ProductiveStep(net.g, a, dest.router, path[0]);
      StepMoves(net.g, a, path[0]);
      PicksFollowRule(net, b, dest, Go(path[1]));
      WestFirstRule(net.g, b, dest.router, path[1]);
      WestFirstOrder(net, b, dest, path[1..], 0, j - 1);
    }
  }

  // ---- The mesh as a network of virtual channels ----

  ghost predicate MayHold(net: Net, dest: ExtLink, c: Channel)
    requires ValidNet(net)
  {
    dest in net.ext && OnRoute(net, dest, c) && WithinReach(net.s, net.g, End(net, c), dest)
  }

  ghost predicate Lookup(net: Net, dest: ExtLink, c: Channel, out: Option<Channel>)
    requires ValidNet(net)
  {
    && IsChannel(net, c)
    && match out
       case None => c.Leave?
       case Some(Inject(_)) => false
       case Some(Hop(a, d)) => !c.Leave? && a == End(net, c) && Picks(net, a, dest, Go(d))
       case Some(Leave(l)) => !c.Leave? && l == dest && Picks(net, End(net, c), dest, Exit)
  }

  ghost function ChannelRank(net: Net, c: Channel): nat
    requires ValidNet(net)
  {
    if IsChannel(net, c) then Rank(net, c) else 0
  }

  ghost function HopsLeft(net: Net, dest: ExtLink, c: Channel): nat
    requires ValidNet(net)
  {
    if IsChannel(net, c) && !c.Leave? then Hops(net.g, End(net, c), dest.router) + 1 else 0
  }

  ghost function MeshFabric(net: Net): Fabric<Channel, ExtLink>
    requires ValidNet(net)
  {
    Fabric((c: Channel) => c.Inject?,
           (d, c) => MayHold(net, d, c),
           (d, c, o) => Lookup(net, d, c, o),
           c => ChannelRank(net, c),
           (d, c) => HopsLeft(net, d, c),
           net.vcs, net.ordered, net.oneByOne)
  }

  lemma {:induction false} LookupSucceeds(net: Net, dest: ExtLink, c: Channel) returns (out: Option<Channel>)
    requires ValidNet(net) && MayHold(net, dest, c)
    ensures Lookup(net, dest, c, out)
  {
    if c.Leave? {
      out := None;
    } else {
      var a := End(net, c);
      var o := SomePick(net, a, dest);
      out := Some(if o.Exit? then Leave(dest) else Hop(a, o.dir));
    }
  }

  lemma {:induction false} LookupAdvances(net: Net, dest: ExtLink, c: Channel, d: Channel)
    requires ValidNet(net) && MayHold(net, dest, c) && Lookup(net, dest, c, Some(d))
    ensures MayHold(net, dest, d)
    ensures ChannelRank(net, c) < ChannelRank(net, d)
    ensures HopsLeft(net, dest, d) < HopsLeft(net, dest, c)
  {
    if d.Leave? {
      PicksFollowRule(net, End(net, c), dest, Exit);
      RankIncreases(net, dest, c, d);
    } else {
      PicksFollowRule(net, d.router, dest, Go(d.dir));
      ProductiveStep(net.g, d.router, dest.router, d.dir);
      StepCost(net.s, net.g, d.router, dest.router, d.dir);
      RankIncreases(net, dest, c, d);
    }
  }

  /** Both mesh topologies acquire links in increasing rank, at every size and
      for every choice the lookup may make among links of equal weight. */
  lemma {:induction false} MeshIsRanked(net: Net)
    requires ValidNet(net)
    ensures Ranked(MeshFabric(net))
  {
    MeshLooksUp(net);
    MeshClimbs(net);
  }

  lemma {:induction false} MeshLooksUp(net: Net)
    requires ValidNet(net)
    ensures LooksUp(MeshFabric(net))
  {
    var f := MeshFabric(net);
    forall d, c | f.mayHold(d, c)
      ensures exists o :: f.lookup(d, c, o)
    {
      var o := LookupSucceeds(net, d, c);
      assert f.lookup(d, c, o);
    }
  }

  lemma {:induction false} MeshClimbsAt(net: Net, d: ExtLink, c: Channel, e: Channel)
    requires ValidNet(net)
    ensures ClimbsAt(MeshFabric(net), d, c, e)
  {
    if MayHold(net, d, c) && Lookup(net, d, c, Some(e)) {
      LookupAdvances(net, d, c, e);
    }
  }

  lemma {:induction false} MeshClimbs(net: Net)
    requires ValidNet(net)
    ensures Climbs(MeshFabric(net))
  {
    forall d, c, e
      ensures ClimbsAt(MeshFabric(net), d, c, e)
    {
      MeshClimbsAt(net, d, c, e);
    }
    ClimbsEverywhere(MeshFabric(net));
  }

  /** A packet can be sent from one controller to another exactly when the
      destination is within reach of the source's router. */
  lemma {:induction false} SendableIff(net: Net, src: ExtLink, dest: ExtLink)
    requires ValidNet(net) && src in net.ext && dest in net.ext
    ensures MayHold(net, dest, Inject(src)) <==> WithinReach(net.s, net.g, src.router, dest)
    ensures (exists out :: Picks(net, src.router, dest, out)) <==> WithinReach(net.s, net.g, src.router, dest)
  {
    if out :| Picks(net, src.router, dest, out) {
      PicksFollowRule(net, src.router, dest, out);
    }
    if WithinReach(net.s, net.g, src.router, dest) {
      var out := SomePick(net, src.router, dest);
    }
  }

  /** A packet is only ever taken at the end of its destination's own link. */
  lemma {:induction false} DeliveredAtHome(net: Net, st: State<Channel, ExtLink>, i: nat)
    requires ValidNet(net) && Inv(MeshFabric(net), st) && i < |st| && st[i].out.None?
    ensures st[i].trail != [] && Head(st[i]) == Leave(st[i].dest)
  {
    var f := MeshFabric(net);
    assert PacketOk(f, st[i]);
    assert f.mayHold(st[i].dest, Head(st[i])) && f.lookup(st[i].dest, Head(st[i]), None);
  }
}
