/** The cross in a mesh: wherever the mesh is wide enough and has two controllers at
    every router, ordered virtual networks of two VCs or more can deadlock exactly when
    a packet is longer than a buffer. */
module MeshCross {
  import opened Results
  import opened Grid
  import opened Mesh
  import opened MeshBuild
  import opened Topology
  import opened MeshDistance
  import opened MeshRouting
  import opened MeshDeadlock
  import opened MeshNetwork
  import opened Fabric
  import opened Worms
  import opened Allocator
  import opened OrderedSafe
  import opened Journeys
  import opened Jam
  import opened Cross
  import opened CrossArms

  // ---- The four arms ----

  /** The direction in which arm n leads to the crossing. */
  ghost function Dir(n: nat): Direction {
    match n
    case 0 => East
    case 1 => West
    case 2 => North
    case _ => South
  }

  ghost function Less(q: nat, k: nat): nat {
    if k <= q then q - k else 0
  }

  /** Arm n, k steps before the crossing, which is in row and column q. */
  ghost function ArmRow(q: nat, n: nat, k: nat): nat {
    match n
    case 2 => Less(q, k)
    case 3 => q + k
    case _ => q
  }

  ghost function ArmCol(q: nat, n: nat, k: nat): nat {
    match n
    case 0 => Less(q, k)
    case 1 => q + k
    case _ => q
  }

  ghost function Arm(g: Shape, q: nat, n: nat, k: nat): nat {
    At(g, ArmRow(q, n, k), ArmCol(q, n, k))
  }

  /** The long arms start at the edge, the short ones two steps from the crossing. */
  ghost predicate OnTheGrid(g: Shape, q: nat, n: nat, k: nat) {
    n < 4 && q + 2 < g.rows && q + 2 < g.cols && k <= (if n == 0 || n == 2 then q else 2)
  }

  lemma {:induction false} ArmPlace(g: Shape, q: nat, n: nat, k: nat)
    requires OnTheGrid(g, q, n, k)
    ensures IsRouter(g, Arm(g, q, n, k))
    ensures Row(g, Arm(g, q, n, k)) == ArmRow(q, n, k) && Col(g, Arm(g, q, n, k)) == ArmCol(q, n, k)
  {
    Coordinates(g, ArmRow(q, n, k), ArmCol(q, n, k));
  }

  /** The next step along an arm. */
  lemma {:induction false} ArmStep(g: Shape, q: nat, n: nat, k: nat)
    requires OnTheGrid(g, q, n, k + 1)
    ensures IsRouter(g, Arm(g, q, n, k + 1)) && HasStep(g, Arm(g, q, n, k + 1), Dir(n))
    ensures Step(g, Arm(g, q, n, k + 1), Dir(n)) == Arm(g, q, n, k)
  {
    var a := Arm(g, q, n, k + 1);
    ArmPlace(g, q, n, k);
    ArmPlace(g, q, n, k + 1);
    StepMoves(g, a, Dir(n));
    var b: nat := Step(g, a, Dir(n));
    CoordinatesInverse(g, b);
    assert Row(g, b) == ArmRow(q, n, k) && Col(g, b) == ArmCol(q, n, k);
  }

  /** On an arm only its own direction leads nearer to the crossing. */
  lemma {:induction false} ArmRule(s: Scheme, g: Shape, q: nat, n: nat, k: nat, d: Direction)
    requires OnTheGrid(g, q, n, k) && k > 0
    ensures IsRouter(g, Arm(g, q, n, k)) && IsRouter(g, Arm(g, q, 0, 0)) && Arm(g, q, n, k) != Arm(g, q, 0, 0)
    ensures Productive(g, Arm(g, q, n, k), Arm(g, q, 0, 0), d) <==> d == Dir(n)
    ensures Allowed(s, g, Arm(g, q, n, k), Arm(g, q, 0, 0), Dir(n))
  {
    ArmPlace(g, q, n, k);
    ArmPlace(g, q, 0, 0);
  }

  /** Different places of an arm are different routers. */
  lemma {:induction false} ArmApart(g: Shape, q: nat, n: nat, k: nat, h: nat)
    requires OnTheGrid(g, q, n, k) && OnTheGrid(g, q, n, h) && k != h
    ensures Arm(g, q, n, k) != Arm(g, q, n, h)
  {
    ArmPlace(g, q, n, k);
    ArmPlace(g, q, n, h);
  }

  /** n / 2, and whether anything is left. */
  function Half(n: nat): (h: nat)
    ensures n == 2 * h || n == 2 * h + 1
  {
    if n < 2 then 0 else 1 + Half(n - 2)
  }

  predicate IsOdd(n: nat) {
    n != 2 * Half(n)
  }

  // ---- Built meshes ----

  /** Where the arms cross: with that many VCs the long arms have room for their sources. */
  ghost function Middle(vcs: nat): nat
    requires vcs > 0
  {
    2 + Half(vcs - 1)
  }

  /** A mesh as the builder leaves it: wide enough, fully routed, with twice as many
      controllers as routers. */
  ghost predicate Built(net: Net, nodes: seq<Controller>, routers: nat) {
    && ValidNet(net) && net.g.rows > Middle(net.vcs) + 2 && net.g.cols > Middle(net.vcs) + 2
    && MaxCost(net.s, net.g) + EXT_WEIGHT <= INFINITE_LATENCY
    && routers == Times(net.g.rows, net.g.cols) > 0 && 2 * routers <= |nodes| == |net.ext|
    && Placed(nodes, routers, net.ext) && Numbering(nodes)
  }

  /** What InitNetwork returns is such a mesh, given the numbers. */
  lemma {:induction false} InitialisedIsBuilt(net: Net, nodes: seq<Controller>, routers: nat, tables: seq<seq<OutPort>>)
    requires Numbering(nodes) && Refusal(nodes, routers, net.g.rows) == None && net.g.cols == routers / net.g.rows
    requires |net.ext| == |nodes| && Placed(nodes, routers, net.ext)
    requires AreMeshTables(net.s, net.g, net.ext, net.ints, net.dist, tables) && net.size == 2 * |net.ext| + |tables|
    requires net.vcs > 0 && net.g.rows > Middle(net.vcs) + 2 && net.g.cols > Middle(net.vcs) + 2
    requires MaxCost(net.s, net.g) + EXT_WEIGHT <= INFINITE_LATENCY && 2 * routers <= |nodes|
    ensures Built(net, nodes, routers)
  {
    TimesIsProduct(net.g.rows, net.g.cols);
  }

  /** Every router has two controllers. */
  lemma {:induction false} HasTwo(nodes: seq<Controller>, routers: nat, ext: seq<ExtLink>, a: nat)
    requires 0 < routers && 2 * routers <= |nodes| == |ext| && Placed(nodes, routers, ext) && a < routers
    ensures ext[a] == ExtLink(a, nodes[a].nodeId, a)
    ensures ext[a + routers] == ExtLink(a + routers, nodes[a + routers].nodeId, a)
  {
    assert Times(0, routers) == 0 && Times(1, routers) == routers && Times(2, routers) == 2 * routers;
    Encode(|nodes|, routers);
    TimesMonotone(2, Quot(|nodes|, routers), routers);
    Decode(0, a, routers);
    Decode(1, a, routers);
  }

  /** The first or the second controller of each router. */
  type Seats = (nat, bool) -> ExtLink

  ghost function ControllerAt(ext: seq<ExtLink>, routers: nat, a: nat, second: bool): ExtLink {
    if a + routers >= |ext| then ExtLink(0, 0, a) else if second then ext[a + routers] else ext[a]
  }

  /** Two controllers at a router. */
  ghost predicate Seated(ext: seq<ExtLink>, seat: Seats, a: nat) {
    seat(a, false) != seat(a, true) && forall second :: seat(a, second) in ext && seat(a, second).router == a
  }

  /** What the cross needs of the mesh. */
  ghost predicate Roomy(net: Net, seat: Seats) {
    && ValidNet(net) && net.g.rows > Middle(net.vcs) + 2 && net.g.cols > Middle(net.vcs) + 2
    && MaxCost(net.s, net.g) + EXT_WEIGHT <= INFINITE_LATENCY
    && forall a: nat :: IsRouter(net.g, a) ==> Seated(net.ext, seat, a)
  }

  ghost function SeatsOf(ext: seq<ExtLink>, routers: nat): Seats {
    (a: nat, second: bool) => ControllerAt(ext, routers, a, second)
  }

  lemma {:induction false} BuiltIsRoomy(net: Net, nodes: seq<Controller>, routers: nat)
    requires Built(net, nodes, routers)
    ensures Roomy(net, SeatsOf(net.ext, routers))
  {
    forall a: nat | IsRouter(net.g, a)
      ensures Seated(net.ext, SeatsOf(net.ext, routers), a)
    {
      HasTwo(nodes, routers, net.ext, a);
    }
  }

  // ---- The cross ----

  ghost function Hub(net: Net): nat
    requires net.vcs > 0
  {
    Arm(net.g, Middle(net.vcs), 0, 0)
  }

  ghost function ArmAt(net: Net, n: nat, k: nat): nat
    requires net.vcs > 0
  {
    Arm(net.g, Middle(net.vcs), n, k)
  }

  ghost function HopAt(net: Net, n: nat, k: nat): Channel
    requires net.vcs > 0
  {
    Hop(ArmAt(net, n, k), Dir(n))
  }

  /** Two sources at each router along an arm. */
  ghost function Source(net: Net, seat: Seats, n: nat, j: nat): ExtLink
    requires net.vcs > 0
  {
    seat(ArmAt(net, n, 2 + Half(j)), IsOdd(j))
  }

  ghost function Goal(net: Net, seat: Seats, d: bool): ExtLink
    requires net.vcs > 0
  {
    seat(Hub(net), d)
  }

  ghost function PathTo(net: Net, seat: Seats, n: nat, j: nat): seq<Channel>
    requires net.vcs > 0
  {
    [Inject(Source(net, seat, n, j))] + seq(Half(j), i requires 0 <= i < Half(j) => HopAt(net, n, 2 + Half(j) - i))
  }

  ghost function CrossOf(net: Net, seat: Seats): Cross<Channel, ExtLink>
    requires net.vcs > 0
  {
    Cross((n, j) => PathTo(net, seat, n, j), n => HopAt(net, n, 2), n => HopAt(net, n, 1),
          d => Leave(Goal(net, seat, d)), d => Goal(net, seat, d))
  }

  /** Source j of arm n is on the grid. */
  lemma {:induction false} SourceOnGrid(g: Shape, vcs: nat, n: nat, j: nat)
    requires vcs >= 2 && g.rows > Middle(vcs) + 2 && g.cols > Middle(vcs) + 2 && n < 4 && j <= Backs(vcs, n)
    ensures OnTheGrid(g, Middle(vcs), n, 2 + Half(j))
  {
  }

  lemma {:induction false} GoalsFit(net: Net, seat: Seats, d: bool)
    requires Roomy(net, seat)
    ensures Goal(net, seat, d) in net.ext && Goal(net, seat, d).router == Hub(net) && IsRouter(net.g, Hub(net))
    ensures Goal(net, seat, true) != Goal(net, seat, false)
  {
    ArmPlace(net.g, Middle(net.vcs), 0, 0);
    assert Seated(net.ext, seat, Hub(net));
  }

  lemma {:induction false} Reaches(net: Net, seat: Seats, a: nat, d: bool)
    requires Roomy(net, seat) && IsRouter(net.g, a)
    ensures WithinReach(net.s, net.g, a, Goal(net, seat, d))
  {
    GoalsFit(net, seat, d);
    CostAtMostMax(net.s, net.g, a, Hub(net));
  }

  /** On an arm the lookup has its direction as its only result. */
  lemma {:induction false} PickOnArm(net: Net, seat: Seats, d: bool, n: nat, k: nat)
    requires Roomy(net, seat) && k > 0 && OnTheGrid(net.g, Middle(net.vcs), n, k)
    ensures IsRouter(net.g, ArmAt(net, n, k)) && Picks(net, ArmAt(net, n, k), Goal(net, seat, d), Go(Dir(n)))
  {
    var a, dest := ArmAt(net, n, k), Goal(net, seat, d);
    ArmRule(net.s, net.g, Middle(net.vcs), n, k, Dir(n));
    GoalsFit(net, seat, d);
    Reaches(net, seat, a, d);
    var out := SomePick(net, a, dest);
    PicksFollowRule(net, a, dest, out);
    ArmRule(net.s, net.g, Middle(net.vcs), n, k, out.dir);
  }

  lemma {:induction false} PickAtHub(net: Net, seat: Seats, d: bool)
    requires Roomy(net, seat)
    ensures IsRouter(net.g, Hub(net)) && Picks(net, Hub(net), Goal(net, seat, d), Exit)
  {
    GoalsFit(net, seat, d);
    Reaches(net, seat, Hub(net), d);
    var out := SomePick(net, Hub(net), Goal(net, seat, d));
    PicksFollowRule(net, Hub(net), Goal(net, seat, d), out);
  }

  /** A channel a packet for either exit may hold, and what the lookup gives it there. */
  ghost predicate OnRoad(net: Net, dest: ExtLink, c: Channel, out: Option<Channel>)
    requires ValidNet(net)
  {
    MayHold(net, dest, c) && Lookup(net, dest, c, out)
  }

  lemma {:induction false} FromRouter(net: Net, seat: Seats, d: bool, n: nat, k: nat,
          second: bool)
    requires Roomy(net, seat) && k > 0 && OnTheGrid(net.g, Middle(net.vcs), n, k)
    ensures OnRoad(net, Goal(net, seat, d), Inject(seat(ArmAt(net, n, k), second)),
                   Some(HopAt(net, n, k)))
  {
    var a := ArmAt(net, n, k);
    PickOnArm(net, seat, d, n, k);
    assert Seated(net.ext, seat, a);
    GoalsFit(net, seat, d);
    Reaches(net, seat, a, d);
    InjectLeads(net, seat(a, second), Goal(net, seat, d), Dir(n));
  }

  lemma {:induction false} InjectLeads(net: Net, l: ExtLink, dest: ExtLink, d: Direction)
    requires ValidNet(net) && l in net.ext && dest in net.ext && IsRouter(net.g, l.router)
    requires WithinReach(net.s, net.g, l.router, dest) && Picks(net, l.router, dest, Go(d))
    ensures OnRoad(net, dest, Inject(l), Some(Hop(l.router, d)))
  {
  }

  lemma {:induction false} HopIsHeld(net: Net, seat: Seats, d: bool, n: nat, k: nat)
    requires Roomy(net, seat) && OnTheGrid(net.g, Middle(net.vcs), n, k + 1)
    ensures MayHold(net, Goal(net, seat, d), HopAt(net, n, k + 1)) && IsChannel(net, HopAt(net, n, k + 1))
    ensures End(net, HopAt(net, n, k + 1)) == ArmAt(net, n, k)
  {
    ArmStep(net.g, Middle(net.vcs), n, k);
    ArmPlace(net.g, Middle(net.vcs), n, k);
    ArmRule(net.s, net.g, Middle(net.vcs), n, k + 1, Dir(n));
    GoalsFit(net, seat, d);
    Reaches(net, seat, ArmAt(net, n, k), d);
  }

  lemma {:induction false} AlongArm(net: Net, seat: Seats, d: bool, n: nat, k: nat)
    requires Roomy(net, seat) && k > 0 && OnTheGrid(net.g, Middle(net.vcs), n, k + 1)
    ensures OnRoad(net, Goal(net, seat, d), HopAt(net, n, k + 1), Some(HopAt(net, n, k)))
  {
    HopIsHeld(net, seat, d, n, k);
    PickOnArm(net, seat, d, n, k);
  }

  lemma {:induction false} ToTheHub(net: Net, seat: Seats, d: bool, n: nat)
    requires Roomy(net, seat) && n < 4
    ensures OnRoad(net, Goal(net, seat, d), HopAt(net, n, 1), Some(Leave(Goal(net, seat, d))))
  {
    HopIsHeld(net, seat, d, n, 0);
    PickAtHub(net, seat, d);
    assert ArmAt(net, n, 0) == Hub(net);
  }

  lemma {:induction false} OutOfTheHub(net: Net, seat: Seats, d: bool)
    requires Roomy(net, seat)
    ensures OnRoad(net, Goal(net, seat, d), Leave(Goal(net, seat, d)), None)
  {
    GoalsFit(net, seat, d);
    Reaches(net, seat, Hub(net), d);
  }

  /** The k-th channel of a road: the source, down the arm, the exit. */
  ghost function RoadChannel(net: Net, seat: Seats, n: nat, j: nat, d: bool, k: nat): Channel
    requires net.vcs > 0
  {
    if k == 0 then Inject(Source(net, seat, n, j))
    else if k <= Half(j) + 2 then HopAt(net, n, 3 + Half(j) - k)
    else Leave(Goal(net, seat, d))
  }

  lemma {:induction false} RoadRuns(net: Net, seat: Seats, n: nat, j: nat, d: bool, k: nat)
    requires net.vcs > 0 && k < |Road(CrossOf(net, seat), n, j, d)|
    ensures |Road(CrossOf(net, seat), n, j, d)| == Half(j) + 4
    ensures Road(CrossOf(net, seat), n, j, d)[k] == RoadChannel(net, seat, n, j, d, k)
  {
    var p := PathTo(net, seat, n, j);
    assert |p| == Half(j) + 1;
    assert 0 < k < |p| ==> p[k] == HopAt(net, n, 2 + Half(j) - (k - 1));
  }

  ghost predicate Goes<C(!new), D>(f: Fabric<C, D>, dest: D, c: C, out: Option<C>) {
    f.mayHold(dest, c) && f.lookup(dest, c, out)
  }

  lemma {:induction false} GoesOnRoad(net: Net, dest: ExtLink, c: Channel, out: Option<Channel>)
    requires ValidNet(net) && OnRoad(net, dest, c, out)
    ensures Goes(MeshFabric(net), dest, c, out)
  {
  }

  ghost predicate DownTheArm(f: Fabric<Channel, ExtLink>, net: Net, n: nat, top: nat, dest: ExtLink)
    requires net.vcs > 0
  {
    forall k: nat :: 0 < k <= top ==> Goes(f, dest, HopAt(net, n, k + 1), Some(HopAt(net, n, k)))
  }

  /** Source, arm, exit: if each leads to the next, they make a road. */
  lemma {:induction false} RoadLeads(f: Fabric<Channel, ExtLink>, net: Net, seat: Seats, n: nat, j: nat, d: bool,
          dest: ExtLink)
    requires net.vcs > 0 && f.entry(Inject(Source(net, seat, n, j)))
    requires Goes(f, dest, Inject(Source(net, seat, n, j)), Some(HopAt(net, n, 2 + Half(j))))
    requires DownTheArm(f, net, n, 1 + Half(j), dest)
    requires Goes(f, dest, HopAt(net, n, 1), Some(Leave(Goal(net, seat, d))))
    requires Goes(f, dest, Leave(Goal(net, seat, d)), None)
    ensures IsRoad(f, Road(CrossOf(net, seat), n, j, d), dest)
  {
    var road := Road(CrossOf(net, seat), n, j, d);
    RoadRuns(net, seat, n, j, d, 0);
    forall k: nat | k < |road|
      ensures RoadAt(f, road, dest, k)
    {
      RoadRuns(net, seat, n, j, d, k);
      if k + 1 < |road| {
        RoadRuns(net, seat, n, j, d, k + 1);
      }
      if 0 < k < Half(j) + 2 {
        assert Goes(f, dest, HopAt(net, n, Half(j) + 2 - k + 1), Some(HopAt(net, n, Half(j) + 2 - k)));
      }
    }
  }

  lemma {:induction false} RoadStarts(net: Net, seat: Seats, n: nat, d: bool, k: nat,
          second: bool)
    requires Roomy(net, seat) && k > 0 && OnTheGrid(net.g, Middle(net.vcs), n, k)
    ensures Goes(MeshFabric(net), Goal(net, seat, d),
                 Inject(seat(ArmAt(net, n, k), second)), Some(HopAt(net, n, k)))
  {
    FromRouter(net, seat, d, n, k, second);
    GoesOnRoad(net, Goal(net, seat, d), Inject(seat(ArmAt(net, n, k), second)),
               Some(HopAt(net, n, k)));
  }

  lemma {:induction false} RoadGoesOn(net: Net, seat: Seats, n: nat, d: bool, k: nat)
    requires Roomy(net, seat) && k > 0 && OnTheGrid(net.g, Middle(net.vcs), n, k + 1)
    ensures Goes(MeshFabric(net), Goal(net, seat, d), HopAt(net, n, k + 1), Some(HopAt(net, n, k)))
  {
    AlongArm(net, seat, d, n, k);
    GoesOnRoad(net, Goal(net, seat, d), HopAt(net, n, k + 1), Some(HopAt(net, n, k)));
  }

  lemma {:induction false} RoadGoesDown(net: Net, seat: Seats, n: nat, d: bool, top: nat)
    requires Roomy(net, seat) && OnTheGrid(net.g, Middle(net.vcs), n, top + 1)
    ensures DownTheArm(MeshFabric(net), net, n, top, Goal(net, seat, d))
  {
    forall k: nat | 0 < k <= top
      ensures Goes(MeshFabric(net), Goal(net, seat, d), HopAt(net, n, k + 1), Some(HopAt(net, n, k)))
    {
      RoadGoesOn(net, seat, n, d, k);
    }
  }

  lemma {:induction false} RoadEnds(net: Net, seat: Seats, n: nat, d: bool)
    requires Roomy(net, seat) && n < 4
    ensures Goes(MeshFabric(net), Goal(net, seat, d), HopAt(net, n, 1), Some(Leave(Goal(net, seat, d))))
    ensures Goes(MeshFabric(net), Goal(net, seat, d), Leave(Goal(net, seat, d)), None)
  {
    var dest := Goal(net, seat, d);
    ToTheHub(net, seat, d, n);
    GoesOnRoad(net, dest, HopAt(net, n, 1), Some(Leave(dest)));
    OutOfTheHub(net, seat, d);
    GoesOnRoad(net, dest, Leave(dest), None);
  }

  lemma {:induction false} RoadIsRoad(net: Net, seat: Seats, n: nat, j: nat, d: bool)
    requires Roomy(net, seat) && OnTheGrid(net.g, Middle(net.vcs), n, 2 + Half(j))
    ensures IsRoad(MeshFabric(net), Road(CrossOf(net, seat), n, j, d), Goal(net, seat, d))
  {
    var f, dest := MeshFabric(net), Goal(net, seat, d);
    RoadStarts(net, seat, n, d, 2 + Half(j), IsOdd(j));
    RoadGoesDown(net, seat, n, d, 1 + Half(j));
    RoadEnds(net, seat, n, d);
    RoadLeads(f, net, seat, n, j, d, dest);
  }

  lemma {:induction false} DirsApart(n: nat, m: nat)
    requires n < 4 && m < 4 && Dir(n) == Dir(m)
    ensures n == m
  {
  }

  /** Further out on an arm than the last two channels is none of the cross's own. */
  lemma {:induction false} HopOffCross(net: Net, seat: Seats, n: nat, h: nat)
    requires net.vcs > 0 && h > 2 && OnTheGrid(net.g, Middle(net.vcs), n, h)
    ensures OffCross(CrossOf(net, seat), HopAt(net, n, h))
  {
    var x, c := CrossOf(net, seat), HopAt(net, n, h);
    forall m: nat | m < 4
      ensures c != x.inn(m) && c != x.mid(m)
    {
      if Dir(n) == Dir(m) {
        DirsApart(n, m);
        ArmApart(net.g, Middle(net.vcs), n, h, 2);
        ArmApart(net.g, Middle(net.vcs), n, h, 1);
      }
    }
  }

  lemma {:induction false} PathOffCross(net: Net, seat: Seats, n: nat, j: nat, k: nat)
    requires net.vcs > 0 && k < |PathTo(net, seat, n, j)| && OnTheGrid(net.g, Middle(net.vcs), n, 2 + Half(j))
    ensures OffCross(CrossOf(net, seat), PathTo(net, seat, n, j)[k])
  {
    if k > 0 {
      var h: nat := 3 + Half(j) - k;
      assert PathTo(net, seat, n, j)[k] == HopAt(net, n, h);
      HopOffCross(net, seat, n, h);
    }
  }

  lemma {:induction false} SpotsDiffer(net: Net, seat: Seats)
    requires Roomy(net, seat)
    ensures SpotsApart(CrossOf(net, seat))
  {
    var x := CrossOf(net, seat);
    forall n: nat, m: nat | n < 4 && m < 4
      ensures x.inn(n) != x.mid(m)
      ensures n != m ==> x.inn(n) != x.inn(m) && x.mid(n) != x.mid(m)
    {
      if Dir(n) == Dir(m) {
        DirsApart(n, m);
        ArmApart(net.g, Middle(net.vcs), n, 2, 1);
      }
    }
    GoalsFit(net, seat, true);
  }

  lemma {:induction false} HalvesDiffer(i: nat, j: nat)
    requires i != j
    ensures Half(i) != Half(j) || IsOdd(i) != IsOdd(j)
  {
  }

  lemma {:induction false} SourcesDiffer(net: Net, seat: Seats, n: nat, i: nat, j: nat)
    requires Roomy(net, seat) && i != j
    requires OnTheGrid(net.g, Middle(net.vcs), n, 2 + Half(i)) && OnTheGrid(net.g, Middle(net.vcs), n, 2 + Half(j))
    ensures Source(net, seat, n, i) != Source(net, seat, n, j)
  {
    HalvesDiffer(i, j);
    PlacesDiffer(net, seat, n, 2 + Half(i), IsOdd(i), 2 + Half(j), IsOdd(j));
  }

  lemma {:induction false} PlacesDiffer(net: Net, seat: Seats, n: nat, k: nat, a: bool,
          h: nat, b: bool)
    requires Roomy(net, seat) && (k != h || a != b)
    requires OnTheGrid(net.g, Middle(net.vcs), n, k) && OnTheGrid(net.g, Middle(net.vcs), n, h)
    ensures seat(ArmAt(net, n, k), a) != seat(ArmAt(net, n, h), b)
  {
    ArmPlace(net.g, Middle(net.vcs), n, k);
    ArmPlace(net.g, Middle(net.vcs), n, h);
    assert Seated(net.ext, seat, ArmAt(net, n, k));
    assert Seated(net.ext, seat, ArmAt(net, n, h));
  }

  /** The cross is part of every such mesh. */
  lemma {:induction false} CrossFits(net: Net, seat: Seats)
    requires Roomy(net, seat) && net.ordered && net.vcs >= 2
    ensures Fits(MeshFabric(net), CrossOf(net, seat))
  {
    var f, x := MeshFabric(net), CrossOf(net, seat);
    SpotsDiffer(net, seat);
    forall n: nat, j: nat | n < 4 && j <= Backs(net.vcs, n)
      ensures PathFits(f, x, n, j)
    {
      SourceOnGrid(net.g, net.vcs, n, j);
      forall k: nat | k < |PathTo(net, seat, n, j)|
        ensures OffCross(x, PathTo(net, seat, n, j)[k])
      {
        PathOffCross(net, seat, n, j, k);
      }
      forall d
        ensures IsRoad(f, Road(x, n, j, d), x.dst(d))
      {
        RoadIsRoad(net, seat, n, j, d);
      }
    }
    forall n: nat, i: nat, j: nat | n < 4 && i < j <= Backs(net.vcs, n)
      ensures SourcesApart(x, n, i, j)
    {
      SourceOnGrid(net.g, net.vcs, n, i);
      SourceOnGrid(net.g, net.vcs, n, j);
      SourcesDiffer(net, seat, n, i, j);
    }
  }

  // ---- Exactly when a mesh can deadlock ----

  lemma {:induction false} LongerAllowed<C(!new), D(!new)>(f: Fabric<C, D>, depth: nat, size: nat, more: nat,
          st: Flow<C, D>)
    requires Reachable(f, depth, size, st) && size <= more
    ensures Reachable(f, depth, more, st)
  {
    var ms :| Leads(f, depth, [], ms, st) && UpTo(ms, size);
    assert UpTo(ms, more);
  }

  /** A deadlock from which the network never empties again. */
  ghost predicate DeadForGood<C(!new), D(!new)>(f: Fabric<C, D>, depth: nat, st: Flow<C, D>) {
    Deadlocked(f, depth, st) && forall ms, b :: Leads(f, depth, st, ms, b) ==> b != []
  }

  lemma {:induction false} DeadlockComes(net: Net, nodes: seq<Controller>, routers: nat, depth: nat, size: nat)
    returns (st: Flow<Channel, ExtLink>)
    requires Built(net, nodes, routers) && depth > 0 && net.ordered && net.vcs >= 2 && size > depth
    ensures Reachable(MeshFabric(net), depth, size, st) && DeadForGood(MeshFabric(net), depth, st)
  {
    var f := MeshFabric(net);
    MeshIsRanked(net);
    BuiltIsRoomy(net, nodes, routers);
    CrossFits(net, SeatsOf(net.ext, routers));
    st := CrossDeadlocks(f, CrossOf(net, SeatsOf(net.ext, routers)), depth);
    LongerAllowed(f, depth, depth + 1, size, st);
    forall ms, b | Leads(f, depth, st, ms, b)
      ensures b != []
    {
      JamForGood(f, depth, st, st, ms, b);
    }
  }

  /** Packets of up to `size` flits can come to a deadlock exactly when the network is
      ordered, has two VCs or more, and a packet can be longer than a buffer. */
  lemma {:induction false} DeadlocksIff(net: Net, nodes: seq<Controller>, routers: nat, depth: nat, size: nat)
    requires Built(net, nodes, routers) && depth > 0
    ensures (exists st :: Reachable(MeshFabric(net), depth, size, st) && Deadlocked(MeshFabric(net), depth, st))
       <==> (net.ordered && net.vcs >= 2 && size > depth)
    ensures (exists st :: Reachable(MeshFabric(net), depth, size, st) && DeadForGood(MeshFabric(net), depth, st))
       <==> (net.ordered && net.vcs >= 2 && size > depth)
  {
    var f := MeshFabric(net);
    if net.ordered && net.vcs >= 2 && size > depth {
      var st := DeadlockComes(net, nodes, routers, depth, size);
    } else {
      MeshIsRanked(net);
      forall st | Reachable(f, depth, size, st)
        ensures !Deadlocked(f, depth, st)
      {
        NeverDeadlocked(f, depth, size, st);
      }
    }
  }
}
