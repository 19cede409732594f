/** Route computation in a Garnet router: the weight-based table lookup and the
    port-direction XY algorithm. */
module RoutingUnit {
  import opened Results
  import opened Mesh
  import opened Topology

  /** Starting value of the minimum weight. */
  const INFINITE := 10000

  datatype LookupError = NoRoute

  /** The port's table entry shares a destination with the message. */
  ghost predicate Offers(p: OutPort, msg: set<nat>) {
    p.dests * msg != {}
  }

  /** Port k offers the message's destination at the least weight of all ports that do. */
  ghost predicate IsChoice(ports: seq<OutPort>, msg: set<nat>, k: nat) {
    && k < |ports| && Offers(ports[k], msg) && ports[k].weight <= INFINITE
    && forall j :: 0 <= j < |ports| && Offers(ports[j], msg) ==> ports[k].weight <= ports[j].weight
  }

  /** First pass: the least weight among the ports that offer the destination. */
  method LeastWeight(ports: seq<OutPort>, msg: set<nat>) returns (least: int)
    ensures least <= INFINITE
    ensures forall j :: 0 <= j < |ports| && Offers(ports[j], msg) ==> least <= ports[j].weight
    ensures least == INFINITE || exists j :: 0 <= j < |ports| && Offers(ports[j], msg) && ports[j].weight == least
  {
    least := INFINITE;
    for k := 0 to |ports|
      invariant least <= INFINITE
      invariant forall j :: 0 <= j < k && Offers(ports[j], msg) ==> least <= ports[j].weight
      invariant least == INFINITE || exists j :: 0 <= j < k && Offers(ports[j], msg) && ports[j].weight == least
    {
      if msg * ports[k].dests != {} {
        if ports[k].weight <= least {
          least := ports[k].weight;
        }
      }
    }
  }

  /** An unordered virtual network takes any least-weight port, picked by the
      random number; an ordered one always takes the first. */
  method LookupRoutingTable(ports: seq<OutPort>, msg: set<nat>, ordered: bool, random: nat)
    returns (r: Result<nat, LookupError>)
    ensures r.Ok? ==> IsChoice(ports, msg, r.value)
    ensures r.Ok? && ordered ==> forall j :: 0 <= j < r.value ==> !IsChoice(ports, msg, j)
    ensures r.Err? <==> forall k :: 0 <= k < |ports| ==> !IsChoice(ports, msg, k)
  {
    var least := LeastWeight(ports, msg);
    var candidates: seq<nat> := [];
    for k := 0 to |ports|
      invariant forall c :: 0 <= c < |candidates| ==> candidates[c] < k && IsChoice(ports, msg, candidates[c])
      invariant forall j :: 0 <= j < k && IsChoice(ports, msg, j) ==> j in candidates
      invariant forall b, c :: 0 <= b < c < |candidates| ==> candidates[b] < candidates[c]
    {
      if msg * ports[k].dests != {} {
        if ports[k].weight == least {
          candidates := candidates + [k];
        }
      }
    }
    if |candidates| == 0 {
      return Err(NoRoute);
    }
    var candidate := if ordered then 0 else random % |candidates|;
    return Ok(candidates[candidate]);
  }

  // ---- The XY algorithm by port directions ----

  datatype XYError = AssertionFailed

  /** The direction XY routing takes from router `my` to a different router. */
  function XYDirection(g: Shape, my: nat, dest: nat): Direction
    requires g.cols > 0
  {
    var (myX, myY) := (my % g.cols, my / g.cols);
    var (destX, destY) := (dest % g.cols, dest / g.cols);
    if destX != myX then (if destX >= myX then East else West)
    else (if destY >= myY then North else South)
  }

  /** The assertions on the port a packet came in by. */
  predicate InportAllowed(d: Direction, inport: Port) {
    match d
    case East => inport == Local || inport == Named(West)
    case West => inport == Local || inport == Named(East)
    case North => inport != Named(North)
    case South => inport != Named(South)
  }

  method OutportComputeXY(g: Shape, my: nat, dest: nat, inport: Port) returns (r: Result<Direction, XYError>)
    requires g.rows > 0 && g.cols > 0
    ensures r.Ok? <==> my != dest && InportAllowed(XYDirection(g, my, dest), inport)
    ensures r.Ok? ==> r.value == XYDirection(g, my, dest)
  {
    var myX, myY := my % g.cols, my / g.cols;
    var destX, destY := dest % g.cols, dest / g.cols;
    var xHops := if destX > myX then destX - myX else myX - destX;
    var yHops := if destY > myY then destY - myY else myY - destY;
    if xHops == 0 && yHops == 0 {
      return Err(AssertionFailed);
    }
    var d;
    if xHops > 0 {
      if destX >= myX {
        if !(inport == Local || inport == Named(West)) { return Err(AssertionFailed); }
        d := East;
      } else {
        if !(inport == Local || inport == Named(East)) { return Err(AssertionFailed); }
        d := West;
      }
    } else {
      if destY >= myY {
        if inport == Named(North) { return Err(AssertionFailed); }
        d := North;
      } else {
        if inport == Named(South) { return Err(AssertionFailed); }
        d := South;
      }
    }
    return Ok(d);
  }
}
