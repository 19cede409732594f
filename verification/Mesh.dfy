/** The mesh topologies Mesh_XY and Mesh_westfirst: routers, controllers and
    weighted links of a rows x cols grid, built for any size. */
module Mesh {
  import opened Grid

  /** Which topology file supplies the link weights. */
  datatype Scheme = XY | WestFirst

  datatype Direction = East | West | North | South

  /** Port names on a link; Mesh_westfirst leaves them at their default, and a
      controller hangs off a local port. */
  datatype Port = Named(dir: Direction) | Unnamed | Local

  datatype Shape = Shape(rows: nat, cols: nat)

  datatype Controller = Controller(nodeId: nat, isDma: bool)

  datatype Router = Router(routerId: nat, latency: nat)

  datatype ExtLink = ExtLink(linkId: int, node: nat, router: nat)

  datatype IntLink = IntLink(linkId: int, src: nat, dst: nat, outport: Port, inport: Port, weight: int)

  datatype Network = Network(routers: seq<Router>, extLinks: seq<ExtLink>, intLinks: seq<IntLink>)

  datatype BuildError = DivisionByZero | RowsOutOfRange | NotRectangular | RemainderNotDma

  // ---- The grid ----

  function Weight(s: Scheme, d: Direction): int {
    match s
    case XY => if d.East? || d.West? then 1 else 2
    case WestFirst => if d.West? then 1 else 2
  }

  function Opposite(d: Direction): Direction {
    match d
    case East => West
    case West => East
    case North => South
    case South => North
  }

  /** Router ids are assigned row by row. */
  function At(g: Shape, row: nat, col: nat): nat {
    col + Times(row, g.cols)
  }

  function Row(g: Shape, a: nat): nat
    requires g.cols > 0
  {
    Quot(a, g.cols)
  }

  function Col(g: Shape, a: nat): nat
    requires g.cols > 0
  {
    Rem(a, g.cols)
  }

  predicate IsRouter(g: Shape, a: nat) {
    g.cols > 0 && a < Times(g.rows, g.cols)
  }

  /** Router a has a neighbour in direction d. */
  predicate HasStep(g: Shape, a: nat, d: Direction)
    requires IsRouter(g, a)
  {
    match d
    case East => Col(g, a) + 1 < g.cols
    case West => Col(g, a) > 0
    case North => Row(g, a) + 1 < g.rows
    case South => Row(g, a) > 0
  }

  function Step(g: Shape, a: nat, d: Direction): int
    requires IsRouter(g, a)
  {
    match d
    case East => a + 1
    case West => a - 1
    case North => a + g.cols
    case South => a - g.cols
  }

  /** Position and id determine each other. */
  lemma {:induction false} Coordinates(g: Shape, row: nat, col: nat)
    requires row < g.rows && col < g.cols
    ensures IsRouter(g, At(g, row, col))
    ensures Row(g, At(g, row, col)) == row && Col(g, At(g, row, col)) == col
  {
    Decode(row, col, g.cols);
    TimesMonotone(row, g.rows, g.cols);
  }

  lemma {:induction false} CoordinatesInverse(g: Shape, a: nat)
    requires IsRouter(g, a)
    ensures Row(g, a) < g.rows && Col(g, a) < g.cols
    ensures At(g, Row(g, a), Col(g, a)) == a
  {
    Encode(a, g.cols);
    QuotBound(a, g.rows, g.cols);
  }

  /** A step stays on the grid and moves one coordinate by one. */
  lemma {:induction false} StepMoves(g: Shape, a: nat, d: Direction)
    requires IsRouter(g, a) && HasStep(g, a, d)
    ensures Step(g, a, d) >= 0 && IsRouter(g, Step(g, a, d))
    ensures Row(g, Step(g, a, d)) == Row(g, a) + (match d case North => 1 case South => -1 case _ => 0)
    ensures Col(g, Step(g, a, d)) == Col(g, a) + (match d case East => 1 case West => -1 case _ => 0)
  {
    CoordinatesInverse(g, a);
    var row, col := Row(g, a), Col(g, a);
    match d {
      case East => Coordinates(g, row, col + 1);
      case West => Coordinates(g, row, col - 1);
      case North =>
        Coordinates(g, row + 1, col);
      case South =>
        Coordinates(g, row - 1, col);
    }
  }

  lemma {:induction false} StepsDiffer(g: Shape, a: nat, d: Direction, e: Direction)
    requires IsRouter(g, a) && HasStep(g, a, d) && HasStep(g, a, e) && d != e
    ensures Step(g, a, d) != Step(g, a, e)
  {
    StepMoves(g, a, d);
    StepMoves(g, a, e);
  }

  // ---- Internal links ----

  /** The four nested loops run rows by columns, then columns by rows. */
  function Outer(g: Shape, d: Direction): nat {
    if d.East? || d.West? then g.rows else g.cols
  }

  function Inner(g: Shape, d: Direction): nat {
    if d.East? || d.West? then g.cols else g.rows
  }

  function PortOf(s: Scheme, d: Direction): Port {
    if s.XY? then Named(d) else Unnamed
  }

  /** Source router of the link emitted for direction d at loop position (outer, inner). */
  function Source(g: Shape, d: Direction, outer: nat, inner: nat): nat {
    match d
    case East => At(g, outer, inner)
    case West => At(g, outer, inner + 1)
    case North => At(g, inner, outer)
    case South => At(g, inner + 1, outer)
  }

  function Target(g: Shape, d: Direction, outer: nat, inner: nat): nat {
    match d
    case East => At(g, outer, inner + 1)
    case West => At(g, outer, inner)
    case North => At(g, inner + 1, outer)
    case South => At(g, inner, outer)
  }

  function LinkFor(s: Scheme, g: Shape, d: Direction, outer: nat, inner: nat, id: int): IntLink {
    IntLink(id, Source(g, d, outer, inner), Target(g, d, outer, inner),
            PortOf(s, d), PortOf(s, Opposite(d)), Weight(s, d))
  }

  /** How many links one pass of the inner loop emits. */
  function RowSize(g: Shape, d: Direction): nat {
    if Inner(g, d) == 0 then 0 else Inner(g, d) - 1
  }

  function RowLinks(s: Scheme, g: Shape, d: Direction, base: int, outer: nat): seq<IntLink> {
    seq(RowSize(g, d), inner requires 0 <= inner => LinkFor(s, g, d, outer, inner, base + inner))
  }

  /** The links of one direction after k passes of the outer loop. */
  function Block(s: Scheme, g: Shape, d: Direction, base: int, k: nat): seq<IntLink> {
    if k == 0 then []
    else Block(s, g, d, base, k - 1) + RowLinks(s, g, d, base + Times(k - 1, RowSize(g, d)), k - 1)
  }

  ghost function BlockSize(g: Shape, d: Direction): nat {
    Times(Outer(g, d), RowSize(g, d))
  }

  /** Start of a direction's block within the full list. */
  ghost function Offset(g: Shape, d: Direction): nat {
    match d
    case East => 0
    case West => BlockSize(g, East)
    case North => 2 * BlockSize(g, East)
    case South => 2 * BlockSize(g, East) + BlockSize(g, North)
  }

  ghost function DirLinks(s: Scheme, g: Shape, d: Direction, base: int): seq<IntLink> {
    Block(s, g, d, base + Offset(g, d), Outer(g, d))
  }

  /** All internal links, before any removal: East, West, North, South. */
  ghost function FullLinks(s: Scheme, g: Shape, base: int): seq<IntLink> {
    DirLinks(s, g, East, base) + DirLinks(s, g, West, base) + DirLinks(s, g, North, base) + DirLinks(s, g, South, base)
  }

  /** The links that survive `links_to_remove`, which names ids less 32. */
  ghost function Kept(links: seq<IntLink>, removed: set<int>): seq<IntLink> {
    if links == [] then []
    else
      var l := links[|links| - 1];
      Kept(links[..|links| - 1], removed) + (if l.linkId - 32 in removed then [] else [l])
  }

  lemma {:induction false} KeptOfConcat(a: seq<IntLink>, b: seq<IntLink>, removed: set<int>)
    ensures Kept(a + b, removed) == Kept(a, removed) + Kept(b, removed)
  {
    if b == [] {
      assert a + b == a;
    } else {
      KeptOfConcat(a, b[..|b| - 1], removed);
      assert (a + b)[..|a + b| - 1] == a + b[..|b| - 1];
    }
  }

  /** Removal keeps exactly the links whose id less 32 is not named. */
  lemma {:induction false} KeptExactly(links: seq<IntLink>, removed: set<int>, l: IntLink)
    ensures l in Kept(links, removed) <==> l in links && l.linkId - 32 !in removed
  {
    if links != [] {
      KeptExactly(links[..|links| - 1], removed, l);
      assert links == links[..|links| - 1] + [links[|links| - 1]];
    }
  }

  lemma {:induction false} NothingRemoved(links: seq<IntLink>)
    ensures Kept(links, {}) == links
  {
    if links != [] {
      NothingRemoved(links[..|links| - 1]);
    }
  }

  lemma {:induction false} KeptStep(links: seq<IntLink>, n: nat, removed: set<int>)
    requires n < |links|
    ensures Kept(links[..n + 1], removed)
         == Kept(links[..n], removed) + (if links[n].linkId - 32 in removed then [] else [links[n]])
  {
    assert links[..n + 1][..n] == links[..n];
  }

  /** One inner loop of makeTopology. */
  method EmitRow(s: Scheme, g: Shape, d: Direction, base: int, removed: set<int>, outer: nat)
    returns (links: seq<IntLink>, linkCount: int)
    ensures links == Kept(RowLinks(s, g, d, base, outer), removed)
    ensures linkCount == base + RowSize(g, d)
  {
    ghost var all := RowLinks(s, g, d, base, outer);
    links, linkCount := [], base;
    for inner := 0 to Inner(g, d)
      invariant linkCount == base + (if inner < Inner(g, d) then inner else RowSize(g, d))
      invariant links == Kept(all[..linkCount - base], removed)
    {
      if inner + 1 < Inner(g, d) {
        KeptStep(all, inner, removed);
        assert all[inner] == LinkFor(s, g, d, outer, inner, linkCount);
        if linkCount - 32 in removed {
          linkCount := linkCount + 1;
          continue;
        }
        links := links + [LinkFor(s, g, d, outer, inner, linkCount)];
        linkCount := linkCount + 1;
      }
    }
    assert all[..|all|] == all;
  }

  /** One pair of nested loops of makeTopology. */
  method EmitBlock(s: Scheme, g: Shape, d: Direction, base: int, removed: set<int>)
    returns (links: seq<IntLink>, linkCount: int)
    ensures links == Kept(Block(s, g, d, base, Outer(g, d)), removed)
    ensures linkCount == base + BlockSize(g, d)
  {
    links, linkCount := [], base;
    for outer := 0 to Outer(g, d)
      invariant linkCount == base + Times(outer, RowSize(g, d))
      invariant links == Kept(Block(s, g, d, base, outer), removed)
    {
      KeptOfConcat(Block(s, g, d, base, outer), RowLinks(s, g, d, linkCount, outer), removed);
      var row;
      row, linkCount := EmitRow(s, g, d, linkCount, removed, outer);
      links := links + row;
    }
  }

  // ---- What the full link list is ----

  /** Position, within its direction's block, of the link leaving router a. */
  ghost function StepNumber(g: Shape, a: nat, d: Direction): int
    requires IsRouter(g, a)
  {
    match d
    case East => Times(Row(g, a), RowSize(g, d)) + Col(g, a)
    case West => Times(Row(g, a), RowSize(g, d)) + Col(g, a) - 1
    case North => Times(Col(g, a), RowSize(g, d)) + Row(g, a)
    case South => Times(Col(g, a), RowSize(g, d)) + Row(g, a) - 1
  }

  /** A link that is the step from its source in direction d. */
  ghost predicate StepLink(s: Scheme, g: Shape, l: IntLink, d: Direction) {
    && IsRouter(g, l.src) && HasStep(g, l.src, d) && l.dst == Step(g, l.src, d)
    && l.weight == Weight(s, d) && l.outport == PortOf(s, d) && l.inport == PortOf(s, Opposite(d))
  }

  /** Such a link, numbered by its step. */
  ghost predicate IsStepLink(s: Scheme, g: Shape, first: int, l: IntLink, d: Direction) {
    StepLink(s, g, l, d) && l.linkId == first + StepNumber(g, l.src, d)
  }

  lemma {:induction false} LinkForIsStep(s: Scheme, g: Shape, d: Direction, first: int, outer: nat, inner: nat)
    requires outer < Outer(g, d) && inner < RowSize(g, d)
    ensures IsStepLink(s, g, first, LinkFor(s, g, d, outer, inner, first + Times(outer, RowSize(g, d)) + inner), d)
  {
    PositionIsStep(g, d, outer, inner);
  }

  lemma {:induction false} PositionIsStep(g: Shape, d: Direction, outer: nat, inner: nat)
    requires outer < Outer(g, d) && inner < RowSize(g, d)
    ensures var a := Source(g, d, outer, inner);
      && IsRouter(g, a) && HasStep(g, a, d) && Target(g, d, outer, inner) == Step(g, a, d)
      && StepNumber(g, a, d) == Times(outer, RowSize(g, d)) + inner
  {
    if d.East? || d.West? {
      Coordinates(g, outer, if d.East? then inner else inner + 1);
    } else {
      VerticalPosition(g, d, outer, inner);
    }
  }

  lemma {:induction false} VerticalPosition(g: Shape, d: Direction, outer: nat, inner: nat)
    requires (d.North? || d.South?) && outer < g.cols && inner + 1 < g.rows
    ensures var a := Source(g, d, outer, inner);
      && IsRouter(g, a) && HasStep(g, a, d) && Target(g, d, outer, inner) == Step(g, a, d)
      && StepNumber(g, a, d) == Times(outer, RowSize(g, d)) + inner
  {
    var row := if d.North? then inner else inner + 1;
    Coordinates(g, row, outer);
    assert At(g, inner + 1, outer) == At(g, inner, outer) + g.cols;
  }

  /** Link ids count up from base. */
  ghost predicate Numbered(links: seq<IntLink>, base: int) {
    forall n :: 0 <= n < |links| ==> links[n].linkId == base + n
  }

  lemma {:induction false} NumberedConcat(a: seq<IntLink>, b: seq<IntLink>, base: int)
    requires Numbered(a, base) && Numbered(b, base + |a|)
    ensures Numbered(a + b, base)
  {
  }

  lemma {:induction false} RowNumbered(s: Scheme, g: Shape, d: Direction, base: int, outer: nat)
    ensures Numbered(RowLinks(s, g, d, base, outer), base)
  {
    forall n | 0 <= n < RowSize(g, d)
      ensures RowLinks(s, g, d, base, outer)[n].linkId == base + n
    {
      assert RowLinks(s, g, d, base, outer)[n] == LinkFor(s, g, d, outer, n, base + n);
    }
  }

  lemma {:induction false} BlockNumbered(s: Scheme, g: Shape, d: Direction, base: int, k: nat)
    ensures |Block(s, g, d, base, k)| == Times(k, RowSize(g, d))
    ensures Numbered(Block(s, g, d, base, k), base)
  {
    if k > 0 {
      BlockNumbered(s, g, d, base, k - 1);
      var first := base + Times(k - 1, RowSize(g, d));
      RowNumbered(s, g, d, first, k - 1);
      NumberedConcat(Block(s, g, d, base, k - 1), RowLinks(s, g, d, first, k - 1), base);
    }
  }

  /** A block holds steps in its own direction only. */
  lemma {:induction false} BlockSteps(s: Scheme, g: Shape, d: Direction, base: int, k: nat, l: IntLink)
    requires k <= Outer(g, d) && l in Block(s, g, d, base, k)
    ensures IsStepLink(s, g, base, l, d)
  {
    if l in Block(s, g, d, base, k - 1) {
      BlockSteps(s, g, d, base, k - 1, l);
    } else {
      var first := base + Times(k - 1, RowSize(g, d));
      var inner :| 0 <= inner < RowSize(g, d) && l == RowLinks(s, g, d, first, k - 1)[inner];
      LinkForIsStep(s, g, d, base, k - 1, inner);
    }
  }

  /** A block holds the link of every loop position passed so far. */
  lemma {:induction false} BlockHas(s: Scheme, g: Shape, d: Direction, base: int, k: nat, outer: nat, inner: nat)
    requires outer < k && inner < RowSize(g, d)
    ensures LinkFor(s, g, d, outer, inner, base + Times(outer, RowSize(g, d)) + inner) in Block(s, g, d, base, k)
  {
    if outer < k - 1 {
      BlockHas(s, g, d, base, k - 1, outer, inner);
    } else {
      var first := base + Times(outer, RowSize(g, d));
      assert RowLinks(s, g, d, first, outer)[inner] == LinkFor(s, g, d, outer, inner, first + inner);
    }
  }

  /** The mesh loops emit 2(R(C-1) + C(R-1)) links. */
  lemma {:induction false} FullLinksCount(s: Scheme, g: Shape, base: int)
    requires g.rows > 0 && g.cols > 0
    ensures |FullLinks(s, g, base)| == 2 * (g.rows * (g.cols - 1) + g.cols * (g.rows - 1))
  {
    TimesIsProduct(g.rows, g.cols - 1);
    TimesIsProduct(g.cols, g.rows - 1);
    DirNumbered(s, g, East, base);
    DirNumbered(s, g, West, base);
    DirNumbered(s, g, North, base);
    DirNumbered(s, g, South, base);
  }

  lemma {:induction false} DirNumbered(s: Scheme, g: Shape, d: Direction, base: int)
    ensures |DirLinks(s, g, d, base)| == BlockSize(g, d)
    ensures Numbered(DirLinks(s, g, d, base), base + Offset(g, d))
  {
    BlockNumbered(s, g, d, base + Offset(g, d), Outer(g, d));
  }

  lemma {:induction false} FourNumbered(a: seq<IntLink>, b: seq<IntLink>, c: seq<IntLink>, d: seq<IntLink>, base: int)
    requires Numbered(a, base) && Numbered(b, base + |a|)
    requires Numbered(c, base + |a| + |b|) && Numbered(d, base + |a| + |b| + |c|)
    ensures Numbered(a + b + c + d, base)
  {
    NumberedConcat(a, b, base);
    NumberedConcat(a + b, c, base);
    NumberedConcat(a + b + c, d, base);
  }

  /** Link ids are unique and contiguous, counting up from base. */
  lemma {:induction false} FullLinksNumbered(s: Scheme, g: Shape, base: int)
    ensures Numbered(FullLinks(s, g, base), base)
  {
    DirNumbered(s, g, East, base);
    DirNumbered(s, g, West, base);
    DirNumbered(s, g, North, base);
    DirNumbered(s, g, South, base);
    assert BlockSize(g, West) == BlockSize(g, East);
    FourNumbered(DirLinks(s, g, East, base), DirLinks(s, g, West, base),
                 DirLinks(s, g, North, base), DirLinks(s, g, South, base), base);
  }

  /** Every link is a step to a neighbour in some direction, with that
      direction's weight. */
  lemma {:induction false} FullLinksAreSteps(s: Scheme, g: Shape, base: int, l: IntLink)
    requires l in FullLinks(s, g, base)
    ensures exists d :: IsStepLink(s, g, base + Offset(g, d), l, d)
  {
    var d :| l in DirLinks(s, g, d, base);
    BlockSteps(s, g, d, base + Offset(g, d), Outer(g, d), l);
  }

  /** Every step to a neighbour has its link. */
  lemma {:induction false} FullLinksComplete(s: Scheme, g: Shape, base: int, a: nat, d: Direction)
    requires IsRouter(g, a) && HasStep(g, a, d)
    ensures exists l :: l in FullLinks(s, g, base) && l.src == a && IsStepLink(s, g, base + Offset(g, d), l, d)
  {
    CoordinatesInverse(g, a);
    var (row, col) := (Row(g, a), Col(g, a));
    match d {
      case East => LinkOfPosition(s, g, base, d, row, col);
      case West => LinkOfPosition(s, g, base, d, row, col - 1);
      case North => LinkOfPosition(s, g, base, d, col, row);
      case South => LinkOfPosition(s, g, base, d, col, row - 1);
    }
  }

  lemma {:induction false} LinkOfPosition(s: Scheme, g: Shape, base: int, d: Direction, outer: nat, inner: nat)
    requires outer < Outer(g, d) && inner < RowSize(g, d)
    ensures exists l ::
      && l in FullLinks(s, g, base) && l.src == Source(g, d, outer, inner)
      && IsStepLink(s, g, base + Offset(g, d), l, d)
  {
    var first := base + Offset(g, d);
    var l := PositionLink(s, g, d, first, outer, inner);
    InFull(s, g, base, d, l);
  }

  lemma {:induction false} PositionLink(s: Scheme, g: Shape, d: Direction, first: int, outer: nat, inner: nat)
    returns (l: IntLink)
    requires outer < Outer(g, d) && inner < RowSize(g, d)
    ensures l in Block(s, g, d, first, Outer(g, d)) && l.src == Source(g, d, outer, inner)
    ensures IsStepLink(s, g, first, l, d)
  {
    l := LinkFor(s, g, d, outer, inner, first + Times(outer, RowSize(g, d)) + inner);
    BlockHas(s, g, d, first, Outer(g, d), outer, inner);
    LinkForIsStep(s, g, d, first, outer, inner);
  }

  lemma {:induction false} InFull(s: Scheme, g: Shape, base: int, d: Direction, l: IntLink)
    requires l in DirLinks(s, g, d, base)
    ensures l in FullLinks(s, g, base)
  {
  }

  ghost predicate Stepping(s: Scheme, g: Shape, l: IntLink) {
    exists d :: StepLink(s, g, l, d)
  }

  ghost predicate Linked(s: Scheme, g: Shape, links: seq<IntLink>, a: nat, d: Direction) {
    exists l :: l in links && l.src == a && StepLink(s, g, l, d)
  }

  /** The links of a list are the steps to neighbours, all of them and no others. */
  ghost predicate NeighbourLinks(s: Scheme, g: Shape, links: seq<IntLink>) {
    && (forall l {:trigger Stepping(s, g, l)} :: l in links ==> Stepping(s, g, l))
    && (forall a: nat, d {:trigger Linked(s, g, links, a, d)} ::
          IsRouter(g, a) && HasStep(g, a, d) ==> Linked(s, g, links, a, d))
  }

  /** The mesh loops emit a link for every directed neighbour pair and no other. */
  lemma {:induction false} FullLinksAreNeighbours(s: Scheme, g: Shape, base: int)
    ensures NeighbourLinks(s, g, FullLinks(s, g, base))
  {
    forall l | l in FullLinks(s, g, base)
      ensures Stepping(s, g, l)
    {
      FullLinksAreSteps(s, g, base, l);
      var d :| IsStepLink(s, g, base + Offset(g, d), l, d);
    }
    forall a: nat, d | IsRouter(g, a) && HasStep(g, a, d)
      ensures Linked(s, g, FullLinks(s, g, base), a, d)
    {
      FullLinksComplete(s, g, base, a, d);
      var l :| l in FullLinks(s, g, base) && l.src == a && IsStepLink(s, g, base + Offset(g, d), l, d);
    }
  }

  /** No directed neighbour pair is linked twice. */
  lemma {:induction false} FullLinksUnique(s: Scheme, g: Shape, base: int, j: nat, k: nat)
    requires j < |FullLinks(s, g, base)| && k < |FullLinks(s, g, base)|
    requires FullLinks(s, g, base)[j].src == FullLinks(s, g, base)[k].src
    requires FullLinks(s, g, base)[j].dst == FullLinks(s, g, base)[k].dst
    ensures j == k
  {
    var l, m := FullLinks(s, g, base)[j], FullLinks(s, g, base)[k];
    FullLinksNumbered(s, g, base);
    FullLinksAreSteps(s, g, base, l);
    FullLinksAreSteps(s, g, base, m);
    var d :| IsStepLink(s, g, base + Offset(g, d), l, d);
    var e :| IsStepLink(s, g, base + Offset(g, e), m, e);
    if d != e {
      StepsDiffer(g, l.src, d, e);
    }
  }
}
