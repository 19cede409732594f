/** Which entries the link map of a mesh holds. */
module LinkFacts {
  import opened Mesh
  import opened Topology

  ghost predicate IsExtKey(n: nat, ext: seq<ExtLink>, k: (nat, nat)) {
    exists l :: l in ext && (k == (l.node, 2 * n + l.router) || k == (2 * n + l.router, n + l.node))
  }

  /** The external part of the map: both directions of every external link. */
  lemma {:induction false} ExtKeys(n: nat, ext: seq<ExtLink>, k: (nat, nat))
    ensures k in ExtMap(n, ext) <==> IsExtKey(n, ext, k)
    ensures k in ExtMap(n, ext) ==> ExtMap(n, ext)[k].weight == EXT_WEIGHT
  {
    if ext != [] {
      var last := |ext| - 1;
      ExtKeys(n, ext[..last], k);
      assert forall l :: l in ext <==> l in ext[..last] || l == ext[last];
    }
  }

  ghost predicate IsIntKey(n: nat, ints: seq<IntLink>, k: (nat, nat), e: LinkEntry) {
    exists l :: l in ints && k == (2 * n + l.src, 2 * n + l.dst) && e == LinkEntry(l.weight, l.outport, l.inport)
  }

  /** An entry comes from an internal link, or else is an untouched external one. */
  lemma {:induction false} IntKeys(n: nat, ext: seq<ExtLink>, ints: seq<IntLink>, k: (nat, nat))
    requires k in IntMap(n, ext, ints)
    ensures IsIntKey(n, ints, k, IntMap(n, ext, ints)[k])
         || (k in ExtMap(n, ext) && IntMap(n, ext, ints)[k] == ExtMap(n, ext)[k])
  {
    if ints != [] {
      var last := |ints| - 1;
      var l := ints[last];
      if k == (2 * n + l.src, 2 * n + l.dst) {
        assert l in ints;
      } else {
        IntKeys(n, ext, ints[..last], k);
        assert forall m :: m in ints[..last] ==> m in ints;
      }
    }
  }

  lemma {:induction false} IntMapHasExt(n: nat, ext: seq<ExtLink>, ints: seq<IntLink>, k: (nat, nat))
    requires k in ExtMap(n, ext)
    ensures k in IntMap(n, ext, ints)
  {
    if ints != [] {
      IntMapHasExt(n, ext, ints[..|ints| - 1], k);
    }
  }

  lemma {:induction false} IntMapHasInt(n: nat, ext: seq<ExtLink>, ints: seq<IntLink>, l: IntLink)
    requires l in ints
    ensures (2 * n + l.src, 2 * n + l.dst) in IntMap(n, ext, ints)
  {
    var last := |ints| - 1;
    if l != ints[last] {
      IntMapHasInt(n, ext, ints[..last], l);
    }
  }

  // ---- A mesh with its controllers ----

  /** Controllers are numbered below their count, each attached to one router of
      the grid, and the internal links are the grid's neighbour links. */
  ghost predicate MeshNet(s: Scheme, g: Shape, ext: seq<ExtLink>, ints: seq<IntLink>) {
    && g.rows > 0 && g.cols > 0 && |ext| > 1
    && (forall l :: l in ext ==> l.node < |ext| && IsRouter(g, l.router))
    && (forall l, m :: l in ext && m in ext && l.node == m.node ==> l.router == m.router)
    && NeighbourLinks(s, g, ints)
  }

  /** An entry for a step in direction d from router a. */
  ghost predicate IsStepKey(s: Scheme, g: Shape, n: nat, k: (nat, nat), e: LinkEntry, a: nat, d: Direction) {
    && IsRouter(g, a) && HasStep(g, a, d)
    && k.0 == 2 * n + a && k.1 == 2 * n + Step(g, a, d)
    && e.weight == Weight(s, d) && e.outport == PortOf(s, d) && e.inport == PortOf(s, Opposite(d))
  }

  /** An entry for one of the two directions of an external link. */
  ghost predicate IsExtEntry(n: nat, k: (nat, nat), e: LinkEntry, l: ExtLink) {
    (k == (l.node, 2 * n + l.router) || k == (2 * n + l.router, n + l.node)) && e.weight == EXT_WEIGHT
  }

  /** Every entry is an external link or a step to a neighbour. */
  lemma {:induction false} MeshKeys(s: Scheme, g: Shape, ext: seq<ExtLink>, ints: seq<IntLink>, k: (nat, nat))
    returns (isStep: bool, a: nat, d: Direction, l: ExtLink)
    requires MeshNet(s, g, ext, ints) && k in LinksOf(ext, ints)
    ensures isStep ==> IsStepKey(s, g, |ext|, k, LinksOf(ext, ints)[k], a, d)
    ensures !isStep ==> l in ext && IsExtEntry(|ext|, k, LinksOf(ext, ints)[k], l)
  {
    var n := |ext|;
    var e := LinksOf(ext, ints)[k];
    IntKeys(n, ext, ints, k);
    isStep, a, d, l := IsIntKey(n, ints, k, e), 0, East, ext[0];
    if isStep {
      var i :| i in ints && k == (2 * n + i.src, 2 * n + i.dst) && e == LinkEntry(i.weight, i.outport, i.inport);
      assert Stepping(s, g, i);
      a := i.src;
      d :| StepLink(s, g, i, d);
    } else {
      ExtKeys(n, ext, k);
      l :| l in ext && (k == (l.node, 2 * n + l.router) || k == (2 * n + l.router, n + l.node));
    }
  }

  /** Every external link is in the map, in both directions, with weight 1. */
  lemma {:induction false} MeshExt(s: Scheme, g: Shape, ext: seq<ExtLink>, ints: seq<IntLink>, l: ExtLink,
          k: (nat, nat))
    requires MeshNet(s, g, ext, ints) && l in ext
    requires k == (l.node, 2 * |ext| + l.router) || k == (2 * |ext| + l.router, |ext| + l.node)
    ensures k in LinksOf(ext, ints) && LinksOf(ext, ints)[k].weight == EXT_WEIGHT
  {
    ExtKeys(|ext|, ext, k);
    IntMapHasExt(|ext|, ext, ints, k);
    var isStep, a, d, m := MeshKeys(s, g, ext, ints, k);
  }

  /** Every step to a neighbour is in the map with its direction's weight and name. */
  lemma {:induction false} MeshStep(s: Scheme, g: Shape, ext: seq<ExtLink>, ints: seq<IntLink>, a: nat, d: Direction,
          k: (nat, nat))
    requires MeshNet(s, g, ext, ints) && IsRouter(g, a) && HasStep(g, a, d)
    requires k.0 == 2 * |ext| + a && k.1 == 2 * |ext| + Step(g, a, d)
    ensures k in LinksOf(ext, ints) && IsStepKey(s, g, |ext|, k, LinksOf(ext, ints)[k], a, d)
  {
    StepMoves(g, a, d);
    assert Linked(s, g, ints, a, d);
    var l :| l in ints && l.src == a && StepLink(s, g, l, d);
    IntMapHasInt(|ext|, ext, ints, l);
    var isStep, b, e, m := MeshKeys(s, g, ext, ints, k);
    if d != e {
      StepsDiffer(g, a, d, e);
    }
  }
}
