/** Why a network of worms drains: every move of a flit leaves less to do. */
module WormWork {
  import opened Results
  import opened Grid
  import opened Fabric
  import opened Worms

  /** What the buffered flits have still to do: those at the front cost c each, those
      one channel behind c + 1, and so on. */
  ghost function FlitWork(fs: seq<nat>, c: nat): nat
    decreases |fs|
  {
    if fs == [] then 0 else Times(fs[|fs| - 1], c) + FlitWork(fs[..|fs| - 1], c + 1)
  }

  lemma {:induction false} TimesGrows(n: nat, c: nat, d: nat)
    requires c <= d
    ensures Times(n, c) <= Times(n, d)
  {
    if n > 0 {
      TimesGrows(n - 1, c, d);
    }
  }

  lemma {:induction false} FlitWorkGrows(fs: seq<nat>, c: nat, d: nat)
    requires c <= d
    ensures FlitWork(fs, c) <= FlitWork(fs, d)
    decreases |fs|
  {
    if fs != [] {
      TimesGrows(fs[|fs| - 1], c, d);
      FlitWorkGrows(fs[..|fs| - 1], c + 1, d + 1);
    }
  }

  /** One flit more at channel k costs as much as its way from there. */
  lemma {:induction false} FlitWorkMore(fs: seq<nat>, k: nat, c: nat)
    requires k < |fs|
    ensures FlitWork(fs[k := fs[k] + 1], c) == FlitWork(fs, c) + c + (|fs| - 1 - k)
    decreases |fs|
  {
    var last := |fs| - 1;
    if k == last {
      assert fs[k := fs[k] + 1][..last] == fs[..last];
    } else {
      FlitWorkMore(fs[..last], k, c + 1);
      assert fs[k := fs[k] + 1][..last] == fs[..last][k := fs[k] + 1];
    }
  }

  lemma {:induction false} FlitWorkLess(fs: seq<nat>, k: nat, c: nat)
    requires k < |fs| && fs[k] > 0
    ensures FlitWork(fs[k := fs[k] - 1], c) == FlitWork(fs, c) - c - (|fs| - 1 - k)
  {
    var fewer := fs[k := fs[k] - 1];
    FlitWorkMore(fewer, k, c);
    assert fewer[k := fewer[k] + 1] == fs;
  }

  /** A head flit that moves on to a channel with a shorter way takes work off all. */
  lemma {:induction false} FlitWorkLead(fs: seq<nat>, c: nat, d: nat)
    requires fs != [] && fs[|fs| - 1] > 0 && d < c
    ensures FlitWork(fs[..|fs| - 1] + [fs[|fs| - 1] - 1] + [1], d) < FlitWork(fs, c)
  {
    var last := |fs| - 1;
    var mid := fs[..last] + [fs[last] - 1];
    assert (mid + [1])[..last + 1] == mid && mid[..last] == fs[..last];
    assert FlitWork(mid + [1], d) == Times(1, d) + FlitWork(mid, d + 1);
    TimesGrows(fs[last] - 1, d + 1, c);
    FlitWorkGrows(fs[..last], d + 2, c + 1);
    assert Times(1, d) == d;
  }

  lemma {:induction false} FlitWorkDrop(fs: seq<nat>, c: nat)
    requires fs != [] && fs[0] == 0
    ensures FlitWork(fs[1..], c) == FlitWork(fs, c)
    decreases |fs|
  {
    var last := |fs| - 1;
    if last > 0 {
      FlitWorkDrop(fs[..last], c + 1);
      assert fs[..last][1..] == fs[1..][..last - 1];
    } else {
      assert fs[..0] == [] && fs[1..] == [];
    }
  }

  /** What a flit at the front has still to do. */
  ghost function FrontCost<C, D>(f: Fabric<C, D>, w: Worm<C, D>): nat
    requires w.packet.trail != []
  {
    f.left(w.packet.dest, Head(w.packet)) + 1
  }

  /** What is left to do for a worm: its flits' ways, counted twice, and its VCs. */
  ghost function WormWork<C, D>(f: Fabric<C, D>, w: Worm<C, D>): nat
    requires w.packet.trail != []
  {
    var c := FrontCost(f, w);
    2 * (FlitWork(w.flits, c) + Times(w.toSend, c + |w.flits|)) + |w.flits|
  }

  lemma {:induction false} FedWorks<C(!new), D(!new)>(f: Fabric<C, D>, w: Worm<C, D>)
    requires w.packet.trail != [] && w.flits != [] && w.toSend > 0
    ensures WormWork(f, Fed(w)) < WormWork(f, w)
  {
    FlitWorkMore(w.flits, 0, FrontCost(f, w));
  }

  lemma {:induction false} LedWorks<C(!new), D(!new)>(f: Fabric<C, D>, w: Worm<C, D>, out: Option<C>, now: nat)
    requires Ranked(f) && PacketOk(f, w.packet) && w.packet.out.Some?
    requires w.flits != [] && w.flits[|w.flits| - 1] > 0
    ensures WormWork(f, Led(w, out, now)) < WormWork(f, w)
  {
    var v := Led(w, out, now);
    var c, d := FrontCost(f, w), FrontCost(f, v);
    WayShortens(f, w.packet);
    assert Head(v.packet) == w.packet.out.value;
    FlitWorkLead(w.flits, c, d);
    TimesGrows(w.toSend, d + |v.flits|, c + |w.flits|);
  }

  lemma {:induction false} WayShortens<C(!new), D(!new)>(f: Fabric<C, D>, p: Packet<C, D>)
    requires Ranked(f) && PacketOk(f, p) && p.out.Some?
    ensures f.left(p.dest, p.out.value) < f.left(p.dest, Head(p))
  {
    assert f.mayHold(p.dest, Head(p));
  }

  lemma {:induction false} FollowedWorks<C(!new), D(!new)>(f: Fabric<C, D>, w: Worm<C, D>, k: nat)
    requires w.packet.trail != [] && k + 1 < |w.flits| && w.flits[k] > 0
    ensures WormWork(f, Followed(w, k)) < WormWork(f, w)
  {
    var c := FrontCost(f, w);
    FlitWorkLess(w.flits, k, c);
    FlitWorkMore(w.flits[k := w.flits[k] - 1], k + 1, c);
  }

  lemma {:induction false} TakenWorks<C(!new), D(!new)>(f: Fabric<C, D>, w: Worm<C, D>)
    requires w.packet.trail != [] && w.flits != [] && w.flits[|w.flits| - 1] > 0
    ensures WormWork(f, Taken(w)) < WormWork(f, w)
  {
    FlitWorkLess(w.flits, |w.flits| - 1, FrontCost(f, w));
  }

  lemma {:induction false} FreedWorks<C(!new), D(!new)>(f: Fabric<C, D>, w: Worm<C, D>)
    requires |w.flits| == |w.packet.trail| == |w.packet.since| && |w.flits| > 1
    requires w.toSend == 0 && w.flits[0] == 0
    ensures WormWork(f, Freed(w)) < WormWork(f, w)
  {
    FlitWorkDrop(w.flits, FrontCost(f, w));
  }

  ghost predicate Routed<C, D>(st: Flow<C, D>) {
    forall i :: 0 <= i < |st| ==> st[i].packet.trail != []
  }

  ghost function FlowWork<C(!new), D>(f: Fabric<C, D>, st: Flow<C, D>): nat
    requires Routed(st)
  {
    if st == [] then 0 else FlowWork(f, st[..|st| - 1]) + WormWork(f, st[|st| - 1])
  }

  lemma {:induction false} FlowWorkUpdate<C(!new), D>(f: Fabric<C, D>, st: Flow<C, D>, i: nat, w: Worm<C, D>)
    requires i < |st| && w.packet.trail != [] && Routed(st)
    ensures FlowWork(f, st[i := w]) == FlowWork(f, st) - WormWork(f, st[i]) + WormWork(f, w)
  {
    var last := |st| - 1;
    if i == last {
      assert st[i := w][..last] == st[..last];
    } else {
      FlowWorkUpdate(f, st[..last], i, w);
      assert st[i := w][..last] == st[..last][i := w];
    }
  }

  lemma {:induction false} FlowWorkRemove<C(!new), D>(f: Fabric<C, D>, st: Flow<C, D>, i: nat)
    requires i < |st| && Routed(st)
    ensures FlowWork(f, st[..i] + st[i + 1..]) == FlowWork(f, st) - WormWork(f, st[i])
  {
    var last := |st| - 1;
    var rest := st[..i] + st[i + 1..];
    if i == last {
      assert rest == st[..last];
    } else {
      RemoveButLast(st, i);
      FlowWorkRemove(f, st[..last], i);
    }
  }

  /** Every move but the entry of a packet leaves less to do. */
  lemma {:induction false} FlowWorkShrinks<C(!new), D(!new)>(f: Fabric<C, D>, depth: nat, st: Flow<C, D>, m: Move<C, D>)
    requires Ranked(f) && depth > 0 && FlowOk(f, depth, st) && Enabled(f, depth, st, m) && !m.Enter?
    ensures FlowOk(f, depth, Moved(f, depth, st, m))
    ensures FlowWork(f, Moved(f, depth, st, m)) < FlowWork(f, st)
  {
    FlowKept(f, depth, st, m);
    var i := m.i;
    assert WormOk(f, depth, st[i]);
    match m {
      case Feed(_) =>
        FedWorks(f, st[i]);
        FlowWorkUpdate(f, st, i, Fed(st[i]));
      case Lead(_, out, now) =>
        LedWorks(f, st[i], out, now);
        FlowWorkUpdate(f, st, i, Led(st[i], out, now));
      case Follow(_, k) =>
        FollowedWorks(f, st[i], k);
        FlowWorkUpdate(f, st, i, Followed(st[i], k));
      case Take(_) =>
        if st[i].done + 1 == st[i].size {
          FlowWorkRemove(f, st, i);
        } else {
          TakenWorks(f, st[i]);
          FlowWorkUpdate(f, st, i, Taken(st[i]));
        }
      case Free(_) =>
        FreedWorks(f, st[i]);
        FlowWorkUpdate(f, st, i, Freed(st[i]));
    }
  }
}
