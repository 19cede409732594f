/** The arms of a cross are filled one after the other. */
module CrossArms {
  import opened Results
  import opened Fabric
  import opened Worms
  import opened Allocator
  import opened OrderedSafe
  import opened Jam
  import opened Journeys
  import opened Cross

  // ---- Channels nobody is on ----

  ghost predicate Unused<C(!new), D>(st: Flow<C, D>, c: C) {
    forall i :: 0 <= i < |st| ==> c !in st[i].packet.trail
  }

  lemma {:induction false} UnusedHeld<C, D>(st: Flow<C, D>, c: C)
    requires forall i :: 0 <= i < |st| ==> c !in st[i].packet.trail
    ensures Held(Packets(st), c) == 0
    decreases |st|
  {
    if st != [] {
      var n := |st| - 1;
      UnusedHeld(st[..n], c);
      assert Packets(st)[..n] == Packets(st[..n]);
    }
  }

  lemma {:induction false} HeldTogether<C, D>(a: Flow<C, D>, b: Flow<C, D>, c: C)
    ensures Held(Packets(a + b), c) == Held(Packets(a), c) + Held(Packets(b), c)
    decreases |b|
  {
    if b == [] {
      assert a + b == a;
    } else {
      var n := |b| - 1;
      HeldTogether(a, b[..n], c);
      assert (a + b)[..|a| + n] == a + b[..n];
      assert Packets(a + b)[..|a| + n] == Packets((a + b)[..|a| + n]);
      assert Packets(b)[..n] == Packets(b[..n]);
    }
  }

  lemma {:induction false} HeldAtMost<C, D>(st: Flow<C, D>, c: C)
    ensures Held(Packets(st), c) <= |st|
    decreases |st|
  {
    if st != [] {
      var n := |st| - 1;
      HeldAtMost(st[..n], c);
      assert Packets(st)[..n] == Packets(st[..n]);
    }
  }

  /** All but the first hold the channel. */
  lemma {:induction false} HeldByRest<C, D>(st: Flow<C, D>, c: C)
    requires st != [] && c !in st[0].packet.trail
    ensures Held(Packets(st), c) <= |st| - 1
    ensures (forall i :: 1 <= i < |st| ==> c in st[i].packet.trail) ==> Held(Packets(st), c) == |st| - 1
    decreases |st|
  {
    var n := |st| - 1;
    assert Packets(st)[..n] == Packets(st[..n]);
    if n == 0 {
      assert st[..n] == [];
    } else {
      HeldByRest(st[..n], c);
      assert forall i :: 1 <= i < n ==> st[..n][i] == st[i];
    }
  }

  // ---- The arms that stand already ----

  /** The channel is on the way of arm n, before its exit. */
  ghost predicate OnArm<C, D>(x: Cross<C, D>, n: nat, c: C) {
    OffCross(x, c) || c == x.inn(n) || c == x.mid(n)
  }

  /** No arm before uses it. */
  lemma {:induction false} ArmUnused<C(!new), D(!new)>(vcs: nat, x: Cross<C, D>, depth: nat, base: Flow<C, D>,
          n: nat, c: C)
    requires vcs >= 2 && SpotsApart(x) && n < 4 && Standing(vcs, x, depth, base, n) && OnArm(x, n, c)
    ensures Unused(base, c)
  {
    forall i | 0 <= i < |base|
      ensures c !in base[i].packet.trail
    {
      assert SomePlace(x, depth, base, base[i], n);
      var m: nat :| m < n && InPlace(x, depth, base, base[i], m);
    }
  }

  lemma {:induction false} AllSent<C(!new), D(!new)>(vcs: nat, x: Cross<C, D>, depth: nat, base: Flow<C, D>, n: nat)
    requires vcs >= 2 && Standing(vcs, x, depth, base, n)
    ensures forall i :: 0 <= i < |base| ==> base[i].toSend == 0
  {
    forall i | 0 <= i < |base|
      ensures base[i].toSend == 0
    {
      assert SomePlace(x, depth, base, base[i], n);
    }
  }

  lemma {:induction false} UnusedClear<C(!new), D(!new)>(st: Flow<C, D>, c: C, out: Option<C>)
    requires Unused(st, c)
    ensures Clear(st, c, out)
  {
    forall j, l: nat | 0 <= j < |st|
      ensures !WaitsFor(st[j], l, c, out)
    {
      assert c !in st[j].packet.trail;
    }
  }

  // ---- The front's head ----

  /** The channels of a road but the exit are on the arm. */
  lemma {:induction false} RoadOnArm<C(!new), D(!new)>(f: Fabric<C, D>, x: Cross<C, D>, n: nat, j: nat, d: bool, l: nat)
    requires PathFits(f, x, n, j) && l <= |x.path(n, j)| + 1
    ensures OnArm(x, n, Road(x, n, j, d)[l])
  {
    var p := x.path(n, j);
    if l < |p| {
      assert Road(x, n, j, d)[l] == p[l];
    }
  }

  lemma {:induction false} OpenForFront<C(!new), D(!new)>(f: Fabric<C, D>, x: Cross<C, D>, depth: nat,
          base: Flow<C, D>, n: nat)
    requires Fits(f, x) && n < 4 && Standing(f.vcs, x, depth, base, n)
    ensures Open(f, base, Road(x, n, 0, Side(n)), |x.path(n, 0)| + 1)
  {
    var road, last := Road(x, n, 0, Side(n)), |x.path(n, 0)| + 1;
    assert PathFits(f, x, n, 0);
    forall l: nat | l <= last
      ensures Held(Packets(base), road[l]) < f.vcs
      ensures l < last ==> Clear(base, road[l], Some(road[l + 1]))
    {
      RoadOnArm(f, x, n, 0, Side(n), l);
      ArmUnused(f.vcs, x, depth, base, n, road[l]);
      UnusedHeld(base, road[l]);
      if l < last {
        UnusedClear(base, road[l], Some(road[l + 1]));
      }
    }
  }

  lemma {:induction false} FrontComes<C(!new), D(!new)>(f: Fabric<C, D>, x: Cross<C, D>, depth: nat,
          base: Flow<C, D>, n: nat, t: nat)
    returns (w: Worm<C, D>, now: nat)
    requires Ranked(f) && depth > 0 && Fits(f, x) && n < 4 && Standing(f.vcs, x, depth, base, n)
    requires Reachable(f, depth, depth + 1, base) && NotBefore(base, t)
    ensures Reachable(f, depth, depth + 1, base + [w]) && NotBefore(base + [w], now)
    ensures IsLead(x, depth, w, n)
  {
    var p, road := x.path(n, 0), Road(x, n, 0, Side(n));
    var last := |p| + 1;
    assert PathFits(f, x, n, 0);
    OpenForFront(f, x, depth, base, n);
    AllSent(f.vcs, x, depth, base, n);
    HeadRuns(f, depth, depth + 1, base, road, x.dst(Side(n)), t, last);
    w, now := OnTheWay(road, x.dst(Side(n)), t, last, depth + 1), t + last;
    LaterThan(base, w, t, now);
    assert road[..last + 1] == p + [x.inn(n), x.mid(n)];
  }

  // ---- The backs' heads ----

  /** Head v came in by the first of the two channels before head w. */
  ghost predicate ComesFirst<C, D>(x: Cross<C, D>, v: Worm<C, D>, w: Worm<C, D>, n: nat, j: nat) {
    && |x.path(n, 0)| < |v.packet.since| && |x.path(n, j)| < |w.packet.since|
    && v.packet.since[|x.path(n, 0)|] < w.packet.since[|x.path(n, j)|]
  }

  /** The arm's heads are where they will stay. */
  ghost predicate Begun<C, D>(x: Cross<C, D>, depth: nat, block: Flow<C, D>, n: nat) {
    && block != [] && IsLead(x, depth, block[0], n)
    && forall j: nat :: 1 <= j < |block| ==> IsGone(x, depth, block[j], n, j) && ComesFirst(x, block[0], block[j], n, j)
  }

  lemma {:induction false} RoomForBack<C(!new), D(!new)>(f: Fabric<C, D>, x: Cross<C, D>, depth: nat,
          base: Flow<C, D>, block: Flow<C, D>, n: nat, j: nat, l: nat)
    requires Fits(f, x) && n < 4 && Standing(f.vcs, x, depth, base, n) && Begun(x, depth, block, n)
    requires 1 <= j <= Backs(f.vcs, n) && |block| == j && l < |Road(x, n, j, !Side(n))|
    ensures Held(Packets(base + block), Road(x, n, j, !Side(n))[l]) < f.vcs
  {
    var road := Road(x, n, j, !Side(n));
    assert PathFits(f, x, n, j) && PathFits(f, x, n, 0);
    HeldTogether(base, block, road[l]);
    if l <= |x.path(n, j)| + 1 {
      RoadOnArm(f, x, n, j, !Side(n), l);
      ArmUnused(f.vcs, x, depth, base, n, road[l]);
      UnusedHeld(base, road[l]);
      HeldAtMost(block, road[l]);
    } else {
      ExitNotOnFront(f, x, depth, block[0], n);
      HeldByRest(block, road[l]);
    }
  }

  lemma {:induction false} ExitNotOnFront<C(!new), D(!new)>(f: Fabric<C, D>, x: Cross<C, D>, depth: nat,
          w: Worm<C, D>, n: nat)
    requires SpotsApart(x) && n < 4 && PathFits(f, x, n, 0) && IsLead(x, depth, w, n)
    ensures x.out(!Side(n)) !in w.packet.trail
  {
    assert forall k: nat :: k < |x.path(n, 0)| ==> OffCross(x, x.path(n, 0)[k]);
  }

  lemma {:induction false} ClearForBack<C(!new), D(!new)>(f: Fabric<C, D>, x: Cross<C, D>, depth: nat,
          base: Flow<C, D>, block: Flow<C, D>, n: nat, j: nat, l: nat)
    requires Fits(f, x) && n < 4 && Standing(f.vcs, x, depth, base, n) && Begun(x, depth, block, n)
    requires j <= Backs(f.vcs, n) && l <= |x.path(n, j)| + 1
    ensures Clear(base + block, Road(x, n, j, !Side(n))[l], Some(Road(x, n, j, !Side(n))[l + 1]))
  {
    var road := Road(x, n, j, !Side(n));
    var c, out, st := road[l], Some(road[l + 1]), base + block;
    assert PathFits(f, x, n, j) && PathFits(f, x, n, 0);
    RoadOnArm(f, x, n, j, !Side(n), l);
    ArmUnused(f.vcs, x, depth, base, n, c);
    UnusedClear(base, c, out);
    forall i, k: nat | 0 <= i < |st|
      ensures !WaitsFor(st[i], k, c, out)
    {
      if i < |base| {
        assert !WaitsFor(base[i], k, c, out);
      } else if i == |base| {
        LeadElsewhere(f, x, depth, block[0], n, j, l, k);
      } else {
        assert IsGone(x, depth, block[i - |base|], n, i - |base|);
      }
    }
  }

  /** The front's head waits at the crossing, for the other exit. */
  lemma {:induction false} LeadElsewhere<C(!new), D(!new)>(f: Fabric<C, D>, x: Cross<C, D>, depth: nat,
          w: Worm<C, D>, n: nat, j: nat, l: nat, k: nat)
    requires SpotsApart(x) && n < 4 && PathFits(f, x, n, j) && IsLead(x, depth, w, n) && l <= |x.path(n, j)| + 1
    ensures !WaitsFor(w, k, Road(x, n, j, !Side(n))[l], Some(Road(x, n, j, !Side(n))[l + 1]))
  {
    var p, road := x.path(n, j), Road(x, n, j, !Side(n));
    if k == |x.path(n, 0)| + 1 && l < |p| {
      assert OffCross(x, p[l]) && road[l] == p[l];
    }
  }

  lemma {:induction false} BackSourceFree<C(!new), D(!new)>(f: Fabric<C, D>, x: Cross<C, D>, depth: nat,
          base: Flow<C, D>, block: Flow<C, D>, n: nat, j: nat)
    requires Fits(f, x) && n < 4 && Standing(f.vcs, x, depth, base, n) && Begun(x, depth, block, n)
    requires 1 <= j <= Backs(f.vcs, n) && |block| == j
    ensures SourceFree(f, base + block, Road(x, n, j, !Side(n))[0])
  {
    var st, c := base + block, Road(x, n, j, !Side(n))[0];
    AllSent(f.vcs, x, depth, base, n);
    assert PathFits(f, x, n, j);
    forall i | 0 <= i < |st| && st[i].toSend > 0 && st[i].packet.trail != []
      ensures st[i].packet.trail[0] != c
    {
      var k: nat := i - |base|;
      assert st[i] == block[k];
      assert SourcesApart(x, n, k, j) && PathFits(f, x, n, k);
      BlockSource(x, depth, block, n, k);
    }
  }

  lemma {:induction false} BlockSource<C(!new), D(!new)>(x: Cross<C, D>, depth: nat, block: Flow<C, D>, n: nat, k: nat)
    requires Begun(x, depth, block, n) && k < |block| && x.path(n, k) != []
    ensures block[k].packet.trail != [] && block[k].packet.trail[0] == x.path(n, k)[0]
  {
    assert k == 0 || IsGone(x, depth, block[k], n, k);
  }

  lemma {:induction false} BackComes<C(!new), D(!new)>(f: Fabric<C, D>, x: Cross<C, D>, depth: nat,
          base: Flow<C, D>, block: Flow<C, D>, n: nat, j: nat, t: nat)
    returns (w: Worm<C, D>, now: nat)
    requires Ranked(f) && depth > 0 && Fits(f, x) && n < 4 && Standing(f.vcs, x, depth, base, n)
    requires Begun(x, depth, block, n) && 1 <= j <= Backs(f.vcs, n) && |block| == j
    requires Reachable(f, depth, depth + 1, base + block) && NotBefore(base + block, t)
    ensures Reachable(f, depth, depth + 1, base + block + [w]) && NotBefore(base + block + [w], now)
    ensures IsGone(x, depth, w, n, j) && ComesFirst(x, block[0], w, n, j)
  {
    var road, dest, last := Road(x, n, j, !Side(n)), x.dst(!Side(n)), |x.path(n, j)| + 2;
    assert PathFits(f, x, n, j);
    forall l: nat | l <= last
      ensures Held(Packets(base + block), road[l]) < f.vcs
      ensures l < last ==> Clear(base + block, road[l], Some(road[l + 1]))
    {
      RoomForBack(f, x, depth, base, block, n, j, l);
      if l < last {
        ClearForBack(f, x, depth, base, block, n, j, l);
      }
    }
    BackSourceFree(f, x, depth, base, block, n, j);
    HeadRuns(f, depth, depth + 1, base + block, road, dest, t, last);
    HeadArrives(f, depth, depth + 1, base + block, road, dest, t);
    w, now := Arrived(road, dest, t, depth + 1), t + last;
    LaterThan(base + block, w, t, now);
    assert (base + block)[|base|] == block[0] && AllUpTo(block[0].packet.since, t);
  }

  lemma {:induction false} BegunMore<C(!new), D(!new)>(x: Cross<C, D>, depth: nat, block: Flow<C, D>, w: Worm<C, D>,
          n: nat)
    requires Begun(x, depth, block, n)
    requires IsGone(x, depth, w, n, |block|) && ComesFirst(x, block[0], w, n, |block|)
    ensures Begun(x, depth, block + [w], n)
  {
  }

  /** The front's head and j backs' heads. */
  lemma {:induction false} HeadsCome<C(!new), D(!new)>(f: Fabric<C, D>, x: Cross<C, D>, depth: nat,
          base: Flow<C, D>, n: nat, j: nat, t: nat)
    returns (block: Flow<C, D>, now: nat)
    requires Ranked(f) && depth > 0 && Fits(f, x) && n < 4 && Standing(f.vcs, x, depth, base, n)
    requires j <= Backs(f.vcs, n) && Reachable(f, depth, depth + 1, base) && NotBefore(base, t)
    ensures |block| == j + 1 && Begun(x, depth, block, n)
    ensures Reachable(f, depth, depth + 1, base + block) && NotBefore(base + block, now)
    decreases j
  {
    if j == 0 {
      var w;
      w, now := FrontComes(f, x, depth, base, n, t);
      block := [w];
    } else {
      var before, soFar := HeadsCome(f, x, depth, base, n, j - 1, t);
      var w;
      w, now := BackComes(f, x, depth, base, before, n, j, soFar);
      block := before + [w];
      BegunMore(x, depth, before, w, n);
      assert base + before + [w] == base + block;
    }
  }

  lemma {:induction false} UpdateInBlock<T>(a: seq<T>, b: seq<T>, j: nat, w: T)
    requires j < |b|
    ensures (a + b)[|a| + j := w] == a + b[j := w]
  {
  }

  // ---- The front's other flits ----

  lemma {:induction false} FrontAlone<C(!new), D(!new)>(f: Fabric<C, D>, x: Cross<C, D>, depth: nat,
          base: Flow<C, D>, block: Flow<C, D>, n: nat, h: nat)
    requires Fits(f, x) && n < 4 && Standing(f.vcs, x, depth, base, n) && Begun(x, depth, block, n)
    requires h <= |x.path(n, 0)|
    ensures OthersAvoid(base + block, |base|, block[0].packet.trail[h])
  {
    var st, c := base + block, block[0].packet.trail[h];
    assert PathFits(f, x, n, 0);
    RoadOnArm(f, x, n, 0, Side(n), h);
    assert c == Road(x, n, 0, Side(n))[h];
    ArmUnused(f.vcs, x, depth, base, n, c);
    forall j, l: nat | 0 <= j < |st| && j != |base|
      ensures !HasFlit(st[j], l, c)
    {
      if j < |base| {
        assert c !in base[j].packet.trail;
      } else {
        assert IsGone(x, depth, block[j - |base|], n, j - |base|);
      }
    }
  }

  lemma {:induction false} FrontShape<C, D>(x: Cross<C, D>, depth: nat, w: Worm<C, D>, n: nat)
    requires depth > 0 && IsLead(x, depth, w, n)
    ensures IsFront(x, depth, Queued(w, |x.path(n, 0)|, depth), n)
    ensures Queued(w, |x.path(n, 0)|, depth).packet.since[0] == w.packet.since[|x.path(n, 0)|]
  {
    var p := |x.path(n, 0)|;
    var full := Grown(Grown(w, p + 1, depth - 1), p, 1);
    assert full.flits[p..] == [1, depth];
    assert full.packet.trail[p..] == [x.inn(n), x.mid(n)];
  }

  /** The front fills the buffer before the crossing and leaves one flit behind. */
  lemma {:induction false} FrontFills<C(!new), D(!new)>(f: Fabric<C, D>, x: Cross<C, D>, depth: nat,
          base: Flow<C, D>, block: Flow<C, D>, n: nat)
    returns (w: Worm<C, D>)
    requires Ranked(f) && depth > 0 && Fits(f, x) && n < 4 && Standing(f.vcs, x, depth, base, n)
    requires Begun(x, depth, block, n) && Reachable(f, depth, depth + 1, base + block)
    ensures IsFront(x, depth, w, n) && w.packet.since[0] == block[0].packet.since[|x.path(n, 0)|]
    ensures Reachable(f, depth, depth + 1, base + block[0 := w])
  {
    var st, i, p, v := base + block, |base|, |x.path(n, 0)|, block[0];
    assert st[i] == v;
    forall h: nat | h <= p
      ensures OthersAvoid(st, i, v.packet.trail[h])
    {
      FrontAlone(f, x, depth, base, block, n, h);
    }
    Queues(f, depth, depth + 1, st, i, p);
    FrontShape(x, depth, v, n);
    w := Queued(v, p, depth);
    UpdateInBlock(base, block, 0, w);
  }

  // ---- The backs' other flits ----

  ghost predicate After<C, D>(v: Worm<C, D>, w: Worm<C, D>, k: nat) {
    v.packet.since != [] && k < |w.packet.since| && v.packet.since[0] < w.packet.since[k]
  }

  /** The front and the backs before the j-th are where they will stay. */
  ghost predicate Filling<C, D>(x: Cross<C, D>, depth: nat, block: Flow<C, D>, n: nat, j: nat) {
    && block != [] && IsFront(x, depth, block[0], n)
    && (forall h: nat :: 1 <= h < |block| && h < j ==> IsBack(x, depth, block[h], n) && After(block[0], block[h], 0))
    && (forall h: nat :: 1 <= h < |block| && j <= h ==>
          IsGone(x, depth, block[h], n, h) && After(block[0], block[h], |x.path(n, h)|))
  }

  lemma {:induction false} BackAlone<C(!new), D(!new)>(f: Fabric<C, D>, x: Cross<C, D>, depth: nat,
          base: Flow<C, D>, block: Flow<C, D>, n: nat, j: nat, h: nat)
    requires Fits(f, x) && n < 4 && Standing(f.vcs, x, depth, base, n) && Filling(x, depth, block, n, j)
    requires 1 <= j < |block| && j <= Backs(f.vcs, n) && h < |x.path(n, j)|
    ensures OthersAvoid(base + block, |base| + j, x.path(n, j)[h])
  {
    var st, c := base + block, x.path(n, j)[h];
    assert PathFits(f, x, n, j);
    assert OffCross(x, c);
    ArmUnused(f.vcs, x, depth, base, n, c);
    forall i, l: nat | 0 <= i < |st| && i != |base| + j
      ensures !HasFlit(st[i], l, c)
    {
      if i < |base| {
        assert c !in base[i].packet.trail;
      } else {
        var k: nat := i - |base|;
        assert st[i] == block[k];
        assert k == 0 || IsBack(x, depth, block[k], n) || IsGone(x, depth, block[k], n, k);
      }
    }
  }

  lemma {:induction false} BackShape<C, D>(x: Cross<C, D>, depth: nat, w: Worm<C, D>, n: nat, j: nat)
    requires IsGone(x, depth, w, n, j)
    ensures IsBack(x, depth, Gathered(w, |x.path(n, j)|, depth), n)
    ensures Gathered(w, |x.path(n, j)|, depth).packet.since[0] == w.packet.since[|x.path(n, j)|]
  {
    var p := |x.path(n, j)|;
    var full := Grown(w, p, depth);
    assert full.flits[p..] == [depth, 0, 0];
    assert full.packet.trail[p..] == [x.inn(n), x.mid(n), x.out(!Side(n))];
  }

  /** A back's flits come up behind the front's last one. */
  lemma {:induction false} BackFills<C(!new), D(!new)>(f: Fabric<C, D>, x: Cross<C, D>, depth: nat,
          base: Flow<C, D>, block: Flow<C, D>, n: nat, j: nat)
    returns (w: Worm<C, D>)
    requires Ranked(f) && depth > 0 && Fits(f, x) && n < 4 && Standing(f.vcs, x, depth, base, n)
    requires Filling(x, depth, block, n, j) && 1 <= j < |block| && j <= Backs(f.vcs, n)
    requires Reachable(f, depth, depth + 1, base + block)
    ensures IsBack(x, depth, w, n) && w.packet.since[0] == block[j].packet.since[|x.path(n, j)|]
    ensures Reachable(f, depth, depth + 1, base + block[j := w])
  {
    var st, i, p, v := base + block, |base| + j, |x.path(n, j)|, block[j];
    BackHasWay(f, x, depth, base, block, n, j);
    assert IsGone(x, depth, v, n, j) && st[i] == v;
    Gathers(f, depth, depth + 1, st, i, p);
    BackShape(x, depth, v, n, j);
    w := Gathered(v, p, depth);
    UpdateInBlock(base, block, j, w);
  }

  lemma {:induction false} BackHasWay<C(!new), D(!new)>(f: Fabric<C, D>, x: Cross<C, D>, depth: nat,
          base: Flow<C, D>, block: Flow<C, D>, n: nat, j: nat)
    requires Fits(f, x) && n < 4 && Standing(f.vcs, x, depth, base, n)
    requires Filling(x, depth, block, n, j) && 1 <= j < |block| && j <= Backs(f.vcs, n)
    ensures HasWay(depth, base + block, |base| + j, |x.path(n, j)|)
  {
    var st, i, v := base + block, |base| + j, block[j];
    assert IsGone(x, depth, v, n, j) && st[i] == v;
    forall h: nat | h < |x.path(n, j)|
      ensures OthersAvoid(st, i, v.packet.trail[h])
    {
      BackAlone(f, x, depth, base, block, n, j, h);
    }
  }

  lemma {:induction false} BacksFill<C(!new), D(!new)>(f: Fabric<C, D>, x: Cross<C, D>, depth: nat,
          base: Flow<C, D>, block: Flow<C, D>, n: nat, j: nat)
    returns (full: Flow<C, D>)
    requires Ranked(f) && depth > 0 && Fits(f, x) && n < 4 && Standing(f.vcs, x, depth, base, n)
    requires Filling(x, depth, block, n, j) && 1 <= j <= |block| == Backs(f.vcs, n) + 1
    requires Reachable(f, depth, depth + 1, base + block)
    ensures |full| == |block| && Filling(x, depth, full, n, |block|)
    ensures Reachable(f, depth, depth + 1, base + full)
    decreases |block| - j
  {
    if j == |block| {
      full := block;
    } else {
      var w := BackFills(f, x, depth, base, block, n, j);
      var next := block[j := w];
      assert Filling(x, depth, next, n, j + 1);
      full := BacksFill(f, x, depth, base, next, n, j + 1);
    }
  }

  // ---- One more arm stands ----

  lemma {:induction false} StaysInPlace<C(!new), D(!new)>(x: Cross<C, D>, depth: nat, base: Flow<C, D>,
          block: Flow<C, D>, w: Worm<C, D>, n: nat)
    requires SomePlace(x, depth, base, w, n)
    ensures SomePlace(x, depth, base + block, w, n + 1)
  {
    var m: nat :| m < n && InPlace(x, depth, base, w, m);
    if !IsFront(x, depth, w, m) {
      var h :| 0 <= h < |base| && IsFront(x, depth, base[h], m) && base[h].packet.since[0] < w.packet.since[0];
      assert (base + block)[h] == base[h];
      assert FrontAhead(x, depth, base + block, w, m);
    }
    assert InPlace(x, depth, base + block, w, m);
  }

  lemma {:induction false} BlockInPlace<C(!new), D(!new)>(x: Cross<C, D>, depth: nat, base: Flow<C, D>,
          block: Flow<C, D>, n: nat, h: nat)
    requires Filling(x, depth, block, n, |block|) && h < |block|
    ensures SomePlace(x, depth, base + block, block[h], n + 1)
  {
    assert (base + block)[|base|] == block[0];
    assert InPlace(x, depth, base + block, block[h], n);
  }

  lemma {:induction false} ExitFills<C(!new), D(!new)>(x: Cross<C, D>, depth: nat, block: Flow<C, D>, n: nat, d: bool)
    requires SpotsApart(x) && n < 4 && Filling(x, depth, block, n, |block|)
    ensures Held(Packets(block), x.out(d)) == if d == Side(n) then 0 else |block| - 1
  {
    if d == Side(n) {
      UnusedHeld(block, x.out(d));
    } else {
      HeldByRest(block, x.out(d));
    }
  }

  lemma {:induction false} ArmStands<C(!new), D(!new)>(vcs: nat, x: Cross<C, D>, depth: nat, base: Flow<C, D>,
          block: Flow<C, D>, n: nat)
    requires vcs >= 2 && SpotsApart(x) && n < 4 && Standing(vcs, x, depth, base, n)
    requires Filling(x, depth, block, n, |block|) && |block| == Backs(vcs, n) + 1
    ensures Standing(vcs, x, depth, base + block, n + 1)
  {
    var st := base + block;
    forall i | 0 <= i < |st|
      ensures SomePlace(x, depth, st, st[i], n + 1)
    {
      if i < |base| {
        StaysInPlace(x, depth, base, block, base[i], n);
      } else {
        BlockInPlace(x, depth, base, block, n, i - |base|);
      }
    }
    forall d
      ensures Held(Packets(st), x.out(d)) == Filled(vcs, n + 1, d)
    {
      HeldTogether(base, block, x.out(d));
      ExitFills(x, depth, block, n, d);
      FilledMore(vcs, n, d);
    }
  }

  lemma {:induction false} FilledMore(vcs: nat, n: nat, d: bool)
    requires vcs >= 2 && n < 4
    ensures Filled(vcs, n + 1, d) == Filled(vcs, n, d) + if d == Side(n) then 0 else Backs(vcs, n)
  {
  }

  lemma {:induction false} FillingStarts<C(!new), D(!new)>(x: Cross<C, D>, depth: nat, block: Flow<C, D>,
          w: Worm<C, D>, n: nat)
    requires Begun(x, depth, block, n) && IsFront(x, depth, w, n)
    requires w.packet.since[0] == block[0].packet.since[|x.path(n, 0)|]
    ensures Filling(x, depth, block[0 := w], n, 1)
  {
    forall h: nat | 1 <= h < |block|
      ensures After(w, block[h], |x.path(n, h)|)
    {
      assert ComesFirst(x, block[0], block[h], n, h);
    }
  }

  lemma {:induction false} ArmFills<C(!new), D(!new)>(f: Fabric<C, D>, x: Cross<C, D>, depth: nat, base: Flow<C, D>,
          n: nat, t: nat)
    returns (full: Flow<C, D>)
    requires Ranked(f) && depth > 0 && Fits(f, x) && n < 4 && Standing(f.vcs, x, depth, base, n)
    requires Reachable(f, depth, depth + 1, base) && NotBefore(base, t)
    ensures Reachable(f, depth, depth + 1, base + full)
    ensures |full| == Backs(f.vcs, n) + 1 && Filling(x, depth, full, n, |full|)
  {
    var block, _ := HeadsCome(f, x, depth, base, n, Backs(f.vcs, n), t);
    var w := FrontFills(f, x, depth, base, block, n);
    FillingStarts(x, depth, block, w, n);
    full := BacksFill(f, x, depth, base, block[0 := w], n, 1);
  }

  /** The first n arms can be filled. */
  lemma {:induction false} ArmsStand<C(!new), D(!new)>(f: Fabric<C, D>, x: Cross<C, D>, depth: nat, n: nat)
    returns (st: Flow<C, D>)
    requires Ranked(f) && depth > 0 && Fits(f, x) && n <= 4
    ensures Reachable(f, depth, depth + 1, st) && Standing(f.vcs, x, depth, st, n)
    decreases n
  {
    if n == 0 {
      st := [];
      assert Packets<C, D>([]) == [];
      assert Leads<C, D>(f, depth, [], [], []) && UpTo<C, D>([], depth + 1);
    } else {
      var base := ArmsStand(f, x, depth, n - 1);
      var t := SomeTime(base);
      var full := ArmFills(f, x, depth, base, n - 1, t);
      ArmStands(f.vcs, x, depth, base, full, n - 1);
      st := base + full;
    }
  }

  /** Packets one flit longer than a buffer can come to a deadlock, and it lasts. */
  lemma {:induction false} CrossDeadlocks<C(!new), D(!new)>(f: Fabric<C, D>, x: Cross<C, D>, depth: nat)
    returns (st: Flow<C, D>)
    requires Ranked(f) && depth > 0 && Fits(f, x)
    ensures Reachable(f, depth, depth + 1, st) && Deadlocked(f, depth, st) && Jammed(f, depth, st)
  {
    st := ArmsStand(f, x, depth, 4);
    StandingIsJam(f, x, depth, st, 4);
    ReachableOk(f, depth, depth + 1, st);
    JamIsDeadlock(f, depth, st);
  }
}
