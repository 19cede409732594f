/** One worm on its way through a network that leaves it room: its head runs along a
    road and is taken, flits are sent up to a channel, channels behind it are freed. */
module Journeys {
  import opened Results
  import opened Fabric
  import opened Worms
  import opened Allocator
  import opened OrderedSafe

  ghost function NextOn<C>(road: seq<C>, k: nat): Option<C> {
    if k + 1 < |road| then Some(road[k + 1]) else None
  }

  /** The channels that lookups give a packet for the destination, from a source to the exit. */
  ghost predicate IsRoad<C(!new), D>(f: Fabric<C, D>, road: seq<C>, dest: D) {
    && road != [] && f.entry(road[0])
    && forall k: nat :: k < |road| ==> RoadAt(f, road, dest, k)
  }

  ghost predicate RoadAt<C(!new), D>(f: Fabric<C, D>, road: seq<C>, dest: D, k: nat)
    requires k < |road|
  {
    f.mayHold(dest, road[k]) && f.lookup(dest, road[k], NextOn(road, k))
  }

  ghost function Ticks(t: nat, n: nat): seq<nat> {
    seq(n, (l: nat) => t + l)
  }

  ghost function Zeros(n: nat): seq<nat> {
    seq(n, _ => 0)
  }

  /** The worm whose head is at the k-th channel of its road, one step per tick. */
  ghost function OnTheWay<C, D>(road: seq<C>, dest: D, t: nat, k: nat, size: nat): Worm<C, D>
    requires k < |road| && size > 0
  {
    Worm(Packet(road[..k + 1], Ticks(t, k + 1), NextOn(road, k), dest), Zeros(k) + [1], size - 1, 0, size)
  }

  /** The worm whose head has been taken, with nothing sent after it. */
  ghost function Arrived<C, D>(road: seq<C>, dest: D, t: nat, size: nat): Worm<C, D>
    requires size > 1
  {
    Worm(Packet(road, Ticks(t, |road|), None, dest), Zeros(|road|), size - 1, 1, size)
  }

  // ---- The head ----

  ghost predicate WaitsFor<C(!new), D>(w: Worm<C, D>, l: nat, c: C, out: Option<C>) {
    l < |w.flits| && l < |w.packet.trail| && w.flits[l] > 0 && w.packet.trail[l] == c && OutAt(w.packet, l) == out
  }

  /** No flit waits at the end of the channel for the output. */
  ghost predicate Clear<C(!new), D>(st: Flow<C, D>, c: C, out: Option<C>) {
    forall j, l: nat :: 0 <= j < |st| ==> !WaitsFor(st[j], l, c, out)
  }

  /** The first k + 1 channels of the road have a VC left, and no flit is ahead there. */
  ghost predicate Open<C(!new), D>(f: Fabric<C, D>, st: Flow<C, D>, road: seq<C>, k: nat)
    requires k < |road|
  {
    && (forall l: nat :: l <= k ==> Held(Packets(st), road[l]) < f.vcs)
    && (forall l: nat :: l < k ==> Clear(st, road[l], Some(road[l + 1])))
  }

  lemma {:induction false} StepLeads<C, D>(road: seq<C>, dest: D, t: nat, k: nat, size: nat)
    requires 0 < k < |road| && size > 0
    ensures Led(OnTheWay(road, dest, t, k - 1, size), NextOn(road, k), t + k) == OnTheWay(road, dest, t, k, size)
  {
    assert road[..k] + [road[k]] == road[..k + 1];
    assert Ticks(t, k) + [t + k] == Ticks(t, k + 1);
    var flits := Zeros(k - 1) + [1];
    assert flits[..k - 1] + [flits[k - 1] - 1] + [1] == Zeros(k) + [1];
  }

  lemma {:induction false} StepHasRoom<C(!new), D(!new)>(f: Fabric<C, D>, depth: nat, size: nat, base: Flow<C, D>,
          w: Worm<C, D>)
    requires Ranked(f) && depth > 0 && Reachable(f, depth, size, base + [w]) && w.packet.out.Some?
    requires Held(Packets(base), w.packet.out.value) < f.vcs
    ensures HasRoom(f, Packets(base + [w]), |base|)
  {
    ReachableOk(f, depth, size, base + [w]);
    assert (base + [w])[|base|] == w && WormOk(f, depth, (base + [w])[|base|]);
    WantedRanksHigher(f, w.packet);
    PacketsAppend(base, w);
    var ps := Packets(base) + [w.packet];
    assert ps[..|base|] == Packets(base);
  }

  lemma {:induction false} StepAgrees<C(!new), D(!new)>(f: Fabric<C, D>, base: Flow<C, D>,
          road: seq<C>, dest: D, t: nat, k: nat, size: nat)
    requires k < |road| && size > 0 && Clear(base, road[k], NextOn(road, k))
    ensures AllocatorAgrees(f, base + [OnTheWay(road, dest, t, k, size)], |base|, k)
  {
    var w := OnTheWay(road, dest, t, k, size);
    var st, now := base + [w], t + k;
    forall j, l: nat | 0 <= j < |st|
      ensures !IsAhead(st[j], l, road[k], NextOn(road, k), now)
    {
      if j < |base| {
        assert !WaitsFor(base[j], l, road[k], NextOn(road, k));
      }
    }
    assert w.packet.since[k] == now;
  }

  lemma {:induction false} LaterThan<C(!new), D(!new)>(base: Flow<C, D>, w: Worm<C, D>, t: nat, now: nat)
    requires NotBefore(base, t) && t <= now && AllUpTo(w.packet.since, now)
    ensures NotBefore(base + [w], now)
  {
    forall i | 0 <= i < |base + [w]|
      ensures AllUpTo((base + [w])[i].packet.since, now)
    {
      if i < |base| {
        assert AllUpTo(base[i].packet.since, t);
      }
    }
  }

  /** A head runs along an open road. */
  lemma {:induction false} HeadRuns<C(!new), D(!new)>(f: Fabric<C, D>, depth: nat, size: nat, base: Flow<C, D>,
          road: seq<C>, dest: D, t: nat, k: nat)
    requires Ranked(f) && depth > 0 && size > 0 && Reachable(f, depth, size, base)
    requires IsRoad(f, road, dest) && k < |road| && Open(f, base, road, k)
    requires NotBefore(base, t) && SourceFree(f, base, road[0])
    ensures Reachable(f, depth, size, base + [OnTheWay(road, dest, t, k, size)])
    decreases k
  {
    assert RoadAt(f, road, dest, k);
    if k == 0 {
      ReachableOk(f, depth, size, base);
      var m := Enter(road[0], dest, NextOn(road, 0), t, size);
      Go(f, depth, size, base, m);
      assert road[..1] == [road[0]] && Ticks(t, 1) == [t] && Zeros(0) + [1] == [1];
    } else {
      assert Open(f, base, road, k - 1);
      HeadRuns(f, depth, size, base, road, dest, t, k - 1);
      HeadSteps(f, depth, size, base, road, dest, t, k);
    }
  }

  lemma {:induction false} HeadSteps<C(!new), D(!new)>(f: Fabric<C, D>, depth: nat, size: nat, base: Flow<C, D>,
          road: seq<C>, dest: D, t: nat, k: nat)
    requires Ranked(f) && depth > 0 && size > 0 && NotBefore(base, t)
    requires 0 < k < |road| && RoadAt(f, road, dest, k)
    requires Held(Packets(base), road[k]) < f.vcs && Clear(base, road[k - 1], NextOn(road, k - 1))
    requires Reachable(f, depth, size, base + [OnTheWay(road, dest, t, k - 1, size)])
    ensures Reachable(f, depth, size, base + [OnTheWay(road, dest, t, k, size)])
  {
    var w, now := OnTheWay(road, dest, t, k - 1, size), t + k;
    var st := base + [w];
    assert st[|base|] == w;
    StepHasRoom(f, depth, size, base, w);
    StepAgrees(f, base, road, dest, t, k - 1, size);
    LaterThan(base, w, t, now);
    LeadGoes(f, depth, size, st, |base|, NextOn(road, k), now);
    StepLeads(road, dest, t, k, size);
    assert st[|base| := OnTheWay(road, dest, t, k, size)] == base + [OnTheWay(road, dest, t, k, size)];
  }

  lemma {:induction false} LeadGoes<C(!new), D(!new)>(f: Fabric<C, D>, depth: nat, size: nat, st: Flow<C, D>, i: nat,
          out: Option<C>, now: nat)
    requires Ranked(f) && depth > 0 && Reachable(f, depth, size, st) && NotBefore(st, now)
    requires i < |st| && st[i].done == 0 && st[i].packet.out.Some? && HasRoom(f, Packets(st), i)
    requires f.lookup(st[i].packet.dest, st[i].packet.out.value, out)
    requires |st[i].packet.since| == |st[i].packet.trail| && st[i].packet.trail != []
    requires AllocatorAgrees(f, st, i, |st[i].packet.trail| - 1)
    requires st[i].flits != [] && st[i].flits[|st[i].flits| - 1] > 0
    ensures Reachable(f, depth, size, st[i := Led(st[i], out, now)])
  {
    ReachableOk(f, depth, size, st);
    Go(f, depth, size, st, Lead(i, out, now));
  }

  /** At the end of its road the head is taken. */
  lemma {:induction false} HeadArrives<C(!new), D(!new)>(f: Fabric<C, D>, depth: nat, size: nat, base: Flow<C, D>,
          road: seq<C>, dest: D, t: nat)
    requires Ranked(f) && depth > 0 && size > 1 && road != []
    requires Reachable(f, depth, size, base + [OnTheWay(road, dest, t, |road| - 1, size)])
    ensures Reachable(f, depth, size, base + [Arrived(road, dest, t, size)])
  {
    var last := |road| - 1;
    var w := OnTheWay(road, dest, t, last, size);
    var st := base + [w];
    assert st[|base|] == w && road[..last + 1] == road;
    TakeGoes(f, depth, size, st, |base|);
    assert (Zeros(last) + [1])[last := 0] == Zeros(|road|);
    assert st[|base| := Arrived(road, dest, t, size)] == base + [Arrived(road, dest, t, size)];
  }

  lemma {:induction false} TakeGoes<C(!new), D(!new)>(f: Fabric<C, D>, depth: nat, size: nat, st: Flow<C, D>, i: nat)
    requires Ranked(f) && depth > 0 && Reachable(f, depth, size, st)
    requires i < |st| && st[i].flits != [] && st[i].flits[|st[i].flits| - 1] > 0
    requires st[i].packet.out.None? && st[i].done + 1 < st[i].size
    ensures Reachable(f, depth, size, st[i := Taken(st[i])])
  {
    ReachableOk(f, depth, size, st);
    Go(f, depth, size, st, Take(i));
  }

  // ---- Flits after the head ----

  /** No other worm has a flit at the end of the channel. */
  ghost predicate OthersAvoid<C(!new), D>(st: Flow<C, D>, i: nat, c: C) {
    forall j, l: nat :: 0 <= j < |st| && j != i ==> !HasFlit(st[j], l, c)
  }

  ghost predicate HasFlit<C(!new), D>(w: Worm<C, D>, l: nat, c: C) {
    l < |w.flits| && l < |w.packet.trail| && w.flits[l] > 0 && w.packet.trail[l] == c
  }

  lemma {:induction false} AloneThere<C(!new), D(!new)>(f: Fabric<C, D>, depth: nat, st: Flow<C, D>, i: nat, k: nat)
    requires Ranked(f) && FlowOk(f, depth, st) && i < |st| && k < |st[i].flits|
    requires k < |st[i].packet.trail| && OthersAvoid(st, i, st[i].packet.trail[k])
    ensures |st[i].packet.trail| == |st[i].packet.since| == |st[i].flits| && AllocatorAgrees(f, st, i, k)
  {
    assert WormOk(f, depth, st[i]);
    var p := st[i].packet;
    forall j, l: nat | 0 <= j < |st|
      ensures !IsAhead(st[j], l, p.trail[k], OutAt(p, k), p.since[k])
    {
      if j != i {
        assert !HasFlit(st[j], l, p.trail[k]);
      } else if IsAhead(st[i], l, p.trail[k], OutAt(p, k), p.since[k]) {
        SamePlace(f, p, k, l);
      }
    }
  }

  /** One flit goes from the l-th channel to the k-th. */
  ghost function Carried<C, D>(w: Worm<C, D>, l: nat, k: nat): Worm<C, D>
    requires l < k < |w.flits| && w.flits[l] > 0
  {
    w.(flits := w.flits[l := w.flits[l] - 1][k := w.flits[k] + 1])
  }

  /** Nothing stands between the l-th channel and the k-th. */
  ghost predicate Passable<C(!new), D>(depth: nat, st: Flow<C, D>, i: nat, l: nat, k: nat) {
    && i < |st| && l <= k < |st[i].flits| == |st[i].packet.trail| && st[i].flits[k] < depth
    && (forall h: nat :: l < h < k ==> st[i].flits[h] == 0)
    && (forall h: nat :: l <= h < k ==> OthersAvoid(st, i, st[i].packet.trail[h]))
  }

  lemma {:induction false} AvoidKept<C(!new), D(!new)>(st: Flow<C, D>, i: nat, w: Worm<C, D>, c: C)
    requires i < |st| && OthersAvoid(st, i, c)
    ensures OthersAvoid(st[i := w], i, c)
  {
    var after := st[i := w];
    forall j, l: nat | 0 <= j < |after| && j != i
      ensures !HasFlit(after[j], l, c)
    {
      assert !HasFlit(st[j], l, c);
    }
  }

  lemma {:induction false} PassableAfter<C(!new), D(!new)>(depth: nat, st: Flow<C, D>, i: nat, l: nat, k: nat,
          w: Worm<C, D>)
    requires Passable(depth, st, i, l, k) && w.packet == st[i].packet && |w.flits| == |st[i].flits|
    requires forall h: nat :: l < h <= k ==> w.flits[h] == st[i].flits[h]
    requires w.flits[k] < depth
    ensures Passable(depth, st[i := w], i, l, k)
  {
    forall h: nat | l <= h < k
      ensures OthersAvoid(st[i := w], i, w.packet.trail[h])
    {
      AvoidKept(st, i, w, w.packet.trail[h]);
    }
  }

  lemma {:induction false} FollowGoes<C(!new), D(!new)>(f: Fabric<C, D>, depth: nat, size: nat, st: Flow<C, D>,
          i: nat, l: nat)
    requires Ranked(f) && depth > 0 && Reachable(f, depth, size, st)
    requires i < |st| && l + 1 < |st[i].flits| == |st[i].packet.trail| && st[i].flits[l] > 0
    requires st[i].flits[l + 1] < depth && OthersAvoid(st, i, st[i].packet.trail[l])
    ensures Reachable(f, depth, size, st[i := Followed(st[i], l)])
  {
    ReachableOk(f, depth, size, st);
    AloneThere(f, depth, st, i, l);
    Go(f, depth, size, st, Follow(i, l));
  }

  lemma {:induction false} Carry<C(!new), D(!new)>(f: Fabric<C, D>, depth: nat, size: nat, st: Flow<C, D>,
          i: nat, l: nat, k: nat)
    requires Ranked(f) && depth > 0 && Reachable(f, depth, size, st)
    requires Passable(depth, st, i, l, k) && l < k && st[i].flits[l] > 0
    ensures Reachable(f, depth, size, st[i := Carried(st[i], l, k)])
    decreases k - l
  {
    var w := st[i];
    assert OthersAvoid(st, i, w.packet.trail[l]);
    FollowGoes(f, depth, size, st, i, l);
    if l + 1 < k {
      var next := Followed(w, l);
      var st' := st[i := next];
      PassableFrom(depth, st, i, l, k);
      Carry(f, depth, size, st', i, l + 1, k);
      CarriedOn(w, l, k);
      assert st'[i := Carried(w, l, k)] == st[i := Carried(w, l, k)];
    }
  }

  lemma {:induction false} PassableFrom<C(!new), D(!new)>(depth: nat, st: Flow<C, D>, i: nat, l: nat, k: nat)
    requires Passable(depth, st, i, l, k) && l + 1 < k && st[i].flits[l] > 0
    ensures Passable(depth, st[i := Followed(st[i], l)], i, l + 1, k)
  {
    assert Passable(depth, st, i, l + 1, k);
    PassableAfter(depth, st, i, l + 1, k, Followed(st[i], l));
  }

  lemma {:induction false} CarriedOn<C, D>(w: Worm<C, D>, l: nat, k: nat)
    requires l + 1 < k < |w.flits| && w.flits[l] > 0
    ensures Carried(Followed(w, l), l + 1, k) == Carried(w, l, k)
  {
    assert Carried(Followed(w, l), l + 1, k).flits == Carried(w, l, k).flits;
  }

  /** r flits more are at the k-th channel. */
  ghost function Grown<C, D>(w: Worm<C, D>, k: nat, r: nat): Worm<C, D>
    requires k < |w.flits| && r <= w.toSend
  {
    w.(toSend := w.toSend - r, flits := w.flits[k := w.flits[k] + r])
  }

  lemma {:induction false} FlitUp<C(!new), D(!new)>(f: Fabric<C, D>, depth: nat, size: nat, st: Flow<C, D>,
          i: nat, k: nat)
    requires Ranked(f) && depth > 0 && Reachable(f, depth, size, st)
    requires Passable(depth, st, i, 0, k) && st[i].toSend > 0 && (k > 0 ==> st[i].flits[0] == 0)
    ensures Reachable(f, depth, size, st[i := Grown(st[i], k, 1)])
  {
    var w := st[i];
    FeedGoes(f, depth, size, st, i);
    if k > 0 {
      var st' := st[i := Fed(w)];
      PassableAfter(depth, st, i, 0, k, Fed(w));
      Carry(f, depth, size, st', i, 0, k);
      FedOn(w, k);
      assert st'[i := Grown(w, k, 1)] == st[i := Grown(w, k, 1)];
    }
  }

  lemma {:induction false} FedOn<C, D>(w: Worm<C, D>, k: nat)
    requires 0 < k < |w.flits| && w.toSend > 0
    ensures Carried(Fed(w), 0, k) == Grown(w, k, 1)
  {
    assert Carried(Fed(w), 0, k).flits == Grown(w, k, 1).flits;
  }

  lemma {:induction false} FeedGoes<C(!new), D(!new)>(f: Fabric<C, D>, depth: nat, size: nat, st: Flow<C, D>, i: nat)
    requires Ranked(f) && depth > 0 && Reachable(f, depth, size, st)
    requires i < |st| && st[i].toSend > 0 && st[i].flits != [] && st[i].flits[0] < depth
    ensures Reachable(f, depth, size, st[i := Fed(st[i])])
  {
    ReachableOk(f, depth, size, st);
    Go(f, depth, size, st, Feed(i));
  }

  /** A source sends r flits up to the k-th channel. */
  lemma {:induction false} FlitsUp<C(!new), D(!new)>(f: Fabric<C, D>, depth: nat, size: nat, st: Flow<C, D>,
          i: nat, k: nat, r: nat)
    requires Ranked(f) && depth > 0 && Reachable(f, depth, size, st)
    requires i < |st| && k < |st[i].flits| == |st[i].packet.trail| && st[i].flits[k] + r <= depth && r <= st[i].toSend
    requires forall h: nat :: h < k ==> st[i].flits[h] == 0
    requires forall h: nat :: h < k ==> OthersAvoid(st, i, st[i].packet.trail[h])
    ensures Reachable(f, depth, size, st[i := Grown(st[i], k, r)])
    decreases r
  {
    var w := st[i];
    if r == 0 {
      assert w.flits[k := w.flits[k]] == w.flits && st[i := w] == st;
    } else {
      FlitUp(f, depth, size, st, i, k);
      var st' := st[i := Grown(w, k, 1)];
      forall h: nat | h < k
        ensures OthersAvoid(st', i, w.packet.trail[h])
      {
        AvoidKept(st, i, Grown(w, k, 1), w.packet.trail[h]);
      }
      FlitsUp(f, depth, size, st', i, k, r - 1);
      GrownOn(w, k, r);
      assert st'[i := Grown(w, k, r)] == st[i := Grown(w, k, r)];
    }
  }

  lemma {:induction false} GrownOn<C, D>(w: Worm<C, D>, k: nat, r: nat)
    requires k < |w.flits| && 0 < r <= w.toSend
    ensures Grown(Grown(w, k, 1), k, r - 1) == Grown(w, k, r)
  {
    assert Grown(Grown(w, k, 1), k, r - 1).flits == Grown(w, k, r).flits;
  }

  // ---- Behind the tail ----

  /** The worm without its first n channels. */
  ghost function Cut<C, D>(w: Worm<C, D>, n: nat): Worm<C, D>
    requires n < |w.flits| == |w.packet.trail| == |w.packet.since|
  {
    w.(packet := w.packet.(trail := w.packet.trail[n..], since := w.packet.since[n..]), flits := w.flits[n..])
  }

  /** Empty channels are freed once the source has sent all. */
  lemma {:induction false} TailFrees<C(!new), D(!new)>(f: Fabric<C, D>, depth: nat, size: nat, st: Flow<C, D>,
          i: nat, n: nat)
    requires Ranked(f) && depth > 0 && Reachable(f, depth, size, st)
    requires i < |st| && n < |st[i].flits| == |st[i].packet.trail| == |st[i].packet.since| && st[i].toSend == 0
    requires forall h: nat :: h < n ==> st[i].flits[h] == 0
    ensures Reachable(f, depth, size, st[i := Cut(st[i], n)])
    decreases n
  {
    var w := st[i];
    if n == 0 {
      assert Cut(w, 0) == w && st[i := w] == st;
    } else {
      FreeGoes(f, depth, size, st, i);
      var st' := st[i := Freed(w)];
      TailFrees(f, depth, size, st', i, n - 1);
      CutOn(w, n);
      assert st'[i := Cut(w, n)] == st[i := Cut(w, n)];
    }
  }

  lemma {:induction false} FreeGoes<C(!new), D(!new)>(f: Fabric<C, D>, depth: nat, size: nat, st: Flow<C, D>, i: nat)
    requires Ranked(f) && depth > 0 && Reachable(f, depth, size, st)
    requires i < |st| && |st[i].flits| == |st[i].packet.trail| == |st[i].packet.since| && |st[i].flits| > 1
    requires st[i].toSend == 0 && st[i].flits[0] == 0
    ensures Reachable(f, depth, size, st[i := Freed(st[i])])
  {
    ReachableOk(f, depth, size, st);
    Go(f, depth, size, st, Free(i));
  }

  lemma {:induction false} CutOn<C, D>(w: Worm<C, D>, n: nat)
    requires 0 < n < |w.flits| == |w.packet.trail| == |w.packet.since|
    ensures Cut(Freed(w), n - 1) == Cut(w, n)
  {
    assert w.packet.trail[1..][n - 1..] == w.packet.trail[n..];
    assert w.packet.since[1..][n - 1..] == w.packet.since[n..];
    assert w.flits[1..][n - 1..] == w.flits[n..];
  }

  // ---- All flits after the head ----

  /** The source sends a buffer's worth up to the p-th channel, and the channels behind
      are freed. */
  ghost function Gathered<C, D>(w: Worm<C, D>, p: nat, depth: nat): Worm<C, D>
    requires p < |w.flits| == |w.packet.trail| == |w.packet.since| && depth <= w.toSend
  {
    Cut(Grown(w, p, depth), p)
  }

  ghost predicate HasWay<C(!new), D>(depth: nat, st: Flow<C, D>, i: nat, p: nat) {
    && i < |st| && p < |st[i].flits| == |st[i].packet.trail| == |st[i].packet.since| && st[i].toSend == depth
    && (forall h: nat :: h <= p ==> st[i].flits[h] == 0)
    && (forall h: nat :: h < p ==> OthersAvoid(st, i, st[i].packet.trail[h]))
  }

  lemma {:induction false} Gathers<C(!new), D(!new)>(f: Fabric<C, D>, depth: nat, size: nat, st: Flow<C, D>,
          i: nat, p: nat)
    requires Ranked(f) && depth > 0 && Reachable(f, depth, size, st) && HasWay(depth, st, i, p)
    ensures Reachable(f, depth, size, st[i := Gathered(st[i], p, depth)])
  {
    var full := Grown(st[i], p, depth);
    FlitsUp(f, depth, size, st, i, p, depth);
    TailFrees(f, depth, size, st[i := full], i, p);
    assert st[i := full][i := Cut(full, p)] == st[i := Cut(full, p)];
  }

  /** Its head waits one channel ahead: all but one flit join it there. */
  ghost function Queued<C, D>(w: Worm<C, D>, p: nat, depth: nat): Worm<C, D>
    requires p + 1 < |w.flits| == |w.packet.trail| == |w.packet.since| && 0 < depth <= w.toSend
  {
    Cut(Grown(Grown(w, p + 1, depth - 1), p, 1), p)
  }

  lemma {:induction false} Queues<C(!new), D(!new)>(f: Fabric<C, D>, depth: nat, size: nat, st: Flow<C, D>,
          i: nat, p: nat)
    requires Ranked(f) && depth > 0 && Reachable(f, depth, size, st) && HasWay(depth, st, i, p)
    requires p + 1 < |st[i].flits| && st[i].flits[p + 1] == 1 && OthersAvoid(st, i, st[i].packet.trail[p])
    ensures Reachable(f, depth, size, st[i := Queued(st[i], p, depth)])
  {
    var w := st[i];
    var w1 := Grown(w, p + 1, depth - 1);
    var w2 := Grown(w1, p, 1);
    FlitsUp(f, depth, size, st, i, p + 1, depth - 1);
    var st1 := st[i := w1];
    forall h: nat | h < p
      ensures OthersAvoid(st1, i, w.packet.trail[h])
    {
      AvoidKept(st, i, w1, w.packet.trail[h]);
    }
    FlitsUp(f, depth, size, st1, i, p, 1);
    var st2 := st1[i := w2];
    TailFrees(f, depth, size, st2, i, p);
    assert st2[i := Cut(w2, p)] == st[i := Cut(w2, p)];
  }
}
