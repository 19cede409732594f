/** When some flit can always move: in an unordered network, in one with a single VC
    per channel, and in an ordered one whose packets fit into one buffer each. */
module OrderedSafe {
  import opened Results
  import opened Fabric
  import opened Worms
  import opened WormWork
  import opened Allocator

  // ---- Heads keep their order ----

  /** If q's head has gone on from a channel, so has p's, which came in there before
      it for the same output. */
  ghost predicate KeepsTurn<C(!new), D>(p: Packet<C, D>, k: nat, q: Packet<C, D>, l: nat) {
    k < |p.trail| == |p.since| && l < |q.trail| == |q.since| ==>
      p.trail[k] == q.trail[l] && OutAt(p, k) == OutAt(q, l) && p.since[k] < q.since[l] && l + 1 < |q.trail| ==>
        k + 1 < |p.trail|
  }

  ghost predicate HeadsInOrder<C(!new), D>(st: Flow<C, D>) {
    forall i, j, k: nat, l: nat :: 0 <= i < |st| && 0 <= j < |st| ==> KeepsTurn(st[i].packet, k, st[j].packet, l)
  }

  lemma {:induction false} EnterKeeps<C(!new), D(!new)>(st: Flow<C, D>, w: Worm<C, D>)
    requires HeadsInOrder(st) && |w.packet.trail| == |w.packet.since| == 1 && NotBefore(st, w.packet.since[0])
    ensures HeadsInOrder(st + [w])
  {
    var after := st + [w];
    forall i, j, k: nat, l: nat | 0 <= i < |after| && 0 <= j < |after|
      ensures KeepsTurn(after[i].packet, k, after[j].packet, l)
    {
      if i < |st| && j < |st| {
        assert KeepsTurn(st[i].packet, k, st[j].packet, l);
      } else if j < |st| {
        assert AllUpTo(st[j].packet.since, w.packet.since[0]);
      }
    }
  }

  /** The old places of a packet whose head goes on, seen from any other. */
  lemma {:induction false} LeadKeepsPair<C(!new), D(!new)>(f: Fabric<C, D>, depth: nat, st: Flow<C, D>, i: nat,
          out: Option<C>, now: nat, j: nat, k: nat, l: nat)
    requires f.ordered && FlowOk(f, depth, st) && HeadsInOrder(st) && j < |st|
    requires CanMove(f, depth, st, Lead(i, out, now))
    ensures KeepsTurn(st[j].packet, k, Extended(st[i].packet, out, now), l)
    ensures KeepsTurn(Extended(st[i].packet, out, now), l, st[j].packet, k)
  {
    var p, q := st[j].packet, st[i].packet;
    var last := |q.trail| - 1;
    assert WormOk(f, depth, st[i]) && WormOk(f, depth, st[j]);
    assert KeepsTurn(p, k, q, l) && KeepsTurn(q, l, p, k);
    assert AllUpTo(p.since, now) && AllUpTo(q.since, now);
    assert AllocatorAgrees(f, st, i, last);
    if l == last && k == |p.trail| - 1 {
      assert !IsAhead(st[j], k, q.trail[last], OutAt(q, last), q.since[last]);
    }
  }

  lemma {:induction false} LeadKeepsSelf<C(!new), D(!new)>(q: Packet<C, D>, out: Option<C>, now: nat, k: nat, l: nat)
    requires q.out.Some? && |q.trail| == |q.since| > 0 && AllUpTo(q.since, now) && KeepsTurn(q, k, q, l)
    requires forall m: nat :: m < |q.trail| - 1 ==> q.trail[m] != q.trail[|q.trail| - 1]
    ensures KeepsTurn(Extended(q, out, now), k, Extended(q, out, now), l)
  {
  }

  lemma {:induction false} TrailDiffers<C(!new), D(!new)>(f: Fabric<C, D>, p: Packet<C, D>)
    requires Ranked(f) && PacketOk(f, p)
    ensures forall m: nat :: m < |p.trail| - 1 ==> p.trail[m] != p.trail[|p.trail| - 1]
  {
    forall m: nat | m < |p.trail| - 1
      ensures p.trail[m] != p.trail[|p.trail| - 1]
    {
      TrailRanks(f, p, m, |p.trail| - 1);
    }
  }

  lemma {:induction false} LeadKeeps<C(!new), D(!new)>(f: Fabric<C, D>, depth: nat, st: Flow<C, D>, i: nat,
          out: Option<C>, now: nat)
    requires Ranked(f) && f.ordered && FlowOk(f, depth, st) && HeadsInOrder(st)
    requires CanMove(f, depth, st, Lead(i, out, now))
    ensures HeadsInOrder(st[i := Led(st[i], out, now)])
  {
    var q := st[i].packet;
    assert WormOk(f, depth, st[i]) && AllUpTo(q.since, now);
    TrailDiffers(f, q);
    forall j, k: nat, l: nat | 0 <= j < |st|
      ensures Pairs(st[j].packet, k, Extended(q, out, now), l)
    {
      LeadKeepsPair(f, depth, st, i, out, now, j, k, l);
    }
    forall k: nat, l: nat
      ensures KeepsTurn(Extended(q, out, now), k, Extended(q, out, now), l)
    {
      assert KeepsTurn(st[i].packet, k, st[i].packet, l);
      LeadKeepsSelf(q, out, now, k, l);
    }
    ReplaceKeeps(st, i, Led(st[i], out, now));
  }

  ghost predicate Pairs<C(!new), D>(p: Packet<C, D>, k: nat, q: Packet<C, D>, l: nat) {
    KeepsTurn(p, k, q, l) && KeepsTurn(q, l, p, k)
  }

  lemma {:induction false} ReplaceKeeps<C(!new), D(!new)>(st: Flow<C, D>, i: nat, w: Worm<C, D>)
    requires HeadsInOrder(st) && i < |st|
    requires forall j, k: nat, l: nat :: 0 <= j < |st| && j != i ==> Pairs(st[j].packet, k, w.packet, l)
    requires forall k: nat, l: nat :: KeepsTurn(w.packet, k, w.packet, l)
    ensures HeadsInOrder(st[i := w])
  {
    var after := st[i := w];
    forall a, b, k: nat, l: nat | 0 <= a < |after| && 0 <= b < |after|
      ensures KeepsTurn(after[a].packet, k, after[b].packet, l)
    {
      if a != i && b != i {
        assert KeepsTurn(st[a].packet, k, st[b].packet, l);
      } else if a != i {
        assert Pairs(st[a].packet, k, w.packet, l);
      } else if b != i {
        assert Pairs(st[b].packet, l, w.packet, k);
      }
    }
  }

  lemma {:induction false} SameKeeps<C(!new), D(!new)>(st: Flow<C, D>, i: nat, w: Worm<C, D>)
    requires HeadsInOrder(st) && i < |st| && w.packet == st[i].packet
    ensures HeadsInOrder(st[i := w])
  {
    var after := st[i := w];
    forall a, b, k: nat, l: nat | 0 <= a < |after| && 0 <= b < |after|
      ensures KeepsTurn(after[a].packet, k, after[b].packet, l)
    {
      assert KeepsTurn(st[a].packet, k, st[b].packet, l);
    }
  }

  lemma {:induction false} RemoveKeeps<C(!new), D(!new)>(st: Flow<C, D>, i: nat)
    requires HeadsInOrder(st) && i < |st|
    ensures HeadsInOrder(st[..i] + st[i + 1..])
  {
    var after := st[..i] + st[i + 1..];
    forall a, b, k: nat, l: nat | 0 <= a < |after| && 0 <= b < |after|
      ensures KeepsTurn(after[a].packet, k, after[b].packet, l)
    {
      var x, y := if a < i then a else a + 1, if b < i then b else b + 1;
      assert KeepsTurn(st[x].packet, k, st[y].packet, l);
    }
  }

  lemma {:induction false} ShortKeeps<C(!new), D(!new)>(p: Packet<C, D>, k: nat, q: Packet<C, D>, l: nat)
    requires |p.trail| == |p.since| > 1 && |q.trail| == |q.since| > 0
    requires KeepsTurn(p, k + 1, q, l) && KeepsTurn(q, l, p, k + 1)
    ensures KeepsTurn(Shortened(p), k, q, l) && KeepsTurn(q, l, Shortened(p), k)
  {
  }

  lemma {:induction false} FreeKeeps<C(!new), D(!new)>(st: Flow<C, D>, i: nat)
    requires HeadsInOrder(st) && i < |st|
    requires |st[i].flits| == |st[i].packet.trail| == |st[i].packet.since| && |st[i].flits| > 1
    requires forall j :: 0 <= j < |st| ==> |st[j].packet.trail| == |st[j].packet.since| > 0
    ensures HeadsInOrder(st[i := Freed(st[i])])
  {
    var after, p := st[i := Freed(st[i])], st[i].packet;
    forall a, b, k: nat, l: nat | 0 <= a < |after| && 0 <= b < |after|
      ensures KeepsTurn(after[a].packet, k, after[b].packet, l)
    {
      var x, y := if a == i then k + 1 else k, if b == i then l + 1 else l;
      assert KeepsTurn(st[a].packet, x, st[b].packet, y);
      assert KeepsTurn(st[b].packet, y, st[a].packet, x);
      if a == i && b != i {
        ShortKeeps(p, k, st[b].packet, l);
      } else if b == i && a != i {
        ShortKeeps(p, l, st[a].packet, k);
      }
    }
  }

  /** Every move the allocator allows keeps the heads in order. */
  lemma {:induction false} OrderKept<C(!new), D(!new)>(f: Fabric<C, D>, depth: nat, st: Flow<C, D>, m: Move<C, D>)
    requires Ranked(f) && f.ordered && FlowOk(f, depth, st) && HeadsInOrder(st) && CanMove(f, depth, st, m)
    ensures HeadsInOrder(Moved(f, depth, st, m))
  {
    match m {
      case Enter(c, dest, out, now, size) =>
        EnterKeeps(st, Worm(Packet([c], [now], out, dest), [1], size - 1, 0, size));
      case Feed(i) => SameKeeps(st, i, Fed(st[i]));
      case Lead(i, out, now) => LeadKeeps(f, depth, st, i, out, now);
      case Follow(i, k) => SameKeeps(st, i, Followed(st[i], k));
      case Take(i) =>
        if st[i].done + 1 == st[i].size {
          RemoveKeeps(st, i);
        } else {
          SameKeeps(st, i, Taken(st[i]));
        }
      case Free(i) =>
        assert forall j :: 0 <= j < |st| ==> WormOk(f, depth, st[j]);
        FreeKeeps(st, i);
    }
  }

  // ---- Sizes ----

  ghost predicate NoneLonger<C, D>(st: Flow<C, D>, size: nat) {
    forall i :: 0 <= i < |st| ==> st[i].size <= size
  }

  lemma {:induction false} SizesKept<C(!new), D(!new)>(f: Fabric<C, D>, depth: nat, st: Flow<C, D>, m: Move<C, D>,
          size: nat)
    requires FlowOk(f, depth, st) && Enabled(f, depth, st, m) && NoneLonger(st, size)
    requires m.Enter? ==> m.size <= size
    ensures NoneLonger(Moved(f, depth, st, m), size)
  {
  }

  lemma {:induction false} SafeOverRun<C(!new), D(!new)>(f: Fabric<C, D>, depth: nat, size: nat, a: Flow<C, D>,
          ms: seq<Move<C, D>>, b: Flow<C, D>)
    requires Ranked(f) && depth > 0 && FlowOk(f, depth, a) && Leads(f, depth, a, ms, b) && UpTo(ms, size)
    requires NoneLonger(a, size) && (f.ordered ==> HeadsInOrder(a))
    ensures FlowOk(f, depth, b) && NoneLonger(b, size) && (f.ordered ==> HeadsInOrder(b))
    decreases |ms|
  {
    if ms != [] {
      FlowKept(f, depth, a, ms[0]);
      SizesKept(f, depth, a, ms[0], size);
      if f.ordered {
        OrderKept(f, depth, a, ms[0]);
      }
      SafeOverRun(f, depth, size, Moved(f, depth, a, ms[0]), ms[1..], b);
    }
  }

  // ---- Some flit can move ----

  /** The first flit in turn where a given one waits. */
  lemma {:induction false} Earliest<C(!new), D(!new)>(f: Fabric<C, D>, depth: nat, st: Flow<C, D>, i: nat, k: nat)
    returns (e: nat, l: nat)
    requires FlowOk(f, depth, st) && i < |st| && k < |st[i].flits| && st[i].flits[k] > 0
    ensures |st[i].packet.trail| == |st[i].packet.since| == |st[i].flits|
    ensures e < |st| && l < |st[e].flits| == |st[e].packet.trail| == |st[e].packet.since| && st[e].flits[l] > 0
    ensures AllocatorAgrees(f, st, e, l)
    ensures (e == i && l == k)
         || CameBefore(st[e].packet, l, st[i].packet.trail[k], OutAt(st[i].packet, k), st[i].packet.since[k])
    decreases if k < |st[i].packet.since| then st[i].packet.since[k] else 0
  {
    assert WormOk(f, depth, st[i]);
    var p := st[i].packet;
    if AllocatorAgrees(f, st, i, k) {
      e, l := i, k;
    } else {
      var j, h: nat :| 0 <= j < |st| && IsAhead(st[j], h, p.trail[k], OutAt(p, k), p.since[k]);
      e, l := Earliest(f, depth, st, j, h);
    }
  }

  /** A flit behind its head, in a worm that fits into one buffer: it, or the first in
      turn where it waits, can follow. */
  lemma {:induction false} BehindFollows<C(!new), D(!new)>(f: Fabric<C, D>, depth: nat, st: Flow<C, D>, i: nat, k: nat)
    returns (m: Move<C, D>)
    requires FlowOk(f, depth, st) && NoneLonger(st, depth) && (f.ordered ==> HeadsInOrder(st))
    requires i < |st| && k + 1 < |st[i].flits| && st[i].flits[k] > 0
    ensures !m.Enter? && CanMove(f, depth, st, m)
  {
    var e, l := Earliest(f, depth, st, i, k);
    assert WormOk(f, depth, st[i]) && WormOk(f, depth, st[e]);
    if f.ordered {
      assert KeepsTurn(st[e].packet, l, st[i].packet, k);
    } else {
      e, l := i, k;
    }
    TwoInSum(st[e].flits, l);
    m := Follow(e, l);
  }

  lemma {:induction false} TwoInSum(fs: seq<nat>, l: nat)
    requires l + 1 < |fs|
    ensures fs[l] + fs[l + 1] <= Sum(fs)
  {
    var last := |fs| - 1;
    if l + 1 < last {
      TwoInSum(fs[..last], l);
    } else {
      OneInSum(fs[..last], l);
    }
  }

  lemma {:induction false} OneInSum(fs: seq<nat>, l: nat)
    requires l < |fs|
    ensures fs[l] <= Sum(fs)
  {
    var last := |fs| - 1;
    if l < last {
      OneInSum(fs[..last], l);
    }
  }

  /** With every worm's head still there, the foremost one can go on or be taken. */
  lemma {:induction false} HeadMoves<C(!new), D(!new)>(f: Fabric<C, D>, depth: nat, st: Flow<C, D>, now: nat)
    returns (m: Move<C, D>)
    requires Ranked(f) && FlowOk(f, depth, st) && st != [] && NotBefore(st, now)
    requires forall i :: 0 <= i < |st| ==> st[i].done == 0
    ensures !m.Enter? && CanMove(f, depth, st, m)
  {
    var i := SendableHead(f, depth, st);
    if st[i].packet.out.Some? {
      m := HeadLeads(f, depth, st, i, now);
    } else {
      assert WormOk(f, depth, st[i]);
      m := Take(i);
    }
  }

  lemma {:induction false} SendableHead<C(!new), D(!new)>(f: Fabric<C, D>, depth: nat, st: Flow<C, D>) returns (i: nat)
    requires Ranked(f) && FlowOk(f, depth, st) && st != []
    ensures i < |st| && HasRoom(f, Packets(st), i)
    ensures st[i].packet.trail != [] && |st[i].packet.since| == |st[i].packet.trail|
    ensures AllocatorAgrees(f, st, i, |st[i].packet.trail| - 1)
  {
    PacketsInv(f, depth, st);
    i := NoDeadlock(f, Packets(st));
    HeadAgrees(f, st, i);
  }

  lemma {:induction false} HeadLeads<C(!new), D(!new)>(f: Fabric<C, D>, depth: nat, st: Flow<C, D>, i: nat, now: nat)
    returns (m: Move<C, D>)
    requires Ranked(f) && FlowOk(f, depth, st) && NotBefore(st, now) && i < |st|
    requires st[i].done == 0 && st[i].packet.out.Some? && HasRoom(f, Packets(st), i)
    requires st[i].packet.trail != [] && |st[i].packet.since| == |st[i].packet.trail|
    requires AllocatorAgrees(f, st, i, |st[i].packet.trail| - 1)
    ensures m.Lead? && CanMove(f, depth, st, m)
  {
    var p := st[i].packet;
    assert WormOk(f, depth, st[i]);
    WantedRanksHigher(f, p);
    var out :| f.lookup(p.dest, p.out.value, out);
    m := Lead(i, out, now);
  }

  lemma {:induction false} HeadAgrees<C(!new), D(!new)>(f: Fabric<C, D>, st: Flow<C, D>, i: nat)
    requires i < |st| && InFlight(Packets(st)) && InTurn(f, Packets(st), i)
    ensures st[i].packet.trail != [] && |st[i].packet.since| == |st[i].packet.trail|
    ensures AllocatorAgrees(f, st, i, |st[i].packet.trail| - 1)
  {
    var ps := Packets(st);
    var last := |ps[i].trail| - 1;
    assert ps[i] == st[i].packet;
    assert ps[i].trail[last] == Head(ps[i]) && OutAt(ps[i], last) == ps[i].out && ps[i].since[last] == Came(ps[i]);
    if f.ordered {
      forall j, l: nat | 0 <= j < |st|
        ensures !IsAhead(st[j], l, Head(ps[i]), ps[i].out, Came(ps[i]))
      {
        assert ps[j] == st[j].packet;
      }
    }
  }

  /** A time not before any stamp. */
  lemma {:induction false} SomeTime<C(!new), D(!new)>(st: Flow<C, D>) returns (now: nat)
    ensures NotBefore(st, now)
  {
    if st == [] {
      now := 0;
    } else {
      var n := |st| - 1;
      var before := SomeTime(st[..n]);
      var here := LatestOf(st[n].packet.since);
      now := if before <= here then here else before;
      forall i | 0 <= i < |st|
        ensures AllUpTo(st[i].packet.since, now)
      {
        if i < n {
          assert AllUpTo(st[..n][i].packet.since, before);
        }
      }
    }
  }

  lemma {:induction false} LatestOf(since: seq<nat>) returns (now: nat)
    ensures AllUpTo(since, now)
  {
    now := 0;
    if since != [] {
      var n := |since| - 1;
      now := LatestOf(since[..n]);
      if now < since[n] {
        now := since[n];
      }
      assert forall k :: 0 <= k < n ==> since[..n][k] == since[k];
    }
  }

  /** Packets that fit into one buffer: a source, a flit behind its head, a delivered
      head's flit or a head can move. */
  lemma {:induction false} FittingMoves<C(!new), D(!new)>(f: Fabric<C, D>, depth: nat, st: Flow<C, D>)
    returns (m: Move<C, D>)
    requires Ranked(f) && FlowOk(f, depth, st) && st != []
    requires NoneLonger(st, depth) && (f.ordered ==> HeadsInOrder(st))
    ensures !m.Enter? && CanMove(f, depth, st, m)
  {
    assert forall i :: 0 <= i < |st| ==> WormOk(f, depth, st[i]);
    if i :| 0 <= i < |st| && st[i].toSend > 0 {
      OneInSum(st[i].flits, 0);
      m := Feed(i);
    } else if i, k: nat :| 0 <= i < |st| && k + 1 < |st[i].flits| && st[i].flits[k] > 0 {
      m := BehindFollows(f, depth, st, i, k);
    } else if i :| 0 <= i < |st| && st[i].done > 0 {
      var k := FrontFlit(st[i].flits);
      m := Take(i);
    } else {
      var now := SomeTime(st);
      m := HeadMoves(f, depth, st, now);
    }
  }

  // ---- One VC per channel ----

  lemma {:induction false} HeldLast<C(!new), D(!new)>(st: Flow<C, D>, c: C)
    requires st != []
    ensures Held(Packets(st), c)
         == Held(Packets(st[..|st| - 1]), c) + (if c in st[|st| - 1].packet.trail then 1 else 0)
  {
    var n := |st| - 1;
    assert Packets(st)[..n] == Packets(st[..n]);
  }

  lemma {:induction false} HeldOnce<C(!new), D(!new)>(st: Flow<C, D>, c: C, i: nat)
    requires i < |st| && c in st[i].packet.trail
    ensures Held(Packets(st), c) >= 1
    decreases |st|
  {
    var n := |st| - 1;
    HeldLast(st, c);
    if i < n {
      HeldOnce(st[..n], c, i);
    }
  }

  lemma {:induction false} HeldTwice<C(!new), D(!new)>(st: Flow<C, D>, c: C, i: nat, j: nat)
    requires i < j < |st| && c in st[i].packet.trail && c in st[j].packet.trail
    ensures Held(Packets(st), c) >= 2
    decreases |st|
  {
    var n := |st| - 1;
    HeldLast(st, c);
    if j < n {
      HeldTwice(st[..n], c, i, j);
    } else {
      HeldOnce(st[..n], c, i);
    }
  }

  /** Where only one packet can be, no other goes before it. */
  lemma {:induction false} AloneAgrees<C(!new), D(!new)>(f: Fabric<C, D>, depth: nat, st: Flow<C, D>, i: nat, k: nat)
    requires Ranked(f) && FlowOk(f, depth, st) && f.vcs == 1 && i < |st| && k < |st[i].flits|
    ensures |st[i].packet.trail| == |st[i].packet.since| == |st[i].flits| && AllocatorAgrees(f, st, i, k)
  {
    assert WormOk(f, depth, st[i]) && Held(Packets(st), st[i].packet.trail[k]) <= f.vcs;
    var p := st[i].packet;
    forall j, l: nat | 0 <= j < |st|
      ensures !IsAhead(st[j], l, p.trail[k], OutAt(p, k), p.since[k])
    {
      if IsAhead(st[j], l, p.trail[k], OutAt(p, k), p.since[k]) {
        var c := p.trail[k];
        assert c in p.trail && c in st[j].packet.trail;
        if i < j {
          HeldTwice(st, c, i, j);
        } else if j < i {
          HeldTwice(st, c, j, i);
        } else {
          SamePlace(f, p, k, l);
        }
        assert false;
      }
    }
  }

  lemma {:induction false} SamePlace<C(!new), D(!new)>(f: Fabric<C, D>, p: Packet<C, D>, k: nat, l: nat)
    requires Ranked(f) && PacketOk(f, p) && k < |p.trail| && l < |p.trail| && p.trail[k] == p.trail[l]
    ensures k == l
  {
    if k < l {
      TrailRanks(f, p, k, l);
    } else {
      TrailRanks(f, p, l, k);
    }
  }

  /** Without order to keep, or with nothing to keep it among. */
  lemma {:induction false} FreeToMove<C(!new), D(!new)>(f: Fabric<C, D>, depth: nat, st: Flow<C, D>)
    returns (m: Move<C, D>)
    requires Ranked(f) && depth > 0 && FlowOk(f, depth, st) && st != [] && (f.ordered ==> f.vcs == 1)
    ensures !m.Enter? && CanMove(f, depth, st, m)
  {
    if i :| 0 <= i < |st| && st[i].done > 0 {
      assert WormOk(f, depth, st[i]);
      m := TailFollows(f, depth, st, i);
      if m.Follow? && f.ordered {
        AloneAgrees(f, depth, st, m.i, m.k);
      }
    } else {
      var now := SomeTime(st);
      m := HeadMoves(f, depth, st, now);
    }
  }

  /** The settings under which no state is deadlocked: packets of up to `size` flits. */
  ghost predicate SafeSetting(ordered: bool, vcs: nat, depth: nat, size: nat) {
    !ordered || vcs <= 1 || size <= depth
  }

  /** Under these settings some flit can move in every reachable state but the empty one. */
  lemma {:induction false} NeverDeadlocked<C(!new), D(!new)>(f: Fabric<C, D>, depth: nat, size: nat, st: Flow<C, D>)
    requires Ranked(f) && depth > 0 && Reachable(f, depth, size, st) && SafeSetting(f.ordered, f.vcs, depth, size)
    ensures FlowOk(f, depth, st) && !Deadlocked(f, depth, st)
  {
    var ms :| Leads(f, depth, [], ms, st) && UpTo(ms, size);
    EmptyFlowOk(f, depth);
    SafeOverRun(f, depth, size, [], ms, st);
    if st != [] {
      var m;
      if size <= depth {
        m := FittingMoves(f, depth, st);
      } else {
        m := FreeToMove(f, depth, st);
      }
      assert CanMove(f, depth, st, m);
    }
  }

  /** Where a run leads from a reachable state is reachable. */
  lemma {:induction false} Further<C(!new), D(!new)>(f: Fabric<C, D>, depth: nat, size: nat, a: Flow<C, D>,
          ms: seq<Move<C, D>>, b: Flow<C, D>)
    requires Reachable(f, depth, size, a) && Leads(f, depth, a, ms, b) && UpTo(ms, size)
    ensures Reachable(f, depth, size, b)
    decreases |ms|
  {
    if ms != [] {
      Go(f, depth, size, a, ms[0]);
      Further(f, depth, size, Moved(f, depth, a, ms[0]), ms[1..], b);
    }
  }

  /** Once no packet enters any more, a run is bounded by the work left, and where it
      cannot go on the network is empty. */
  lemma {:induction false} Drains<C(!new), D(!new)>(f: Fabric<C, D>, depth: nat, size: nat, a: Flow<C, D>,
          ms: seq<Move<C, D>>, b: Flow<C, D>)
    requires Ranked(f) && depth > 0 && Reachable(f, depth, size, a) && SafeSetting(f.ordered, f.vcs, depth, size)
    requires Leads(f, depth, a, ms, b) && forall k :: 0 <= k < |ms| ==> !ms[k].Enter?
    ensures FlowOk(f, depth, a) && |ms| <= FlowWork(f, a)
    ensures AtRest(f, depth, b) ==> b == []
  {
    ReachableOk(f, depth, size, a);
    RunIsBounded(f, depth, a, ms, b);
    Further(f, depth, size, a, ms, b);
    NeverDeadlocked(f, depth, size, b);
  }
}
