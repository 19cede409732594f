/** Worms that block each other: whatever else enters or moves, they stay. */
module Jam {
  import opened Results
  import opened Fabric
  import opened Worms
  import opened Allocator

  /** A flit of another worm of the jam is ahead of the flits at the k-th channel. */
  ghost predicate HeldBack<C(!new), D>(ws: Flow<C, D>, w: Worm<C, D>, k: nat)
    requires k < |w.packet.trail| == |w.packet.since|
  {
    exists j, l: nat :: 0 <= j < |ws| && IsAhead(ws[j], l, w.packet.trail[k], OutAt(w.packet, k), w.packet.since[k])
  }

  /** The flits at the k-th channel cannot follow: none is there, the buffer ahead is
      full, or another flit of the jam is ahead. */
  ghost predicate StandsAt<C(!new), D>(depth: nat, ws: Flow<C, D>, w: Worm<C, D>, k: nat)
    requires k + 1 < |w.flits| == |w.packet.trail| == |w.packet.since|
  {
    w.flits[k] == 0 || w.flits[k + 1] == depth || HeldBack(ws, w, k)
  }

  /** The worm cannot move, because of worms of the jam: its source has sent all, its
      tail is at its first channel, its head waits for a channel they fill or has been
      taken, and nothing behind the head can follow. */
  ghost predicate Blocked<C(!new), D>(f: Fabric<C, D>, depth: nat, ws: Flow<C, D>, w: Worm<C, D>) {
    && |w.flits| == |w.packet.trail| == |w.packet.since| > 0
    && w.toSend == 0 && w.flits[0] > 0
    && (w.packet.out.Some? ==> Held(Packets(ws), w.packet.out.value) >= f.vcs)
    && (w.packet.out.None? ==> w.flits[|w.flits| - 1] == 0)
    && (forall k: nat :: k + 1 < |w.flits| ==> StandsAt(depth, ws, w, k))
  }

  ghost predicate Jammed<C(!new), D>(f: Fabric<C, D>, depth: nat, ws: Flow<C, D>) {
    f.ordered && ws != [] && forall i :: 0 <= i < |ws| ==> Blocked(f, depth, ws, ws[i])
  }

  // ---- Parts of a network ----

  lemma {:induction false} RemoveOne<T>(s: seq<T>, i: nat)
    requires i < |s|
    ensures multiset(s[..i] + s[i + 1..]) == multiset(s) - multiset{s[i]}
  {
    assert s == s[..i] + [s[i]] + s[i + 1..];
  }

  /** The last of the part, and the rest of it in what is left. */
  lemma {:induction false} LastOf<T>(ws: seq<T>, st: seq<T>) returns (i: nat)
    requires ws != [] && multiset(ws) <= multiset(st)
    ensures i < |st| && st[i] == ws[|ws| - 1] && multiset(ws[..|ws| - 1]) <= multiset(st[..i] + st[i + 1..])
  {
    var n := |ws| - 1;
    assert ws == ws[..n] + [ws[n]];
    assert ws[n] in multiset(st);
    i :| 0 <= i < |st| && st[i] == ws[n];
    RemoveOne(st, i);
  }

  /** The part holds no more VCs than the whole. */
  lemma {:induction false} HeldWithin<C, D>(ws: Flow<C, D>, st: Flow<C, D>, c: C)
    requires multiset(ws) <= multiset(st)
    ensures Held(Packets(ws), c) <= Held(Packets(st), c)
    decreases |ws|
  {
    if ws != [] {
      var n := |ws| - 1;
      var i := LastOf(ws, st);
      HeldWithin(ws[..n], st[..i] + st[i + 1..], c);
      PacketsRemove(st, i);
      HeldRemove(Packets(st), i, c);
      assert Packets(ws)[..n] == Packets(ws[..n]);
    }
  }

  lemma {:induction false} PartAfterUpdate<T>(ws: seq<T>, st: seq<T>, i: nat, w: T)
    requires multiset(ws) <= multiset(st) && i < |st| && st[i] !in ws
    ensures multiset(ws) <= multiset(st[i := w])
  {
    assert st == st[..i] + [st[i]] + st[i + 1..];
    assert st[i := w] == st[..i] + [w] + st[i + 1..];
  }

  lemma {:induction false} PartAfterRemove<T>(ws: seq<T>, st: seq<T>, i: nat)
    requires multiset(ws) <= multiset(st) && i < |st| && st[i] !in ws
    ensures multiset(ws) <= multiset(st[..i] + st[i + 1..])
  {
    RemoveOne(st, i);
  }

  // ---- A jam stays ----

  lemma {:induction false} CannotLead<C(!new), D(!new)>(f: Fabric<C, D>, depth: nat, ws: Flow<C, D>, st: Flow<C, D>,
          i: nat, out: Option<C>, now: nat)
    requires FlowOk(f, depth, st) && multiset(ws) <= multiset(st)
    requires i < |st| && Blocked(f, depth, ws, st[i])
    ensures !CanMove(f, depth, st, Lead(i, out, now))
  {
    if st[i].packet.out.Some? {
      assert Packets(st)[i] == st[i].packet;
      HeldWithin(ws, st, st[i].packet.out.value);
    }
  }

  lemma {:induction false} CannotFollow<C(!new), D(!new)>(f: Fabric<C, D>, depth: nat, ws: Flow<C, D>,
          st: Flow<C, D>, i: nat, k: nat)
    requires FlowOk(f, depth, st) && multiset(ws) <= multiset(st) && f.ordered
    requires i < |st| && Blocked(f, depth, ws, st[i])
    ensures !CanMove(f, depth, st, Follow(i, k))
  {
    var w := st[i];
    if k + 1 < |w.flits| {
      assert StandsAt(depth, ws, w, k);
      if HeldBack(ws, w, k) {
        var j, l: nat :| 0 <= j < |ws| && IsAhead(ws[j], l, w.packet.trail[k], OutAt(w.packet, k), w.packet.since[k]);
        assert ws[j] in multiset(st);
        var h :| 0 <= h < |st| && st[h] == ws[j];
        assert !AllocatorAgrees(f, st, i, k);
      }
    }
  }

  /** No worm of the jam moves. */
  lemma {:induction false} NoneMoves<C(!new), D(!new)>(f: Fabric<C, D>, depth: nat, ws: Flow<C, D>, st: Flow<C, D>,
          m: Move<C, D>)
    requires FlowOk(f, depth, st) && multiset(ws) <= multiset(st) && f.ordered
    requires !m.Enter? && m.i < |st| && Blocked(f, depth, ws, st[m.i])
    ensures !CanMove(f, depth, st, m)
  {
    match m {
      case Feed(_) =>
      case Lead(i, out, now) => CannotLead(f, depth, ws, st, i, out, now);
      case Follow(i, k) => CannotFollow(f, depth, ws, st, i, k);
      case Take(_) =>
      case Free(_) =>
    }
  }

  lemma {:induction false} MoverIsFree<C(!new), D(!new)>(f: Fabric<C, D>, depth: nat, ws: Flow<C, D>, st: Flow<C, D>,
          m: Move<C, D>)
    requires FlowOk(f, depth, st) && CanMove(f, depth, st, m) && !m.Enter?
    requires Jammed(f, depth, ws) && multiset(ws) <= multiset(st)
    ensures m.i < |st| && st[m.i] !in ws
  {
    assert m.i < |st|;
    if st[m.i] in ws {
      NoneMoves(f, depth, ws, st, m);
      assert false;
    }
  }

  /** Every move of the network leaves the jam in it. */
  lemma {:induction false} JamKept<C(!new), D(!new)>(f: Fabric<C, D>, depth: nat, ws: Flow<C, D>, st: Flow<C, D>,
          m: Move<C, D>)
    requires FlowOk(f, depth, st) && CanMove(f, depth, st, m)
    requires Jammed(f, depth, ws) && multiset(ws) <= multiset(st)
    ensures multiset(ws) <= multiset(Moved(f, depth, st, m))
  {
    if !m.Enter? {
      MoverIsFree(f, depth, ws, st, m);
      var w := OneChanges(f, depth, st, m);
      PartAfterUpdate(ws, st, m.i, w);
      PartAfterRemove(ws, st, m.i);
    }
  }

  /** A move changes one worm or takes it away. */
  lemma {:induction false} OneChanges<C(!new), D(!new)>(f: Fabric<C, D>, depth: nat, st: Flow<C, D>, m: Move<C, D>)
    returns (w: Worm<C, D>)
    requires FlowOk(f, depth, st) && Enabled(f, depth, st, m) && !m.Enter?
    ensures m.i < |st|
    ensures Moved(f, depth, st, m) == st[m.i := w] || Moved(f, depth, st, m) == st[..m.i] + st[m.i + 1..]
  {
    var v := st[m.i];
    match m {
      case Feed(i) => w := Fed(v);
      case Lead(i, out, now) => w := Led(v, out, now);
      case Follow(i, k) => w := Followed(v, k);
      case Take(i) => w := if v.done + 1 == v.size then v else Taken(v);
      case Free(i) => w := Freed(v);
    }
  }

  /** A jam is there at the end of every run from where it is. */
  lemma {:induction false} JamForGood<C(!new), D(!new)>(f: Fabric<C, D>, depth: nat, ws: Flow<C, D>, a: Flow<C, D>,
          ms: seq<Move<C, D>>, b: Flow<C, D>)
    requires Leads(f, depth, a, ms, b) && Jammed(f, depth, ws) && multiset(ws) <= multiset(a)
    ensures multiset(ws) <= multiset(b) && b != []
    decreases |ms|
  {
    if ms == [] {
      assert ws[0] in multiset(ws);
    } else {
      JamKept(f, depth, ws, a, ms[0]);
      JamForGood(f, depth, ws, Moved(f, depth, a, ms[0]), ms[1..], b);
    }
  }

  /** A network that is all jam is deadlocked. */
  lemma {:induction false} JamIsDeadlock<C(!new), D(!new)>(f: Fabric<C, D>, depth: nat, st: Flow<C, D>)
    requires FlowOk(f, depth, st) && Jammed(f, depth, st)
    ensures Deadlocked(f, depth, st)
  {
    forall m | CanMove(f, depth, st, m)
      ensures m.Enter?
    {
      if !m.Enter? {
        assert m.i < |st|;
        NoneMoves(f, depth, st, st, m);
        assert false;
      }
    }
  }
}
