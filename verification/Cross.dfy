/** Four arms that meet: how packets one flit longer than a buffer block each other in
    an ordered network with two VCs or more.

    On every arm one packet, the front, comes to the crossing first and waits for one
    exit; the others, the backs, pass it there for the other exit and are held back by
    it when their later flits follow. The backs of two arms hold every VC of the exit
    the fronts of the other two wait for. */
module Cross {
  import opened Results
  import opened Fabric
  import opened Worms
  import opened Allocator
  import opened Jam
  import opened Journeys

  /** Where the arms run: the ways of their packets to the last two channels before the
      crossing, those two channels, the exits and their destinations. */
  datatype Cross<!C, !D> = Cross(path: (nat, nat) -> seq<C>, inn: nat -> C, mid: nat -> C, out: bool -> C,
                                 dst: bool -> D)

  /** The exit the front of an arm waits for; its backs leave by the other. */
  predicate Side(n: nat) {
    n >= 2
  }

  /** How many backs an arm has: two arms share the VCs of an exit. */
  ghost function Backs(vcs: nat, n: nat): nat
    requires vcs >= 2
  {
    if n == 0 || n == 2 then vcs - 1 else 1
  }

  ghost function Road<C, D>(x: Cross<C, D>, n: nat, j: nat, d: bool): seq<C> {
    x.path(n, j) + [x.inn(n), x.mid(n), x.out(d)]
  }

  ghost predicate OffCross<C, D>(x: Cross<C, D>, c: C) {
    && (forall m: nat :: m < 4 ==> c != x.inn(m) && c != x.mid(m))
    && (forall d :: c != x.out(d))
  }

  ghost predicate SpotsApart<C, D>(x: Cross<C, D>) {
    && (forall n: nat, m: nat :: n < 4 && m < 4 ==> x.inn(n) != x.mid(m))
    && (forall n: nat, m: nat :: n < m < 4 ==> x.inn(n) != x.inn(m))
    && (forall n: nat, m: nat :: n < m < 4 ==> x.mid(n) != x.mid(m))
    && (forall n: nat, d :: n < 4 ==> x.inn(n) != x.out(d))
    && (forall n: nat, d :: n < 4 ==> x.mid(n) != x.out(d))
    && x.out(true) != x.out(false)
  }

  ghost predicate PathFits<C(!new), D>(f: Fabric<C, D>, x: Cross<C, D>, n: nat, j: nat) {
    && x.path(n, j) != []
    && (forall k: nat :: k < |x.path(n, j)| ==> OffCross(x, x.path(n, j)[k]))
    && (forall d :: IsRoad(f, Road(x, n, j, d), x.dst(d)))
  }

  ghost predicate SourcesApart<C, D>(x: Cross<C, D>, n: nat, i: nat, j: nat) {
    x.path(n, i) != [] && x.path(n, j) != [] ==> x.path(n, i)[0] != x.path(n, j)[0]
  }

  /** The cross is part of the network. */
  ghost predicate Fits<C(!new), D>(f: Fabric<C, D>, x: Cross<C, D>) {
    && f.ordered && f.vcs >= 2 && SpotsApart(x)
    && (forall n: nat, j: nat :: n < 4 && j <= Backs(f.vcs, n) ==> PathFits(f, x, n, j))
    && (forall n: nat, i: nat, j: nat :: n < 4 && i < j <= Backs(f.vcs, n) ==> SourcesApart(x, n, i, j))
  }

  // ---- The worms ----

  /** A front before its other flits: its head is at the last channel. */
  ghost predicate IsLead<C, D>(x: Cross<C, D>, depth: nat, w: Worm<C, D>, n: nat) {
    && w.packet.trail == x.path(n, 0) + [x.inn(n), x.mid(n)] && |w.packet.since| == |w.packet.trail|
    && w.packet.out == Some(x.out(Side(n)))
    && w.flits == Zeros(|x.path(n, 0)| + 1) + [1] && w.toSend == depth && w.done == 0
  }

  /** A back whose head has been taken, before its other flits. */
  ghost predicate IsGone<C, D>(x: Cross<C, D>, depth: nat, w: Worm<C, D>, n: nat, j: nat) {
    && w.packet.trail == Road(x, n, j, !Side(n)) && |w.packet.since| == |w.packet.trail|
    && w.packet.out == None
    && w.flits == Zeros(|w.packet.trail|) && w.toSend == depth && w.done == 1
  }

  ghost predicate IsFront<C, D>(x: Cross<C, D>, depth: nat, w: Worm<C, D>, n: nat) {
    && w.packet.trail == [x.inn(n), x.mid(n)] && |w.packet.since| == 2
    && w.packet.out == Some(x.out(Side(n))) && w.flits == [1, depth] && w.toSend == 0
  }

  ghost predicate IsBack<C, D>(x: Cross<C, D>, depth: nat, w: Worm<C, D>, n: nat) {
    && w.packet.trail == [x.inn(n), x.mid(n), x.out(!Side(n))] && |w.packet.since| == 3
    && w.packet.out == None && w.flits == [depth, 0, 0] && w.toSend == 0
  }

  // ---- Arms that stand ----

  /** A front, or a back behind the front of its arm. */
  ghost predicate InPlace<C, D>(x: Cross<C, D>, depth: nat, st: Flow<C, D>, w: Worm<C, D>, m: nat) {
    IsFront(x, depth, w, m) || (IsBack(x, depth, w, m) && FrontAhead(x, depth, st, w, m))
  }

  ghost predicate FrontAhead<C, D>(x: Cross<C, D>, depth: nat, st: Flow<C, D>, w: Worm<C, D>, m: nat)
    requires IsBack(x, depth, w, m)
  {
    exists h :: 0 <= h < |st| && IsFront(x, depth, st[h], m) && st[h].packet.since[0] < w.packet.since[0]
  }

  /** How many VCs of an exit the backs of the first n arms hold. */
  ghost function Filled(vcs: nat, n: nat, d: bool): nat
    requires vcs >= 2
  {
    var arms := if d then n else n - 2;
    if arms <= 0 then 0 else if arms == 1 then vcs - 1 else vcs
  }

  /** The first n arms stand, and nothing else is there. */
  ghost predicate Standing<C, D>(vcs: nat, x: Cross<C, D>, depth: nat, st: Flow<C, D>, n: nat)
    requires vcs >= 2
  {
    && (forall i :: 0 <= i < |st| ==> SomePlace(x, depth, st, st[i], n))
    && (forall d :: Held(Packets(st), x.out(d)) == Filled(vcs, n, d))
  }

  ghost predicate SomePlace<C, D>(x: Cross<C, D>, depth: nat, st: Flow<C, D>, w: Worm<C, D>, n: nat) {
    exists m: nat :: m < n && InPlace(x, depth, st, w, m)
  }

  // ---- All four arms: a jam ----

  lemma {:induction false} FrontBlocked<C(!new), D(!new)>(f: Fabric<C, D>, x: Cross<C, D>, depth: nat, st: Flow<C, D>,
          w: Worm<C, D>, n: nat)
    requires IsFront(x, depth, w, n) && Held(Packets(st), x.out(Side(n))) >= f.vcs
    ensures Blocked(f, depth, st, w)
  {
  }

  lemma {:induction false} BackBlocked<C(!new), D(!new)>(f: Fabric<C, D>, x: Cross<C, D>, depth: nat, st: Flow<C, D>,
          w: Worm<C, D>, n: nat)
    requires depth > 0 && IsBack(x, depth, w, n) && FrontAhead(x, depth, st, w, n)
    ensures Blocked(f, depth, st, w)
  {
    var h :| 0 <= h < |st| && IsFront(x, depth, st[h], n) && st[h].packet.since[0] < w.packet.since[0];
    assert IsAhead(st[h], 0, w.packet.trail[0], OutAt(w.packet, 0), w.packet.since[0]);
    assert HeldBack(st, w, 0);
  }

  lemma {:induction false} StandingIsJam<C(!new), D(!new)>(f: Fabric<C, D>, x: Cross<C, D>, depth: nat,
          st: Flow<C, D>, n: nat)
    requires f.ordered && f.vcs >= 2 && depth > 0 && n == 4 && Standing(f.vcs, x, depth, st, n)
    ensures Jammed(f, depth, st)
  {
    assert Held(Packets(st), x.out(true)) == Filled(f.vcs, n, true) == f.vcs;
    assert Held(Packets(st), x.out(false)) == Filled(f.vcs, n, false) == f.vcs;
    assert st != [];
    forall i | 0 <= i < |st|
      ensures Blocked(f, depth, st, st[i])
    {
      assert SomePlace(x, depth, st, st[i], n);
      var m: nat :| m < n && InPlace(x, depth, st, st[i], m);
      if IsFront(x, depth, st[i], m) {
        FrontBlocked(f, x, depth, st, st[i], m);
      } else {
        BackBlocked(f, x, depth, st, st[i], m);
      }
    }
  }
}
