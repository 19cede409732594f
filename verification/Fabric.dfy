/** Wormhole switching over virtual channels (VCs), for any network.

    A packet holds one VC on every channel between its tail and its head.  When
    its head arrives at the end of a channel the output is looked up once; the
    head then waits until the output channel has a free VC.  An ordered virtual
    network also makes it wait for packets that came in earlier by the same
    channel for the same output.  A network is described by which channels a
    packet for a destination may hold and what the lookup may then return.
    This module is about heads alone; their flits come in Worms. */
module Fabric {
  import opened Results

  datatype Fabric<!C, !D> = Fabric(
    entry: C -> bool,                   // channels by which controllers send packets in
    mayHold: (D, C) -> bool,            // a packet for the destination may be on the channel
    lookup: (D, C, Option<C>) -> bool,  // possible outputs at the channel's end; None is the exit
    rank: C -> nat,
    left: (D, C) -> nat,                // channels still to be taken, at most
    vcs: nat,
    ordered: bool,
    oneByOne: bool)                     // sources of an ordered network finish a packet before the next

  /** What is asked of a network: every lookup has a result, results stay on
      permitted channels, rank grows and the way left shrinks. */
  ghost predicate Ranked<C(!new), D(!new)>(f: Fabric<C, D>) {
    f.vcs > 0 && LooksUp(f) && Climbs(f)
  }

  ghost predicate LooksUp<C(!new), D(!new)>(f: Fabric<C, D>) {
    forall d, c :: f.mayHold(d, c) ==> exists o :: f.lookup(d, c, o)
  }

  ghost predicate Climbs<C(!new), D(!new)>(f: Fabric<C, D>) {
    forall d, c, e :: f.mayHold(d, c) && f.lookup(d, c, Some(e)) ==>
      f.mayHold(d, e) && f.rank(c) < f.rank(e) && f.left(d, e) < f.left(d, c)
  }

  ghost predicate ClimbsAt<C(!new), D(!new)>(f: Fabric<C, D>, d: D, c: C, e: C) {
    f.mayHold(d, c) && f.lookup(d, c, Some(e)) ==>
      f.mayHold(d, e) && f.rank(c) < f.rank(e) && f.left(d, e) < f.left(d, c)
  }

  lemma {:induction false} ClimbsEverywhere<C(!new), D(!new)>(f: Fabric<C, D>)
    requires forall d, c, e :: ClimbsAt(f, d, c, e)
    ensures Climbs(f)
  {
    forall d, c, e | f.mayHold(d, c) && f.lookup(d, c, Some(e))
      ensures f.mayHold(d, e) && f.rank(c) < f.rank(e) && f.left(d, e) < f.left(d, c)
    {
      assert ClimbsAt(f, d, c, e);
    }
  }

  /** A packet: the channels it holds a VC on, tail first, and when its head came in
      by each; the output its head waits for; its destination. */
  datatype Packet<C, D> = Packet(trail: seq<C>, since: seq<nat>, out: Option<C>, dest: D)

  type State<C, D> = seq<Packet<C, D>>

  ghost function Head<C, D>(p: Packet<C, D>): C
    requires p.trail != []
  {
    p.trail[|p.trail| - 1]
  }

  /** How many VCs of a channel are held. */
  ghost function Held<C, D>(st: State<C, D>, c: C): nat {
    if st == [] then 0
    else Held(st[..|st| - 1], c) + (if c in st[|st| - 1].trail then 1 else 0)
  }

  /** Channel k of the packet is what the lookup returned at the end of the one before. */
  ghost predicate LookedUp<C(!new), D>(f: Fabric<C, D>, p: Packet<C, D>, k: nat)
    requires 0 < k < |p.trail|
  {
    f.lookup(p.dest, p.trail[k - 1], Some(p.trail[k]))
  }

  ghost predicate PacketOk<C(!new), D>(f: Fabric<C, D>, p: Packet<C, D>) {
    && p.trail != [] && |p.since| == |p.trail|
    && (forall k :: 0 <= k < |p.trail| ==> f.mayHold(p.dest, p.trail[k]))
    && (forall k: nat :: 0 < k < |p.trail| ==> LookedUp(f, p, k))
    && f.lookup(p.dest, Head(p), p.out)
  }

  /** Every packet follows its route, and no channel has more holders than VCs. */
  ghost predicate Inv<C(!new), D>(f: Fabric<C, D>, st: State<C, D>) {
    && (forall i :: 0 <= i < |st| ==> PacketOk(f, st[i]))
    && WithinCapacity(f, st)
  }

  /** Every packet holds a channel. */
  ghost predicate InFlight<C, D>(st: State<C, D>) {
    forall k :: 0 <= k < |st| ==> st[k].trail != [] && |st[k].since| == |st[k].trail|
  }

  /** When the head came in by the channel it is on. */
  ghost function Came<C, D>(p: Packet<C, D>): nat
    requires p.trail != [] && |p.since| == |p.trail|
  {
    p.since[|p.since| - 1]
  }

  /** The output of a packet at the end of its k-th channel. */
  ghost function OutAt<C, D>(p: Packet<C, D>, k: nat): Option<C>
    requires k < |p.trail|
  {
    if k == |p.trail| - 1 then p.out else Some(p.trail[k + 1])
  }

  /** Packet q is, or was, at the end of channel c for the same output, and came in
      there before the given time. */
  ghost predicate CameBefore<C(!new), D>(q: Packet<C, D>, k: nat, c: C, out: Option<C>, time: nat) {
    k < |q.trail| == |q.since| && q.trail[k] == c && OutAt(q, k) == out && q.since[k] < time
  }

  /** Packet i is the first of all that hold its channel for its output. */
  ghost predicate InTurn<C(!new), D>(f: Fabric<C, D>, st: State<C, D>, i: nat)
    requires i < |st| && InFlight(st)
  {
    f.ordered ==> forall j, k: nat :: 0 <= j < |st| ==> !CameBefore(st[j], k, Head(st[i]), st[i].out, Came(st[i]))
  }

  /** A VC is free for the head of packet i, or it needs none. */
  ghost predicate HasRoom<C(!new), D>(f: Fabric<C, D>, st: State<C, D>, i: nat)
    requires i < |st|
  {
    st[i].out.Some? ==> Held(st, st[i].out.value) < f.vcs
  }

  /** The head of packet i may be sent to its output, or to its destination. */
  ghost predicate CanSend<C(!new), D>(f: Fabric<C, D>, st: State<C, D>, i: nat)
    requires Inv(f, st) && i < |st|
  {
    HasRoom(f, st, i) && InTurn(f, st, i)
  }

  /** The packet once its head is on its output channel. */
  ghost function Extended<C, D>(p: Packet<C, D>, out: Option<C>, now: nat): Packet<C, D>
    requires p.out.Some?
  {
    Packet(p.trail + [p.out.value], p.since + [now], out, p.dest)
  }

  /** The packet once its tail has left a channel. */
  ghost function Shortened<C, D>(p: Packet<C, D>): Packet<C, D>
    requires |p.trail| > 1 && |p.since| == |p.trail|
  {
    p.(trail := p.trail[1..], since := p.since[1..])
  }

  datatype Event<C, D> =
    | Injected(at: C, dest: D, out: Option<C>, now: nat)  // a controller sends a packet in
    | Advanced(i: nat, out: Option<C>, now: nat)          // a head takes a VC on its output channel
    | Released(i: nat)                                    // a tail leaves a channel
    | Ejected(i: nat)                                     // the destination takes the packet

  /** One step of the network. */
  ghost predicate Next<C(!new), D>(f: Fabric<C, D>, st: State<C, D>, ev: Event<C, D>, st': State<C, D>)
    requires Inv(f, st)
  {
    match ev
    case Injected(c, dest, out, now) =>
      && f.entry(c) && f.mayHold(dest, c) && Held(st, c) < f.vcs && f.lookup(dest, c, out)
      && st' == st + [Packet([c], [now], out, dest)]
    case Advanced(i, out, now) =>
      && i < |st| && st[i].out.Some? && HasRoom(f, st, i) && f.lookup(st[i].dest, st[i].out.value, out)
      && st' == st[i := Extended(st[i], out, now)]
    case Released(i) =>
      && i < |st| && |st[i].trail| > 1
      && st' == st[i := Shortened(st[i])]
    case Ejected(i) =>
      && i < |st| && st[i].out.None?
      && st' == st[..i] + st[i + 1..]
  }

  // ---- Counting held VCs ----

  lemma {:induction false} HeldUpdate<C, D>(st: State<C, D>, i: nat, p: Packet<C, D>, c: C)
    requires i < |st|
    ensures Held(st[i := p], c)
         == Held(st, c) - (if c in st[i].trail then 1 else 0) + (if c in p.trail then 1 else 0)
  {
    var last := |st| - 1;
    if i == last {
      assert st[i := p][..last] == st[..last];
    } else {
      HeldUpdate(st[..last], i, p, c);
      assert st[i := p][..last] == st[..last][i := p];
    }
  }

  lemma {:induction false} RemoveButLast<T>(s: seq<T>, i: nat)
    requires i < |s| - 1
    ensures var rest, last := s[..i] + s[i + 1..], |s| - 1;
            rest[..|rest| - 1] == s[..last][..i] + s[..last][i + 1..] && rest[|rest| - 1] == s[last]
  {
  }

  lemma {:induction false} HeldRemove<C, D>(st: State<C, D>, i: nat, c: C)
    requires i < |st|
    ensures Held(st[..i] + st[i + 1..], c) == Held(st, c) - (if c in st[i].trail then 1 else 0)
  {
    var last := |st| - 1;
    var rest := st[..i] + st[i + 1..];
    if i == last {
      assert rest == st[..last];
    } else {
      RemoveButLast(st, i);
      HeldRemove(st[..last], i, c);
    }
  }

  /** A held VC has a holder. */
  lemma {:induction false} Holder<C, D>(st: State<C, D>, c: C) returns (j: nat)
    requires Held(st, c) > 0
    ensures j < |st| && c in st[j].trail
  {
    var last := |st| - 1;
    if c in st[last].trail {
      j := last;
    } else {
      j := Holder(st[..last], c);
    }
  }

  // ---- Ranks along a packet ----

  lemma {:induction false} TrailRanks<C(!new), D(!new)>(f: Fabric<C, D>, p: Packet<C, D>, i: nat, j: nat)
    requires Ranked(f) && PacketOk(f, p) && i <= j < |p.trail|
    ensures i < j ==> f.rank(p.trail[i]) < f.rank(p.trail[j])
    decreases j - i
  {
    if i < j {
      TrailRanks(f, p, i, j - 1);
      assert LookedUp(f, p, j);
    }
  }

  /** The channel a packet waits for ranks above everything it holds. */
  lemma {:induction false} WantedRanksHigher<C(!new), D(!new)>(f: Fabric<C, D>, p: Packet<C, D>)
    requires Ranked(f) && PacketOk(f, p) && p.out.Some?
    ensures f.mayHold(p.dest, p.out.value)
    ensures f.rank(Head(p)) < f.rank(p.out.value)
    ensures p.out.value !in p.trail
  {
    if i :| 0 <= i < |p.trail| && p.trail[i] == p.out.value {
      TrailRanks(f, p, i, |p.trail| - 1);
      assert false;
    }
  }

  // ---- Safety over every run ----

  lemma {:induction false} PacketAdvances<C(!new), D(!new)>(f: Fabric<C, D>, p: Packet<C, D>, out: Option<C>, now: nat)
    requires Ranked(f) && PacketOk(f, p) && p.out.Some? && f.lookup(p.dest, p.out.value, out)
    ensures PacketOk(f, Extended(p, out, now))
  {
    WantedRanksHigher(f, p);
    var q := Extended(p, out, now);
    forall k: nat | 0 < k < |q.trail|
      ensures LookedUp(f, q, k)
    {
      if k < |p.trail| {
        assert LookedUp(f, p, k);
      }
    }
  }

  lemma {:induction false} PacketReleases<C(!new), D(!new)>(f: Fabric<C, D>, p: Packet<C, D>)
    requires PacketOk(f, p) && |p.trail| > 1
    ensures PacketOk(f, Shortened(p))
  {
    var q := Shortened(p);
    forall k: nat | 0 < k < |q.trail|
      ensures LookedUp(f, q, k)
    {
      assert LookedUp(f, p, k + 1);
    }
  }

  ghost predicate WithinCapacity<C(!new), D>(f: Fabric<C, D>, st: State<C, D>) {
    forall c :: Held(st, c) <= f.vcs
  }

  /** No channel is oversubscribed by a step. */
  lemma {:induction false} CapacityKept<C(!new), D(!new)>(f: Fabric<C, D>, st: State<C, D>, ev: Event<C, D>,
          st': State<C, D>)
    requires Ranked(f) && Inv(f, st) && Next(f, st, ev, st')
    ensures WithinCapacity(f, st')
  {
    forall c
      ensures Held(st', c) <= f.vcs
    {
      match ev {
        case Injected(_, _, _, _) =>
          assert st'[..|st|] == st;
        case Advanced(i, out, now) =>
          WantedRanksHigher(f, st[i]);
          HeldUpdate(st, i, st'[i], c);
        case Released(i) =>
          HeldUpdate(st, i, st'[i], c);
        case Ejected(i) =>
          HeldRemove(st, i, c);
      }
    }
  }

  // ---- Absence of deadlock ----

  ghost predicate AtLeastAsFar<C(!new), D>(f: Fabric<C, D>, p: Packet<C, D>, q: Packet<C, D>)
    requires p.trail != [] && q.trail != [] && |p.since| == |p.trail| && |q.since| == |q.trail|
  {
    || f.rank(Head(q)) < f.rank(Head(p))
    || (f.rank(Head(q)) == f.rank(Head(p)) && Came(p) <= Came(q))
  }

  /** A packet whose head channel ranks highest, and among those came in first. */
  lemma {:induction false} Foremost<C(!new), D(!new)>(f: Fabric<C, D>, st: State<C, D>, n: nat) returns (i: nat)
    requires 0 < n <= |st| && InFlight(st)
    ensures i < n
    ensures forall j :: 0 <= j < n ==> AtLeastAsFar(f, st[i], st[j])
  {
    i := 0;
    if n > 1 {
      i := Foremost(f, st, n - 1);
      if !AtLeastAsFar(f, st[i], st[n - 1]) {
        i := n - 1;
      }
    }
  }

  /** No packet has its head beyond the foremost one. */
  lemma {:induction false} NoneBeyond<C(!new), D(!new)>(f: Fabric<C, D>, st: State<C, D>, i: nat, j: nat, k: nat)
    requires Ranked(f) && Inv(f, st) && i < |st| && j < |st| && AtLeastAsFar(f, st[i], st[j])
    requires st[i].out.Some? && k < |st[j].trail|
    ensures st[j].trail[k] != st[i].out.value
  {
    WantedRanksHigher(f, st[i]);
    TrailRanks(f, st[j], k, |st[j].trail| - 1);
  }

  /** A step of the proofs about flits: if every packet's head is still in the network,
      some head can be sent on or taken. Where a head has been taken before its tail,
      order can hold the others back, and this says nothing about their flits. */
  lemma {:induction false} NoDeadlock<C(!new), D(!new)>(f: Fabric<C, D>, st: State<C, D>) returns (i: nat)
    requires Ranked(f) && Inv(f, st) && st != []
    ensures i < |st| && CanSend(f, st, i)
  {
    i := Foremost(f, st, |st|);
    if st[i].out.Some? && Held(st, st[i].out.value) > 0 {
      var j := Holder(st, st[i].out.value);
      var k :| 0 <= k < |st[j].trail| && st[j].trail[k] == st[i].out.value;
      NoneBeyond(f, st, i, j, k);
      assert false;
    }
    forall j, k: nat | 0 <= j < |st|
      ensures !CameBefore(st[j], k, Head(st[i]), st[i].out, Came(st[i]))
    {
      assert AtLeastAsFar(f, st[i], st[j]);
      if k < |st[j].trail| - 1 && st[i].out.Some? {
        NoneBeyond(f, st, i, j, k + 1);
      }
    }
  }
}
