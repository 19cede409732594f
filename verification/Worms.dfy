/** Wormhole switching flit by flit: a packet is a worm of flits spread over the
    channels it holds, and a flit moves on only if the next buffer has room. */
module Worms {
  import opened Results
  import opened Fabric

  /** A packet with its flits: how many are buffered at the end of each channel it
      holds, how many its source has still to send, how many have been delivered. */
  datatype Worm<C, D> = Worm(packet: Packet<C, D>, flits: seq<nat>, toSend: nat, done: nat, size: nat)

  type Flow<C, D> = seq<Worm<C, D>>

  ghost function Packets<C, D>(st: Flow<C, D>): State<C, D> {
    seq(|st|, i requires 0 <= i < |st| => st[i].packet)
  }

  ghost function Sum(fs: seq<nat>): nat {
    if fs == [] then 0 else Sum(fs[..|fs| - 1]) + fs[|fs| - 1]
  }

  /** The worm follows its packet's route, fits the buffers, and has lost no flit;
      its head is at its front until the destination takes it. */
  ghost predicate WormOk<C(!new), D>(f: Fabric<C, D>, depth: nat, w: Worm<C, D>) {
    && PacketOk(f, w.packet) && |w.flits| == |w.packet.trail|
    && (forall k :: 0 <= k < |w.flits| ==> w.flits[k] <= depth)
    && w.toSend + Sum(w.flits) + w.done == w.size && w.done < w.size
    && (w.done == 0 ==> w.flits[|w.flits| - 1] > 0)
    && (w.done > 0 ==> w.packet.out.None?)
  }

  ghost predicate FlowOk<C(!new), D>(f: Fabric<C, D>, depth: nat, st: Flow<C, D>) {
    && (forall i :: 0 <= i < |st| ==> WormOk(f, depth, st[i]))
    && WithinCapacity(f, Packets(st))
  }

  datatype Move<C, D> =
    | Enter(at: C, dest: D, out: Option<C>, now: nat, size: nat)  // a source sends a head flit in
    | Feed(i: nat)                                                // a source sends another flit
    | Lead(i: nat, out: Option<C>, now: nat)                      // a head flit takes a VC and moves on
    | Follow(i: nat, k: nat)                                      // a flit follows to the next channel
    | Take(i: nat)                                                // the destination takes a flit
    | Free(i: nat)                                                // a VC is given back behind the tail

  // ---- One worm's steps ----

  ghost function Fed<C, D>(w: Worm<C, D>): Worm<C, D>
    requires w.toSend > 0 && w.flits != []
  {
    w.(toSend := w.toSend - 1, flits := w.flits[0 := w.flits[0] + 1])
  }

  ghost function Led<C, D>(w: Worm<C, D>, out: Option<C>, now: nat): Worm<C, D>
    requires w.packet.out.Some? && w.flits != [] && w.flits[|w.flits| - 1] > 0
  {
    var last := |w.flits| - 1;
    w.(packet := Extended(w.packet, out, now), flits := w.flits[..last] + [w.flits[last] - 1] + [1])
  }

  ghost function Followed<C, D>(w: Worm<C, D>, k: nat): Worm<C, D>
    requires k + 1 < |w.flits| && w.flits[k] > 0
  {
    w.(flits := w.flits[k := w.flits[k] - 1][k + 1 := w.flits[k + 1] + 1])
  }

  ghost function Taken<C, D>(w: Worm<C, D>): Worm<C, D>
    requires w.flits != [] && w.flits[|w.flits| - 1] > 0
  {
    var last := |w.flits| - 1;
    w.(flits := w.flits[last := w.flits[last] - 1], done := w.done + 1)
  }

  ghost function Freed<C, D>(w: Worm<C, D>): Worm<C, D>
    requires |w.flits| == |w.packet.trail| == |w.packet.since| && |w.flits| > 1
  {
    w.(packet := Shortened(w.packet), flits := w.flits[1..])
  }

  /** What a move asks for: flits to move, room in the next buffer, a VC for a head. */
  ghost predicate Enabled<C(!new), D>(f: Fabric<C, D>, depth: nat, st: Flow<C, D>, m: Move<C, D>)
    requires FlowOk(f, depth, st)
  {
    match m
    case Enter(c, dest, out, now, size) =>
      f.entry(c) && f.mayHold(dest, c) && Held(Packets(st), c) < f.vcs && f.lookup(dest, c, out) && size > 0
    case Feed(i) => i < |st| && st[i].toSend > 0 && st[i].flits[0] < depth
    case Lead(i, out, now) =>
      && i < |st| && st[i].done == 0 && st[i].packet.out.Some? && HasRoom(f, Packets(st), i)
      && f.lookup(st[i].packet.dest, st[i].packet.out.value, out)
    case Follow(i, k) => i < |st| && k + 1 < |st[i].flits| && st[i].flits[k] > 0 && st[i].flits[k + 1] < depth
    case Take(i) => i < |st| && st[i].packet.out.None? && st[i].flits[|st[i].flits| - 1] > 0
    case Free(i) => i < |st| && |st[i].flits| > 1 && st[i].toSend == 0 && st[i].flits[0] == 0
  }

  /** The network after a move. A worm whose last flit is taken is gone. */
  ghost function Moved<C(!new), D>(f: Fabric<C, D>, depth: nat, st: Flow<C, D>, m: Move<C, D>): Flow<C, D>
    requires FlowOk(f, depth, st) && Enabled(f, depth, st, m)
  {
    match m
    case Enter(c, dest, out, now, size) => st + [Worm(Packet([c], [now], out, dest), [1], size - 1, 0, size)]
    case Feed(i) => st[i := Fed(st[i])]
    case Lead(i, out, now) => st[i := Led(st[i], out, now)]
    case Follow(i, k) => st[i := Followed(st[i], k)]
    case Take(i) =>
      if st[i].done + 1 == st[i].size then st[..i] + st[i + 1..] else st[i := Taken(st[i])]
    case Free(i) => st[i := Freed(st[i])]
  }

  // ---- Sums of flits ----

  lemma {:induction false} SumUpdate(fs: seq<nat>, k: nat, v: nat)
    requires k < |fs|
    ensures Sum(fs[k := v]) == Sum(fs) - fs[k] + v
  {
    var last := |fs| - 1;
    if k == last {
      assert fs[k := v][..last] == fs[..last];
    } else {
      SumUpdate(fs[..last], k, v);
      assert fs[k := v][..last] == fs[..last][k := v];
    }
  }

  lemma {:induction false} SumDrop(fs: seq<nat>)
    requires fs != []
    ensures Sum(fs) == fs[0] + Sum(fs[1..])
  {
    if |fs| > 1 {
      var last := |fs| - 1;
      SumDrop(fs[..last]);
      assert fs[..last][1..] == fs[1..][..last - 1];
    } else {
      assert fs[..0] == [] && fs[1..] == [];
    }
  }

  /** A buffered flit furthest ahead, if any flit is buffered. */
  lemma {:induction false} FrontFlit(fs: seq<nat>) returns (k: nat)
    requires Sum(fs) > 0
    ensures k < |fs| && fs[k] > 0 && forall j :: k < j < |fs| ==> fs[j] == 0
  {
    var last := |fs| - 1;
    if fs[last] > 0 {
      k := last;
    } else {
      k := FrontFlit(fs[..last]);
    }
  }

  // ---- Every move keeps every worm in order ----

  lemma {:induction false} FedOk<C(!new), D(!new)>(f: Fabric<C, D>, depth: nat, w: Worm<C, D>)
    requires WormOk(f, depth, w) && w.toSend > 0 && w.flits[0] < depth
    ensures WormOk(f, depth, Fed(w))
  {
    SumUpdate(w.flits, 0, w.flits[0] + 1);
  }

  lemma {:induction false} LedOk<C(!new), D(!new)>(f: Fabric<C, D>, depth: nat, w: Worm<C, D>, out: Option<C>, now: nat)
    requires Ranked(f) && depth > 0 && WormOk(f, depth, w) && w.done == 0 && w.packet.out.Some?
    requires f.lookup(w.packet.dest, w.packet.out.value, out)
    ensures WormOk(f, depth, Led(w, out, now))
  {
    PacketAdvances(f, w.packet, out, now);
    var last := |w.flits| - 1;
    var mid := w.flits[..last] + [w.flits[last] - 1];
    assert mid[..last] == w.flits[..last];
    assert (mid + [1])[..last + 1] == mid;
  }

  lemma {:induction false} FollowedOk<C(!new), D(!new)>(f: Fabric<C, D>, depth: nat, w: Worm<C, D>, k: nat)
    requires WormOk(f, depth, w) && k + 1 < |w.flits| && w.flits[k] > 0 && w.flits[k + 1] < depth
    ensures WormOk(f, depth, Followed(w, k))
  {
    SumUpdate(w.flits, k, w.flits[k] - 1);
    SumUpdate(w.flits[k := w.flits[k] - 1], k + 1, w.flits[k + 1] + 1);
  }

  lemma {:induction false} TakenOk<C(!new), D(!new)>(f: Fabric<C, D>, depth: nat, w: Worm<C, D>)
    requires WormOk(f, depth, w) && w.packet.out.None? && w.flits[|w.flits| - 1] > 0 && w.done + 1 < w.size
    ensures WormOk(f, depth, Taken(w))
  {
    var last := |w.flits| - 1;
    SumUpdate(w.flits, last, w.flits[last] - 1);
  }

  lemma {:induction false} FreedOk<C(!new), D(!new)>(f: Fabric<C, D>, depth: nat, w: Worm<C, D>)
    requires WormOk(f, depth, w) && |w.flits| > 1 && w.flits[0] == 0
    ensures WormOk(f, depth, Freed(w))
  {
    PacketReleases(f, w.packet);
    SumDrop(w.flits);
  }

  // ---- The packets under the flits ----

  lemma {:induction false} PacketsUpdate<C, D>(st: Flow<C, D>, i: nat, w: Worm<C, D>)
    requires i < |st|
    ensures Packets(st[i := w]) == Packets(st)[i := w.packet]
  {
  }

  lemma {:induction false} PacketsUnchanged<C, D>(st: Flow<C, D>, i: nat, w: Worm<C, D>)
    requires i < |st| && w.packet == st[i].packet
    ensures Packets(st[i := w]) == Packets(st)
  {
  }

  lemma {:induction false} PacketsRemove<C, D>(st: Flow<C, D>, i: nat)
    requires i < |st|
    ensures Packets(st[..i] + st[i + 1..]) == Packets(st)[..i] + Packets(st)[i + 1..]
  {
  }

  lemma {:induction false} PacketsAppend<C, D>(st: Flow<C, D>, w: Worm<C, D>)
    ensures Packets(st + [w]) == Packets(st) + [w.packet]
  {
  }

  lemma {:induction false} PacketsInv<C(!new), D(!new)>(f: Fabric<C, D>, depth: nat, st: Flow<C, D>)
    requires FlowOk(f, depth, st)
    ensures Inv(f, Packets(st))
  {
    forall i | 0 <= i < |st|
      ensures PacketOk(f, Packets(st)[i])
    {
      assert WormOk(f, depth, st[i]);
    }
  }

  lemma {:induction false} CapacityOfEnter<C(!new), D(!new)>(f: Fabric<C, D>, depth: nat, st: Flow<C, D>,
          c: C, dest: D, out: Option<C>, now: nat, size: nat)
    requires Ranked(f) && FlowOk(f, depth, st) && Enabled(f, depth, st, Enter(c, dest, out, now, size))
    ensures WithinCapacity(f, Packets(st + [Worm(Packet([c], [now], out, dest), [1], size - 1, 0, size)]))
  {
    var w := Worm(Packet([c], [now], out, dest), [1], size - 1, 0, size);
    PacketsInv(f, depth, st);
    PacketsAppend(st, w);
    CapacityKept(f, Packets(st), Injected(c, dest, out, now), Packets(st + [w]));
  }

  lemma {:induction false} CapacityOfLead<C(!new), D(!new)>(f: Fabric<C, D>, depth: nat, st: Flow<C, D>,
          i: nat, out: Option<C>, now: nat)
    requires Ranked(f) && FlowOk(f, depth, st) && Enabled(f, depth, st, Lead(i, out, now))
    ensures WithinCapacity(f, Packets(Moved(f, depth, st, Lead(i, out, now))))
  {
    PacketsInv(f, depth, st);
    PacketsUpdate(st, i, Led(st[i], out, now));
    CapacityKept(f, Packets(st), Advanced(i, out, now), Packets(st[i := Led(st[i], out, now)]));
  }

  lemma {:induction false} CapacityOfTake<C(!new), D(!new)>(f: Fabric<C, D>, depth: nat, st: Flow<C, D>, i: nat)
    requires Ranked(f) && FlowOk(f, depth, st) && Enabled(f, depth, st, Take(i))
    ensures WithinCapacity(f, Packets(Moved(f, depth, st, Take(i))))
  {
    if st[i].done + 1 == st[i].size {
      PacketsInv(f, depth, st);
      PacketsRemove(st, i);
      CapacityKept(f, Packets(st), Ejected(i), Packets(st[..i] + st[i + 1..]));
    } else {
      PacketsUnchanged(st, i, Taken(st[i]));
    }
  }

  lemma {:induction false} CapacityOfFree<C(!new), D(!new)>(f: Fabric<C, D>, depth: nat, st: Flow<C, D>, i: nat)
    requires Ranked(f) && FlowOk(f, depth, st) && Enabled(f, depth, st, Free(i))
    ensures WithinCapacity(f, Packets(Moved(f, depth, st, Free(i))))
  {
    PacketsInv(f, depth, st);
    PacketsUpdate(st, i, Freed(st[i]));
    CapacityKept(f, Packets(st), Released(i), Packets(st[i := Freed(st[i])]));
  }

  /** As packets, the network takes a step of its own or does not change. */
  lemma {:induction false} CapacityOfMove<C(!new), D(!new)>(f: Fabric<C, D>, depth: nat, st: Flow<C, D>, m: Move<C, D>)
    requires Ranked(f) && FlowOk(f, depth, st) && Enabled(f, depth, st, m)
    ensures WithinCapacity(f, Packets(Moved(f, depth, st, m)))
  {
    match m {
      case Enter(c, dest, out, now, size) => CapacityOfEnter(f, depth, st, c, dest, out, now, size);
      case Feed(i) => PacketsUnchanged(st, i, Fed(st[i]));
      case Lead(i, out, now) => CapacityOfLead(f, depth, st, i, out, now);
      case Follow(i, k) => PacketsUnchanged(st, i, Followed(st[i], k));
      case Take(i) => CapacityOfTake(f, depth, st, i);
      case Free(i) => CapacityOfFree(f, depth, st, i);
    }
  }

  /** Every move keeps the invariant: routes, buffers, VCs, and no flit lost. */
  lemma {:induction false} FlowKept<C(!new), D(!new)>(f: Fabric<C, D>, depth: nat, st: Flow<C, D>, m: Move<C, D>)
    requires Ranked(f) && depth > 0 && FlowOk(f, depth, st) && Enabled(f, depth, st, m)
    ensures FlowOk(f, depth, Moved(f, depth, st, m))
  {
    CapacityOfMove(f, depth, st, m);
    match m {
      case Enter(c, dest, out, now, size) =>
        EnteredOk(f, depth, c, dest, out, now, size);
      case Feed(i) =>
        FedOk(f, depth, st[i]);
      case Lead(i, out, now) =>
        LedOk(f, depth, st[i], out, now);
      case Follow(i, k) =>
        FollowedOk(f, depth, st[i], k);
      case Take(i) =>
        if st[i].done + 1 < st[i].size {
          TakenOk(f, depth, st[i]);
        }
      case Free(i) =>
        FreedOk(f, depth, st[i]);
    }
  }

  lemma {:induction false} EnteredOk<C(!new), D(!new)>(f: Fabric<C, D>, depth: nat, c: C, dest: D, out: Option<C>,
          now: nat, size: nat)
    requires depth > 0 && f.mayHold(dest, c) && f.lookup(dest, c, out) && size > 0
    ensures WormOk(f, depth, Worm(Packet([c], [now], out, dest), [1], size - 1, 0, size))
  {
    assert [1][..0] == [];
    assert Sum([1]) == 1;
  }

  // ---- Absence of deadlock ----

  /** A worm whose head has been taken can always go on: in front of its foremost
      flit every buffer it holds is empty. */
  lemma {:induction false} TailFollows<C(!new), D(!new)>(f: Fabric<C, D>, depth: nat, st: Flow<C, D>, i: nat)
    returns (m: Move<C, D>)
    requires depth > 0 && FlowOk(f, depth, st) && i < |st| && st[i].done > 0
    ensures !m.Enter? && !m.Lead? && Enabled(f, depth, st, m)
  {
    var w := st[i];
    assert WormOk(f, depth, w);
    if Sum(w.flits) > 0 {
      var k := FrontFlit(w.flits);
      m := if k == |w.flits| - 1 then Take(i) else Follow(i, k);
    } else {
      if w.flits[0] > 0 {
        SumDrop(w.flits);
      }
      m := Feed(i);
    }
  }

  lemma {:induction false} EmptyFlowOk<C(!new), D(!new)>(f: Fabric<C, D>, depth: nat)
    ensures FlowOk(f, depth, [])
  {
    assert Packets<C, D>([]) == [];
  }
}
