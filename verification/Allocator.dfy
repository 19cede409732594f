/** Which flits may go: besides room ahead, an ordered virtual network asks that no
    flit goes before one that came in earlier by the same channel for the same output,
    and that a source finishes one packet before it begins the next. Runs have a clock:
    a head is never stamped before a stamp that is there. */
module Allocator {
  import opened Results
  import opened Fabric
  import opened Worms
  import opened WormWork

  /** The check of the switch allocator: packets that have a flit at the end of the
      channel and came in earlier for the same output hold others back. */
  ghost predicate AllocatorAgrees<C(!new), D>(f: Fabric<C, D>, st: Flow<C, D>, i: nat, k: nat)
    requires i < |st| && k < |st[i].packet.trail| == |st[i].packet.since|
  {
    var p := st[i].packet;
    f.ordered ==> forall j, l: nat :: 0 <= j < |st| ==>
      !IsAhead(st[j], l, p.trail[k], OutAt(p, k), p.since[k])
  }

  ghost predicate IsAhead<C(!new), D>(w: Worm<C, D>, l: nat, c: C, out: Option<C>, time: nat) {
    l < |w.flits| && w.flits[l] > 0 && CameBefore(w.packet, l, c, out, time)
  }

  /** The check of the network interface: no packet it has begun is left to finish. Copies
      of a multicast message have the same time there and are not held to it. */
  ghost predicate SourceFree<C(!new), D>(f: Fabric<C, D>, st: Flow<C, D>, c: C) {
    f.ordered && f.oneByOne ==> forall i :: 0 <= i < |st| && st[i].toSend > 0 && st[i].packet.trail != [] ==>
      st[i].packet.trail[0] != c
  }

  ghost predicate NotBefore<C, D>(st: Flow<C, D>, now: nat) {
    forall i :: 0 <= i < |st| ==> AllUpTo(st[i].packet.since, now)
  }

  ghost predicate AllUpTo(since: seq<nat>, now: nat) {
    forall k :: 0 <= k < |since| ==> since[k] <= now
  }

  /** A move that buffers, order and clock all allow. A destination takes flits unasked. */
  ghost predicate CanMove<C(!new), D>(f: Fabric<C, D>, depth: nat, st: Flow<C, D>, m: Move<C, D>)
    requires FlowOk(f, depth, st)
  {
    && Enabled(f, depth, st, m)
    && match m
       case Enter(c, _, _, now, _) => SourceFree(f, st, c) && NotBefore(st, now)
       case Lead(i, _, now) => AllocatorAgrees(f, st, i, |st[i].packet.trail| - 1) && NotBefore(st, now)
       case Follow(i, k) => AllocatorAgrees(f, st, i, k)
       case _ => true
  }

  /** The moves lead from one state to the other. */
  ghost predicate Leads<C(!new), D>(f: Fabric<C, D>, depth: nat, a: Flow<C, D>, ms: seq<Move<C, D>>, b: Flow<C, D>)
    decreases |ms|
  {
    if ms == [] then a == b
    else FlowOk(f, depth, a) && CanMove(f, depth, a, ms[0]) && Leads(f, depth, Moved(f, depth, a, ms[0]), ms[1..], b)
  }

  /** No packet that enters is longer than the size. */
  ghost predicate UpTo<C, D>(ms: seq<Move<C, D>>, size: nat) {
    forall k :: 0 <= k < |ms| && ms[k].Enter? ==> ms[k].size <= size
  }

  lemma {:induction false} LeadsOn<C(!new), D(!new)>(f: Fabric<C, D>, depth: nat, a: Flow<C, D>, ms: seq<Move<C, D>>,
          b: Flow<C, D>, m: Move<C, D>)
    requires Leads(f, depth, a, ms, b) && FlowOk(f, depth, b) && CanMove(f, depth, b, m)
    ensures Leads(f, depth, a, ms + [m], Moved(f, depth, b, m))
    decreases |ms|
  {
    if ms == [] {
      assert (ms + [m])[0] == m && (ms + [m])[1..] == [];
    } else {
      LeadsOn(f, depth, Moved(f, depth, a, ms[0]), ms[1..], b, m);
      assert (ms + [m])[0] == ms[0] && (ms + [m])[1..] == ms[1..] + [m];
    }
  }

  /** The invariant holds throughout every run. */
  lemma {:induction false} OkOverRun<C(!new), D(!new)>(f: Fabric<C, D>, depth: nat, a: Flow<C, D>,
          ms: seq<Move<C, D>>, b: Flow<C, D>)
    requires Ranked(f) && depth > 0 && FlowOk(f, depth, a) && Leads(f, depth, a, ms, b)
    ensures FlowOk(f, depth, b)
    decreases |ms|
  {
    if ms != [] {
      FlowKept(f, depth, a, ms[0]);
      OkOverRun(f, depth, Moved(f, depth, a, ms[0]), ms[1..], b);
    }
  }

  /** Once no packet enters any more, a run is no longer than the work at its start. */
  lemma {:induction false} RunIsBounded<C(!new), D(!new)>(f: Fabric<C, D>, depth: nat, a: Flow<C, D>,
          ms: seq<Move<C, D>>, b: Flow<C, D>)
    requires Ranked(f) && depth > 0 && FlowOk(f, depth, a) && Leads(f, depth, a, ms, b)
    requires forall k :: 0 <= k < |ms| ==> !ms[k].Enter?
    ensures FlowOk(f, depth, b) && |ms| + FlowWork(f, b) <= FlowWork(f, a)
    decreases |ms|
  {
    if ms != [] {
      FlowWorkShrinks(f, depth, a, ms[0]);
      RunIsBounded(f, depth, Moved(f, depth, a, ms[0]), ms[1..], b);
    }
  }

  /** Nothing that is there can move. */
  ghost predicate AtRest<C(!new), D(!new)>(f: Fabric<C, D>, depth: nat, st: Flow<C, D>) {
    FlowOk(f, depth, st) && forall m :: CanMove(f, depth, st, m) ==> m.Enter?
  }

  /** Packets are there, and none of them can move. */
  ghost predicate Deadlocked<C(!new), D(!new)>(f: Fabric<C, D>, depth: nat, st: Flow<C, D>) {
    st != [] && AtRest(f, depth, st)
  }

  /** A run of packets of at most the given size leads there from the empty network. */
  ghost predicate Reachable<C(!new), D(!new)>(f: Fabric<C, D>, depth: nat, size: nat, st: Flow<C, D>) {
    exists ms :: Leads(f, depth, [], ms, st) && UpTo(ms, size)
  }

  lemma {:induction false} ReachableOk<C(!new), D(!new)>(f: Fabric<C, D>, depth: nat, size: nat, st: Flow<C, D>)
    requires Ranked(f) && depth > 0 && Reachable(f, depth, size, st)
    ensures FlowOk(f, depth, st)
  {
    var ms :| Leads(f, depth, [], ms, st) && UpTo(ms, size);
    EmptyFlowOk(f, depth);
    OkOverRun(f, depth, [], ms, st);
  }

  /** One more move. */
  lemma {:induction false} Go<C(!new), D(!new)>(f: Fabric<C, D>, depth: nat, size: nat, st: Flow<C, D>, m: Move<C, D>)
    requires Reachable(f, depth, size, st) && FlowOk(f, depth, st) && CanMove(f, depth, st, m)
    requires m.Enter? ==> m.size <= size
    ensures Reachable(f, depth, size, Moved(f, depth, st, m))
  {
    var ms :| Leads(f, depth, [], ms, st) && UpTo(ms, size);
    LeadsOn(f, depth, [], ms, st, m);
    assert UpTo(ms + [m], size);
  }
}
