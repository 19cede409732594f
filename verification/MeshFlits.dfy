/** The mesh topologies flit by flit, with finite buffers: when every packet arrives. */
module MeshFlits {
  import opened Grid
  import opened Mesh
  import opened Worms
  import opened WormWork
  import opened MeshDeadlock
  import opened Allocator
  import opened OrderedSafe
  import opened MeshCross

  /** In every state a mesh network reaches, no flit is lost, every buffer and channel
      is within its size; and some flit can move unless none is there, if the network
      is unordered, has one VC per link, or has buffers as long as its packets. */
  lemma {:induction false} MeshNeverDeadlocks(net: Net, depth: nat, size: nat, st: Flow<Channel, ExtLink>)
    requires ValidNet(net) && depth > 0 && Reachable(MeshFabric(net), depth, size, st)
    ensures FlowOk(MeshFabric(net), depth, st)
    ensures SafeSetting(net.ordered, net.vcs, depth, size) ==> !Deadlocked(MeshFabric(net), depth, st)
  {
    MeshIsRanked(net);
    ReachableOk(MeshFabric(net), depth, size, st);
    if SafeSetting(net.ordered, net.vcs, depth, size) {
      NeverDeadlocked(MeshFabric(net), depth, size, st);
    }
  }

  /** With these settings, once no packet enters any more the network empties: the moves
      left are bounded, and where none is possible nothing is left. */
  lemma {:induction false} MeshDrains(net: Net, depth: nat, size: nat, a: Flow<Channel, ExtLink>,
          ms: seq<Move<Channel, ExtLink>>, b: Flow<Channel, ExtLink>)
    requires ValidNet(net) && depth > 0 && Reachable(MeshFabric(net), depth, size, a)
    requires SafeSetting(net.ordered, net.vcs, depth, size)
    requires Leads(MeshFabric(net), depth, a, ms, b) && forall k :: 0 <= k < |ms| ==> !ms[k].Enter?
    ensures FlowOk(MeshFabric(net), depth, a) && |ms| <= FlowWork(MeshFabric(net), a)
    ensures AtRest(MeshFabric(net), depth, b) ==> b == []
  {
    MeshIsRanked(net);
    Drains(MeshFabric(net), depth, size, a, ms, b);
  }

  // ---- In bytes ----

  /** How many flits a message of so many bytes makes. */
  function Flits(bytes: nat, width: nat): nat
    requires width > 0
  {
    Quot(bytes + width - 1, width)
  }

  /** The flits are the fewest that hold the bytes. */
  lemma {:induction false} FlitsHold(bytes: nat, width: nat, n: nat)
    requires width > 0
    ensures Flits(bytes, width) <= n <==> bytes <= Times(n, width)
  {
    var last := bytes + width - 1;
    Encode(last, width);
    if n < Quot(last, width) {
      TimesMonotone(n + 1, Quot(last, width), width);
    } else {
      TimesMonotone(Quot(last, width), n, width);
    }
  }

  /** Messages of up to so many bytes can deadlock an ordered virtual network of such a
      mesh exactly when it has two VCs or more and they do not fit into one buffer. */
  lemma {:induction false} MessagesDeadlockIff(net: Net, nodes: seq<Controller>, routers: nat, depth: nat,
          bytes: nat, width: nat)
    requires Built(net, nodes, routers) && depth > 0 && width > 0 && net.ordered
    ensures (exists st :: Reachable(MeshFabric(net), depth, Flits(bytes, width), st)
                          && DeadForGood(MeshFabric(net), depth, st))
       <==> (net.vcs >= 2 && bytes > Times(depth, width))
  {
    FlitsHold(bytes, width, depth);
    DeadlocksIff(net, nodes, routers, depth, Flits(bytes, width));
  }
}
