/** The memory tester's tree of caches and testers. Depth 0 is next to the memory;
    at depth d every subsystem has `testers[d]` testers and `caches[d]` caches
    that each carry a subsystem of depth d + 1. */
module CacheTree {
  import opened Basics
  import opened Grid
  import opened Results

  const BLOCK_SIZE := 64

  datatype Spec = Spec(caches: seq<nat>, testers: seq<nat>)

  datatype Refusal = NoCaches | LengthMismatch | NoTopTesters | NegativeTesters | TooFewCaches | TooManyTesters

  /** One element more for testers than for caches, something at every cache
      level, and testers at the top. */
  ghost predicate WellFormed(spec: Spec) {
    && |spec.caches| >= 1 && |spec.testers| == |spec.caches| + 1
    && spec.testers[|spec.caches|] >= 1
    && forall d :: 0 <= d < |spec.caches| ==> spec.caches[d] >= 1
  }

  // ---- How many testers ----

  /** Testers in a subsystem of depth d and all above it, counted over the tree. */
  ghost function TestersFrom(spec: Spec, d: nat): nat
    requires |spec.testers| == |spec.caches| + 1 && d <= |spec.caches|
    decreases |spec.caches| - d
  {
    spec.testers[d] + if d == |spec.caches| then 0 else Times(spec.caches[d], TestersFrom(spec, d + 1))
  }

  /** Subsystems of depth e in one subsystem of depth d. */
  ghost function Fanout(spec: Spec, d: nat, e: nat): nat
    requires d <= e <= |spec.caches|
    decreases e - d
  {
    if d == e then 1 else Times(spec.caches[d], Fanout(spec, d + 1, e))
  }

  /** The products of the fan-outs, starting from 1. */
  ghost function Multiplier(caches: seq<int>, e: nat): int
    requires e <= |caches|
  {
    if e == 0 then 1 else Multiplier(caches, e - 1) * caches[e - 1]
  }

  ghost function WeightedSum(caches: seq<int>, testers: seq<int>, e: nat): int
    requires e <= |testers| && e <= |caches| + 1
  {
    if e == 0 then 0 else WeightedSum(caches, testers, e - 1) + testers[e - 1] * Multiplier(caches, e - 1)
  }

  method NumTesters(caches: seq<int>, testers: seq<int>) returns (total: int)
    ensures total == WeightedSum(caches, testers, Min(|testers|, |caches| + 1))
  {
    var multiplier := [1];
    for i := 0 to |caches|
      invariant |multiplier| == i + 1
      invariant forall e :: 0 <= e <= i ==> multiplier[e] == Multiplier(caches, e)
    {
      multiplier := multiplier + [multiplier[i] * caches[i]];
    }
    total := 0;
    for i := 0 to Min(|testers|, |multiplier|)
      invariant total == WeightedSum(caches, testers, i)
    {
      total := total + testers[i] * multiplier[i];
    }
  }

  lemma {:induction false} SumFromDepth(spec: Spec, d: nat)
    requires |spec.testers| == |spec.caches| + 1 && d <= |spec.caches|
    ensures WeightedSum(spec.caches, spec.testers, |spec.testers|)
         == WeightedSum(spec.caches, spec.testers, d) + TestersFrom(spec, d) * Multiplier(spec.caches, d)
    decreases |spec.caches| - d
  {
    if d < |spec.caches| {
      SumFromDepth(spec, d + 1);
      var m, c, t := Multiplier(spec.caches, d), spec.caches[d], TestersFrom(spec, d + 1);
      TimesIsProduct(c, t);
      Distribute(spec.testers[d], c, t, m);
    }
  }

  lemma {:induction false} Distribute(a: int, c: int, t: int, m: int)
    ensures (a + c * t) * m == a * m + t * (m * c)
  {
    assert (c * t) * m == t * (m * c);
  }

  /** The closed form counts the testers of the tree. */
  lemma {:induction false} NumTestersCountsTree(spec: Spec)
    requires |spec.testers| == |spec.caches| + 1
    ensures WeightedSum(spec.caches, spec.testers, |spec.testers|) == TestersFrom(spec, 0)
  {
    SumFromDepth(spec, 0);
  }

  /** Checks a specification in the order of the script. */
  method Validate(caches: seq<int>, testers: seq<int>) returns (r: Result<Spec, Refusal>)
    ensures r.Ok? ==> r.value.caches == caches && r.value.testers == testers && WellFormed(r.value)
                      && TestersFrom(r.value, 0) <= BLOCK_SIZE
    ensures r.Err? && r.error != TooManyTesters ==>
      !exists spec :: WellFormed(spec) && spec.caches == caches && spec.testers == testers
    ensures r == Err(TooManyTesters) ==>
      exists spec :: WellFormed(spec) && spec.caches == caches && spec.testers == testers
                     && TestersFrom(spec, 0) > BLOCK_SIZE
  {
    if |caches| < 1 {
      return Err(NoCaches);
    }
    if |caches| != |testers| - 1 {
      return Err(LengthMismatch);
    }
    if testers[|testers| - 1] == 0 {
      return Err(NoTopTesters);
    }
    for i := 0 to |testers|
      invariant forall e :: 0 <= e < i ==> testers[e] >= 0
    {
      if testers[i] < 0 {
        return Err(NegativeTesters);
      }
    }
    for i := 0 to |caches|
      invariant forall e :: 0 <= e < i ==> caches[e] >= 1
    {
      if caches[i] < 1 {
        return Err(TooFewCaches);
      }
    }
    var cs: seq<nat>, ts: seq<nat> := caches, testers;
    var spec := Spec(cs, ts);
    NumTestersCountsTree(spec);
    assert WellFormed(spec);
    var total := NumTesters(caches, testers);
    if total > BLOCK_SIZE {
      return Err(TooManyTesters);
    }
    return Ok(spec);
  }

  // ---- Building the tree ----

  datatype Kind = Tester | CpuSide | MemSide | Master

  /** The port of the k-th tester, a side of the k-th cache, or the crossbar's
      master port, of a subsystem. */
  datatype Port = Port(kind: Kind, depth: nat, index: nat, k: nat)

  datatype Peer = Of(port: Port) | Crossbar(depth: nat, index: nat)

  /** Next free index at each depth, connections made, testers made. */
  datatype State = State(next: seq<nat>, peer: map<Port, Peer>, made: nat)

  /** Subsystems of this depth have such a port. */
  predicate HasPort(spec: Spec, p: Port)
    requires |spec.testers| == |spec.caches| + 1
  {
    && p.depth <= |spec.caches|
    && match p.kind
       case Tester => p.k < spec.testers[p.depth]
       case Master => p.k == 0 && p.depth > 0 && (p.depth < |spec.caches| || spec.testers[p.depth] > 1)
       case _ => p.depth < |spec.caches| && p.k < spec.testers[p.depth] + spec.caches[p.depth]
  }

  /** The port belongs to a subsystem of depth at least d made between two states. */
  ghost predicate MadeBetween(spec: Spec, lo: seq<nat>, hi: seq<nat>, d: nat, p: Port)
    requires |spec.testers| == |spec.caches| + 1 == |lo| == |hi|
  {
    d <= p.depth && HasPort(spec, p) && lo[p.depth] <= p.index < hi[p.depth]
  }

  /** What each kind of port is connected to. */
  ghost predicate PeerFits(spec: Spec, p: Port, q: Peer)
    requires |spec.testers| == |spec.caches| + 1
  {
    && HasPort(spec, p)
    && (p.kind == Tester ==> TesterFits(spec, p, q))
    && (p.kind == MemSide ==> q == Crossbar(p.depth, p.index))
    && (p.kind == Master ==> q.Of? && q.port.kind == CpuSide && q.port.depth + 1 == p.depth)
    && (p.kind == CpuSide ==> CacheFits(spec, p, q))
  }

  ghost predicate TesterFits(spec: Spec, p: Port, q: Peer)
    requires |spec.testers| == |spec.caches| + 1
  {
    var n := |spec.caches|;
    if p.depth < n then q == Of(p.(kind := CpuSide))
    else if spec.testers[n] > 1 then q == Crossbar(n, p.index)
    else q.Of? && q.port.kind == CpuSide && q.port.depth == n - 1
  }

  ghost predicate CacheFits(spec: Spec, p: Port, q: Peer)
    requires |spec.testers| == |spec.caches| + 1 && p.depth < |spec.caches|
  {
    var n := |spec.caches|;
    if p.k < spec.testers[p.depth] then q == Of(p.(kind := Tester))
    else
      q.Of? && q.port.depth == p.depth + 1 &&
      q.port.kind == if p.depth + 1 < n || spec.testers[n] > 1 then Master else Tester
  }

  ghost predicate PortFits(spec: Spec, next: seq<nat>, p: Port, q: Peer)
    requires |spec.testers| == |spec.caches| + 1 == |next|
  {
    PeerFits(spec, p, q) && p.index < next[p.depth]
  }

  /** Only ports of subsystems made so far are connected, each as it should be. */
  ghost predicate Sound(spec: Spec, s: State) {
    && |spec.testers| == |spec.caches| + 1 == |s.next|
    && (forall p :: p in s.peer ==> PortFits(spec, s.next, p, s.peer[p]))
    && forall p :: p in s.peer ==> Mutual(s.peer, p)
  }

  /** A port connected to another one is what that one is connected to. */
  ghost predicate Mutual(peer: map<Port, Peer>, p: Port)
    requires p in peer
  {
    peer[p].Of? ==> peer[p].port in peer && peer[peer[p].port] == Of(p)
  }

  ghost predicate NextGrown(spec: Spec, a: seq<nat>, b: seq<nat>, d: nat, times: nat)
    requires d <= |spec.caches| + 1 == |a| == |b|
  {
    && (forall e :: 0 <= e < d ==> b[e] == a[e])
    && forall e :: d <= e <= |spec.caches| ==> b[e] == a[e] + Times(times, Fanout(spec, d, e))
  }

  /** Ports outside the subtrees in question: none, one, or both sides of `count`
      caches of one subsystem from number `lo` on. */
  datatype Extra = Nothing | One(port: Port) | OwnCaches(d: nat, index: nat, lo: nat, count: nat)

  ghost predicate IsExtra(x: Extra, p: Port) {
    match x
    case Nothing => false
    case One(q) => p == q
    case OwnCaches(d, index, lo, count) =>
      (p.kind == CpuSide || p.kind == MemSide) && p.depth == d && p.index == index && lo <= p.k < lo + count
  }

  ghost predicate KeysGrown(spec: Spec, a: set<Port>, b: set<Port>, lo: seq<nat>, hi: seq<nat>, d: nat, extra: Extra)
    requires |spec.testers| == |spec.caches| + 1 == |lo| == |hi|
  {
    forall p {:trigger p in b} :: p in b <==> p in a || MadeBetween(spec, lo, hi, d, p) || IsExtra(extra, p)
  }

  /** From `a` to `b`, `times` subtrees of depth d were made, all their ports were
      connected, and of other ports only those in `extra`. */
  ghost predicate Grown(spec: Spec, a: State, b: State, d: nat, times: nat, extra: Extra) {
    && d <= |spec.testers| == |spec.caches| + 1 == |a.next| == |b.next|
    && NextGrown(spec, a.next, b.next, d, times)
    && KeysGrown(spec, a.peer.Keys, b.peer.Keys, a.next, b.next, d, extra)
    && b.made == a.made + (if d <= |spec.caches| then Times(times, TestersFrom(spec, d)) else 0)
  }

  /** The first k caches of the subsystem (d, index) that carry subtrees are
      connected, and their subtrees made. */
  ghost predicate GrownBelow(spec: Spec, a: State, b: State, d: nat, index: nat, k: nat)
    requires d < |spec.caches| && |spec.testers| == |spec.caches| + 1
  {
    Grown(spec, a, b, d + 1, k, OwnCaches(d, index, spec.testers[d], k))
  }

  ghost predicate OwnPort(d: nat, index: nat, hi: nat, p: Port) {
    p.kind != Master && p.depth == d && p.index == index && p.k < hi
  }

  ghost function ExtraOf(next: Option<Port>): Extra {
    if next.Some? then One(next.value) else Nothing
  }

  /** The ports by which a subsystem hangs on a cache. */
  ghost function OnCache(d: nat, index: nat, next: Option<Port>): set<Port> {
    if next.Some? then {next.value, Port(Master, d, index, 0)} else {}
  }

  ghost predicate OwnTester(d: nat, index: nat, hi: nat, p: Port) {
    p.kind == Tester && OwnPort(d, index, hi, p)
  }

  lemma {:induction false} NextOneMore(spec: Spec, a: seq<nat>, b: seq<nat>, c: seq<nat>, d: nat, times: nat)
    requires d <= |spec.caches| + 1 == |a| == |b| == |c|
    requires NextGrown(spec, a, b, d, times) && NextGrown(spec, b, c, d, 1)
    ensures NextGrown(spec, a, c, d, times + 1)
    ensures forall e :: d <= e <= |spec.caches| ==> a[e] <= b[e] <= c[e]
  {
    forall e | d <= e <= |spec.caches|
      ensures c[e] == a[e] + Times(times + 1, Fanout(spec, d, e)) && a[e] <= b[e] <= c[e]
    {
      assert Times(1, Fanout(spec, d, e)) == Fanout(spec, d, e);
    }
  }

  lemma {:induction false} MadeBetweenSplits(spec: Spec, a: seq<nat>, b: seq<nat>, c: seq<nat>, d: nat, p: Port)
    requires d <= |spec.testers| == |spec.caches| + 1 == |a| == |b| == |c|
    requires forall e :: d <= e <= |spec.caches| ==> a[e] <= b[e] <= c[e]
    ensures MadeBetween(spec, a, c, d, p) <==> MadeBetween(spec, a, b, d, p) || MadeBetween(spec, b, c, d, p)
  {
  }

  lemma {:induction false} KeysOneMore(spec: Spec, a: set<Port>, b: set<Port>, mid: set<Port>, c: set<Port>,
          an: seq<nat>, bn: seq<nat>, cn: seq<nat>, d: nat, index: nat, lo: nat, k: nat)
    requires d < |spec.testers| == |spec.caches| + 1 == |an| == |bn| == |cn|
    requires forall e :: d < e <= |spec.caches| ==> an[e] <= bn[e] <= cn[e]
    requires KeysGrown(spec, a, b, an, bn, d + 1, OwnCaches(d, index, lo, k))
    requires mid == b + {Port(MemSide, d, index, lo + k)}
    requires KeysGrown(spec, mid, c, bn, cn, d + 1, One(Port(CpuSide, d, index, lo + k)))
    ensures KeysGrown(spec, a, c, an, cn, d + 1, OwnCaches(d, index, lo, k + 1))
  {
    forall p
      ensures p in c <==> p in a || MadeBetween(spec, an, cn, d + 1, p) || IsExtra(OwnCaches(d, index, lo, k + 1), p)
    {
      OneMoreCache(d, index, lo, k, p);
      MadeBetweenSplits(spec, an, bn, cn, d + 1, p);
    }
  }

  /** One more subtree, hung below a cache of its own. */
  lemma {:induction false} OneMoreSubtree(spec: Spec, a: State, b: State, mid: State, c: State, d: nat, index: nat,
          k: nat)
    requires d < |spec.caches| && |spec.testers| == |spec.caches| + 1 && GrownBelow(spec, a, b, d, index, k)
    requires mid.next == b.next && mid.made == b.made
    requires mid.peer.Keys == b.peer.Keys + {Port(MemSide, d, index, spec.testers[d] + k)}
    requires Grown(spec, mid, c, d + 1, 1, One(Port(CpuSide, d, index, spec.testers[d] + k)))
    ensures GrownBelow(spec, a, c, d, index, k + 1)
  {
    var t := spec.testers[d];
    NextOneMore(spec, a.next, b.next, c.next, d + 1, k);
    KeysOneMore(spec, a.peer.Keys, b.peer.Keys, mid.peer.Keys, c.peer.Keys, a.next, b.next, c.next, d, index, t, k);
    assert Times(1, TestersFrom(spec, d + 1)) == TestersFrom(spec, d + 1);
  }

  /** A subsystem with its own ports and the subtrees below its caches is a subtree. */
  lemma {:induction false} WholeSubtree(spec: Spec, a: State, own: State, b: State, c: State, d: nat, index: nat,
          next: Option<Port>)
    requires d < |spec.caches| && |spec.testers| == |spec.caches| + 1 == |a.next| && index == a.next[d]
    requires own.next == a.next[d := index + 1] && own.made == a.made + spec.testers[d]
    requires own.peer.Keys == a.peer.Keys + OnCache(d, index, next) && (next.Some? <==> d > 0)
    requires GrownBelow(spec, own, b, d, index, spec.caches[d])
    requires c.next == b.next && c.made == b.made
    requires forall p :: p in c.peer <==> p in b.peer || OwnPort(d, index, spec.testers[d], p)
    ensures Grown(spec, a, c, d, 1, ExtraOf(next))
  {
    forall e | 0 <= e <= |spec.caches|
      ensures c.next[e] == a.next[e] + if e < d then 0 else Times(1, Fanout(spec, d, e))
    {
      assert e >= d ==> Times(1, Fanout(spec, d, e)) == Fanout(spec, d, e);
    }
    assert NextGrown(spec, a.next, c.next, d, 1);
    assert Times(1, TestersFrom(spec, d)) == TestersFrom(spec, d);
    forall p
      ensures p in c.peer <==> p in a.peer || MadeBetween(spec, a.next, c.next, d, p) || IsExtra(ExtraOf(next), p)
    {
      assert p in own.peer <==> p in a.peer || IsExtra(ExtraOf(next), p) || (d > 0 && p == Port(Master, d, index, 0));
      assert p in b.peer <==> (p in own.peer || MadeBetween(spec, own.next, b.next, d + 1, p)
                               || IsExtra(OwnCaches(d, index, spec.testers[d], spec.caches[d]), p));
      if p.depth == d {
        assert c.next[d] == index + 1;
      } else if d < p.depth <= |spec.caches| {
        assert own.next[p.depth] == a.next[p.depth];
      }
    }
  }

  /** No port of the subsystem's testers and caches is connected. */
  ghost predicate Unused(ports: set<Port>, d: nat, index: nat) {
    forall p :: p in ports ==> !(p.kind != Master && p.depth == d && p.index == index)
  }

  /** A cache side to which a subtree of depth d can be connected. */
  ghost predicate FreeCache(spec: Spec, s: State, d: nat, p: Port)
    requires Sound(spec, s)
  {
    && p.kind == CpuSide && p.depth + 1 == d && HasPort(spec, p) && p.index < s.next[p.depth]
    && p.k >= spec.testers[p.depth] && p !in s.peer
  }

  class Builder {
    const spec: Spec
    var s: State

    constructor (spec: Spec)
      requires WellFormed(spec)
      ensures this.spec == spec && Sound(spec, s) && s.peer == map[] && s.made == 0
      ensures forall d :: 0 <= d <= |spec.caches| ==> s.next[d] == 0
    {
      this.spec := spec;
      s := State(seq(|spec.caches| + 1, i => 0), map[], 0);
    }

    /** Connects two ports that have not been connected before. */
    method ConnectPair(p: Port, q: Port)
      requires Sound(spec, s) && p != q && p !in s.peer && q !in s.peer
      requires PortFits(spec, s.next, p, Of(q)) && PortFits(spec, s.next, q, Of(p))
      modifies this`s
      ensures s == old(s).(peer := old(s).peer[p := Of(q)][q := Of(p)]) && Sound(spec, s)
    {
      s := s.(peer := s.peer[p := Of(q)][q := Of(p)]);
    }

    /** Connects a port that has not been connected before to a crossbar. */
    method Connect(p: Port, q: Peer)
      requires Sound(spec, s) && p !in s.peer && PortFits(spec, s.next, p, q) && q.Crossbar?
      modifies this`s
      ensures s == old(s).(peer := old(s).peer[p := q]) && Sound(spec, s)
    {
      s := s.(peer := s.peer[p := q]);
    }

    /** The next subsystem of depth d. */
    method TakeIndex(d: nat) returns (index: nat)
      requires Sound(spec, s) && d <= |spec.caches|
      modifies this`s
      ensures index == old(s).next[d] && Sound(spec, s)
      ensures s == State(old(s).next[d := index + 1], old(s).peer, old(s).made + spec.testers[d])
    {
      index := s.next[d];
      s := s.(next := s.next[d := index + 1], made := s.made + spec.testers[d]);
    }

    /** One tester with a cache of its own. */
    method ConnectTester(d: nat, index: nat, k: nat)
      requires Sound(spec, s) && d < |spec.caches| && index < s.next[d] && k < spec.testers[d]
      requires forall p :: OwnPort(d, index, k + 1, p) && p.k == k ==> p !in s.peer
      modifies this`s
      ensures Sound(spec, s) && s.next == old(s).next && s.made == old(s).made
      ensures forall p :: p in s.peer <==> p in old(s).peer || (OwnPort(d, index, k + 1, p) && p.k == k)
    {
      var tester, cpu, mem := Port(Tester, d, index, k), Port(CpuSide, d, index, k), Port(MemSide, d, index, k);
      assert OwnPort(d, index, k + 1, tester) && OwnPort(d, index, k + 1, cpu) && OwnPort(d, index, k + 1, mem);
      ConnectPair(tester, cpu);
      Connect(mem, Crossbar(d, index));
      forall p
        ensures p in s.peer <==> p in old(s).peer || (OwnPort(d, index, k + 1, p) && p.k == k)
      {
        assert p == Port(p.kind, p.depth, p.index, p.k);
        assert p in s.peer <==> p in old(s).peer || p == tester || p == cpu || p == mem;
      }
    }

    /** Testers of a subsystem that has caches. */
    method ConnectTesters(d: nat, index: nat)
      requires Sound(spec, s) && d < |spec.caches| && index < s.next[d]
      requires forall p :: OwnPort(d, index, spec.testers[d], p) ==> p !in s.peer.Keys
      modifies this`s
      ensures Sound(spec, s) && s.next == old(s).next && s.made == old(s).made
      ensures forall p :: p in s.peer <==> p in old(s).peer || OwnPort(d, index, spec.testers[d], p)
    {
      for k := 0 to spec.testers[d]
        invariant Sound(spec, s) && s.next == old(s).next && s.made == old(s).made
        invariant forall p :: p in s.peer <==> p in old(s).peer || OwnPort(d, index, k, p)
      {
        forall p | OwnPort(d, index, k + 1, p) && p.k == k
          ensures p !in s.peer
        {
          assert !OwnPort(d, index, k, p) && OwnPort(d, index, spec.testers[d], p);
        }
        ConnectTester(d, index, k);
        forall p
          ensures p in s.peer <==> p in old(s).peer || OwnPort(d, index, k + 1, p)
        {
          assert OwnPort(d, index, k + 1, p) <==> OwnPort(d, index, k, p) || (OwnPort(d, index, k + 1, p) && p.k == k);
        }
      }
    }

    /** A subsystem at the top of the tree: its testers share a crossbar, or a
        single one takes the cache directly. */
    method ConnectTop(index: nat, cache: Port)
      requires WellFormed(spec) && Sound(spec, s) && index < s.next[|spec.caches|]
      requires FreeCache(spec, s, |spec.caches|, cache)
      requires forall p :: TopPort(spec, index, p) ==> p !in s.peer
      modifies this`s
      ensures Sound(spec, s) && s.next == old(s).next && s.made == old(s).made
      ensures forall p :: p in s.peer <==> p in old(s).peer || p == cache || TopPort(spec, index, p)
    {
      var n := |spec.caches|;
      if spec.testers[n] > 1 {
        ConnectPair(Port(Master, n, index, 0), cache);
        ShareCrossbar(index);
      } else {
        var tester := Port(Tester, n, index, 0);
        assert OwnTester(n, index, 1, tester);
        ConnectPair(tester, cache);
        forall p
          ensures OwnTester(n, index, 1, p) <==> p == tester
        {
          assert p == Port(p.kind, p.depth, p.index, p.k);
        }
      }
    }

    method ShareCrossbar(index: nat)
      requires WellFormed(spec) && Sound(spec, s) && index < s.next[|spec.caches|] && spec.testers[|spec.caches|] > 1
      requires forall p :: OwnTester(|spec.caches|, index, spec.testers[|spec.caches|], p) ==> p !in s.peer
      modifies this`s
      ensures Sound(spec, s) && s.next == old(s).next && s.made == old(s).made
      ensures forall p :: p in s.peer <==>
        p in old(s).peer || OwnTester(|spec.caches|, index, spec.testers[|spec.caches|], p)
    {
      var n := |spec.caches|;
      for k := 0 to spec.testers[n]
        invariant Sound(spec, s) && s.next == old(s).next && s.made == old(s).made
        invariant forall p :: p in s.peer <==> p in old(s).peer || OwnTester(n, index, k, p)
      {
        var tester := Port(Tester, n, index, k);
        assert OwnTester(n, index, spec.testers[n], tester) && !OwnTester(n, index, k, tester);
        Connect(tester, Crossbar(n, index));
        forall p
          ensures p in s.peer <==> p in old(s).peer || OwnTester(n, index, k + 1, p)
        {
          assert OwnTester(n, index, k + 1, p) <==> OwnTester(n, index, k, p) || p == tester by {
            assert p == Port(p.kind, p.depth, p.index, p.k);
          }
        }
      }
    }

    /** Makes a subsystem of depth d, with everything above it, on top of the
        given cache; the one at depth 0 goes on the memory. */
    method MakeCacheLevel(d: nat, next: Option<Port>)
      requires WellFormed(spec) && Sound(spec, s) && d <= |spec.caches| && (next.Some? <==> d > 0)
      requires next.Some? ==> FreeCache(spec, s, d, next.value)
      modifies this`s
      ensures Sound(spec, s) && Grown(spec, old(s), s, d, 1, ExtraOf(next))
      decreases |spec.caches| - d, 1
    {
      if d < |spec.caches| {
        MakeInner(d, next);
      } else {
        ghost var a := s;
        var index := TakeIndex(d);
        ConnectTop(index, next.value);
        TopSubtree(spec, a, s, index, next.value);
      }
    }

    /** A subsystem with caches of its own. */
    method MakeInner(d: nat, next: Option<Port>)
      requires WellFormed(spec) && Sound(spec, s) && d < |spec.caches| && (next.Some? <==> d > 0)
      requires next.Some? ==> FreeCache(spec, s, d, next.value)
      modifies this`s
      ensures Sound(spec, s) && Grown(spec, old(s), s, d, 1, ExtraOf(next))
      decreases |spec.caches| - d, 0, 4
    {
      ghost var a := s;
      var index := Hang(d, next);
      ghost var own := s;
      MakeTreeCaches(d, index);
      ghost var b := s;
      StillUnused(spec, own, b, d, index);
      ConnectTesters(d, index);
      WholeSubtree(spec, a, own, b, s, d, index, next);
    }

    /** The next subsystem of depth d, hung on its cache if it has one. */
    method Hang(d: nat, next: Option<Port>) returns (index: nat)
      requires Sound(spec, s) && d < |spec.caches| && (next.Some? <==> d > 0)
      requires next.Some? ==> FreeCache(spec, s, d, next.value)
      modifies this`s
      ensures Sound(spec, s) && index == old(s).next[d]
      ensures s.next == old(s).next[d := index + 1] && s.made == old(s).made + spec.testers[d]
      ensures s.peer.Keys == old(s).peer.Keys + OnCache(d, index, next)
      ensures Unused(s.peer.Keys, d, index)
    {
      index := TakeIndex(d);
      if next.Some? {
        ConnectPair(Port(Master, d, index, 0), next.value);
      }
    }

    /** Makes the caches of a subsystem that carry subtrees, with those subtrees. */
    method MakeTreeCaches(d: nat, index: nat)
      requires WellFormed(spec) && Sound(spec, s) && d < |spec.caches| && index < s.next[d]
      requires Unused(s.peer.Keys, d, index)
      modifies this`s
      ensures Sound(spec, s) && GrownBelow(spec, old(s), s, d, index, spec.caches[d])
      decreases |spec.caches| - d, 0, 2
    {
      NothingGrown(spec, s, d, index);
      for k := 0 to spec.caches[d]
        invariant Sound(spec, s) && GrownBelow(spec, old(s), s, d, index, k)
      {
        MakeNextTreeCache(d, index, k, old(s));
      }
    }

    method MakeNextTreeCache(d: nat, index: nat, k: nat, ghost a: State)
      requires WellFormed(spec) && d < |spec.caches| && k < spec.caches[d]
      requires |a.next| == |spec.caches| + 1 && index < a.next[d]
      requires Unused(a.peer.Keys, d, index)
      requires Sound(spec, s) && GrownBelow(spec, a, s, d, index, k)
      modifies this`s
      ensures Sound(spec, s) && GrownBelow(spec, a, s, d, index, k + 1)
      decreases |spec.caches| - d, 0, 1
    {
      ghost var b := s;
      assert NextFree(b, d, index, spec.testers[d] + k) by {
        NextIsFree(spec, a, b, d, index, k);
      }
      ghost var mid := MakeTreeCache(d, index, k);
      ghost var c := s;
      assert GrownBelow(spec, a, c, d, index, k + 1) by {
        OneMoreSubtree(spec, a, b, mid, c, d, index, k);
      }
    }

    /** One cache of a subsystem that carries a subtree, with that subtree. */
    method MakeTreeCache(d: nat, index: nat, k: nat) returns (ghost mid: State)
      requires WellFormed(spec) && Sound(spec, s) && d < |spec.caches| && k < spec.caches[d]
      requires NextFree(s, d, index, spec.testers[d] + k)
      modifies this`s
      ensures mid.next == old(s).next && mid.made == old(s).made
      ensures mid.peer.Keys == old(s).peer.Keys + {Port(MemSide, d, index, spec.testers[d] + k)}
      ensures Sound(spec, s) && Grown(spec, mid, s, d + 1, 1, One(Port(CpuSide, d, index, spec.testers[d] + k)))
      decreases |spec.caches| - d, 0, 0
    {
      var t := spec.testers[d];
      var cpu, mem := Port(CpuSide, d, index, t + k), Port(MemSide, d, index, t + k);
      Connect(mem, Crossbar(d, index));
      mid := s;
      MakeCacheLevel(d + 1, Some(cpu));
    }
  }

  lemma {:induction false} NothingGrown(spec: Spec, a: State, d: nat, index: nat)
    requires |spec.testers| == |spec.caches| + 1 == |a.next| && d < |spec.caches|
    ensures GrownBelow(spec, a, a, d, index, 0)
  {
  }

  /** The subsystem's testers are not connected by the subtrees above it. */
  lemma {:induction false} StillUnused(spec: Spec, own: State, b: State, d: nat, index: nat)
    requires d < |spec.caches| && |spec.testers| == |spec.caches| + 1
    requires GrownBelow(spec, own, b, d, index, spec.caches[d]) && Unused(own.peer.Keys, d, index)
    ensures b.next[d] == own.next[d]
    ensures forall p :: OwnPort(d, index, spec.testers[d], p) ==> p !in b.peer.Keys
  {
  }

  /** Cache k of the subsystem is not connected. */
  ghost predicate NextFree(s: State, d: nat, index: nat, k: nat) {
    && d < |s.next| && index < s.next[d]
    && Port(CpuSide, d, index, k) !in s.peer.Keys && Port(MemSide, d, index, k) !in s.peer.Keys
  }

  /** The next cache of the subsystem is not connected yet. */
  lemma {:induction false} NextIsFree(spec: Spec, a: State, b: State, d: nat, index: nat, k: nat)
    requires d < |spec.caches| && |spec.testers| == |spec.caches| + 1 && GrownBelow(spec, a, b, d, index, k)
    requires Unused(a.peer.Keys, d, index) && index < a.next[d]
    ensures NextFree(b, d, index, spec.testers[d] + k)
  {
  }

  lemma {:induction false} OneMoreCache(d: nat, index: nat, lo: nat, k: nat, p: Port)
    ensures IsExtra(OwnCaches(d, index, lo, k + 1), p) <==>
      IsExtra(OwnCaches(d, index, lo, k), p)
      || p == Port(CpuSide, d, index, lo + k) || p == Port(MemSide, d, index, lo + k)
  {
  }

  /** A port of a subsystem at the top: a tester's, or the crossbar's if there is one. */
  ghost predicate TopPort(spec: Spec, index: nat, p: Port)
    requires |spec.testers| == |spec.caches| + 1
  {
    var n := |spec.caches|;
    OwnTester(n, index, spec.testers[n], p) || (spec.testers[n] > 1 && p == Port(Master, n, index, 0))
  }

  lemma {:induction false} TopSubtree(spec: Spec, a: State, c: State, index: nat, cache: Port)
    requires WellFormed(spec) && |a.next| == |spec.caches| + 1
    requires index == a.next[|spec.caches|] && c.next == a.next[|spec.caches| := index + 1]
    requires c.made == a.made + spec.testers[|spec.caches|]
    requires forall p :: p in c.peer <==> p in a.peer || p == cache || TopPort(spec, index, p)
    ensures Grown(spec, a, c, |spec.caches|, 1, One(cache))
  {
    var n := |spec.caches|;
    assert Times(1, Fanout(spec, n, n)) == 1;
    assert NextGrown(spec, a.next, c.next, n, 1);
    assert Times(1, TestersFrom(spec, n)) == spec.testers[n];
  }

  /** Counted from the memory, subsystems multiply by each level's fan-out. */
  lemma {:induction false} FanoutIsMultiplier(spec: Spec, d: nat, e: nat)
    requires d <= e <= |spec.caches|
    ensures Multiplier(spec.caches, e) == Multiplier(spec.caches, d) * Fanout(spec, d, e)
    decreases e - d
  {
    if d < e {
      FanoutIsMultiplier(spec, d + 1, e);
      var m, c, f := Multiplier(spec.caches, d), spec.caches[d], Fanout(spec, d + 1, e);
      TimesIsProduct(c, f);
      Regroup(m, c, f);
      assert Multiplier(spec.caches, d + 1) == m * c;
    } else {
      assert Fanout(spec, d, e) == 1;
    }
  }

  lemma {:induction false} Regroup(m: int, c: int, f: int)
    ensures (m * c) * f == m * (c * f)
  {
  }

  /** Builds the tree: at every depth as many subsystems as the fan-outs multiply
      to, exactly the number of testers computed beforehand, and every port of
      every tester and cache connected. */
  method BuildTree(spec: Spec) returns (s: State)
    requires WellFormed(spec)
    ensures Sound(spec, s)
    ensures forall d :: 0 <= d <= |spec.caches| ==> s.next[d] == Multiplier(spec.caches, d)
    ensures s.made == WeightedSum(spec.caches, spec.testers, |spec.testers|)
    ensures forall p :: p in s.peer <==> HasPort(spec, p) && p.index < s.next[p.depth]
  {
    var builder := new Builder(spec);
    ghost var a := builder.s;
    builder.MakeCacheLevel(0, None);
    s := builder.s;
    assert Grown(spec, a, s, 0, 1, Nothing);
    forall d | 0 <= d <= |spec.caches|
      ensures s.next[d] == Multiplier(spec.caches, d)
    {
      FanoutIsMultiplier(spec, 0, d);
      assert Times(1, Fanout(spec, 0, d)) == Fanout(spec, 0, d);
    }
    NumTestersCountsTree(spec);
    assert Times(1, TestersFrom(spec, 0)) == TestersFrom(spec, 0);
    forall p
      ensures p in s.peer <==> HasPort(spec, p) && p.index < s.next[p.depth]
    {
      assert p in s.peer.Keys <==> MadeBetween(spec, a.next, s.next, 0, p);
    }
  }
}
