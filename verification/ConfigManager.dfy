/** ConfigManager.bind_ports as the class method it is, against the order theory. */
module ConfigManager {
  import opened Results
  import opened Text
  import opened PortOrder
  import opened BindPorts
  import opened BindOrder

  ghost function NetOf(cs: seq<Connection>): Net {
    set c | c in cs
  }

  /** What bind_ports demands of its argument: every connection is listed once
      from each of its two different ends, and no end has two connections. */
  ghost predicate ListedBothWays(cs: seq<Connection>) {
    && (forall i, j :: 0 <= i < j < |cs| ==> cs[i].from != cs[j].from)
    && (forall c :: c in cs ==> Flip(c) in cs && c.from != c.to)
  }

  /** A list of bindings makes every connection once, and appending them in order
      leaves every port with its peers at their own indices and nothing else. */
  ghost predicate Binds(net: Net, made: seq<Connection>) {
    && Apart(made)
    && (forall c :: c in made ==> c in net)
    && (forall c :: c in net ==> c in made || Flip(c) in made)
    && (forall e :: IsEnd(net, e) ==> Placed(net, made, e))
    && (forall k, i: nat {:trigger PeerList(made, k)[i]} ::
          i < |PeerList(made, k)| ==> IsEnd(net, Port(k.owner, k.name, i)))
  }

  lemma {:induction false} ListedIsProper(cs: seq<Connection>)
    requires ListedBothWays(cs)
    ensures Proper(NetOf(cs))
  {
  }

  lemma {:induction false} SortedIsSlots(cs: seq<Connection>, slots: seq<Connection>)
    requires ListedBothWays(cs) && Ascending(slots) && multiset(slots) == multiset(cs)
    ensures IsSlots(NetOf(cs), slots) && |slots| == |cs|
  {
    var net := NetOf(cs);
    forall c
      ensures c in slots <==> c in cs
    {
      assert c in slots <==> multiset(slots)[c] > 0;
      assert c in cs <==> multiset(cs)[c] > 0;
    }
    assert |multiset(slots)| == |slots| && |multiset(cs)| == |cs|;
    ListedIsProper(cs);
    forall i: nat, j: nat | i < j < |slots|
      ensures InOrder(slots, i, j)
    {
      assert NotAfter(slots[i], slots[j]);
      if slots[i].from == slots[j].from {
        assert slots[i] in cs && slots[j] in cs;
        assert slots[i] == slots[j];
        OnceOnly(cs, slots[i]);
        TwiceCounts(slots, i, j);
        assert false;
      }
      LessTotal(slots[i].from, slots[j].from);
    }
  }

  lemma {:induction false} OnceOnly(cs: seq<Connection>, c: Connection)
    requires forall i, j :: 0 <= i < j < |cs| ==> cs[i].from != cs[j].from
    ensures multiset(cs)[c] <= 1
  {
    if cs != [] {
      OnceOnly(cs[1..], c);
      assert cs == [cs[0]] + cs[1..];
      if cs[0] == c {
        assert c !in cs[1..];
      }
    }
  }

  lemma {:induction false} TwiceCounts(cs: seq<Connection>, i: nat, j: nat)
    requires i < j < |cs| && cs[i] == cs[j]
    ensures multiset(cs)[cs[i]] >= 2
  {
    assert cs == cs[..i] + [cs[i]] + cs[i + 1..j] + [cs[j]] + cs[j + 1..];
  }

  /** When the pass has bound every end, the chosen connections are a full binding. */
  lemma {:induction false} CompleteBinds(net: Net, slots: seq<Connection>)
    requires IsSlots(net, slots) && Complete(net, slots)
    ensures Binds(net, Before(slots, |slots|).made)
  {
    var st := Before(slots, |slots|);
    BeforeConsistent(net, slots, |slots|);
    forall c | c in net
      ensures c in st.made || Flip(c) in st.made
    {
      PeerIsPartner(net, c);
      assert Bound(st, c.from);
      EndsOf(st.made, c.from);
      var d :| d in st.made && (c.from == d.from || c.from == d.to);
      PeerIsPartner(net, d);
    }
    forall k, i: nat | i < |PeerList(st.made, k)|
      ensures IsEnd(net, Port(k.owner, k.name, i))
    {
      var e := Port(k.owner, k.name, i);
      assert KeyOf(e) == k && Bound(st, e);
    }
  }

  /** The counts of the pass with every known port listed, as the source keeps them. */
  ghost predicate SameCounts(counts: map<Key, nat>, st: Progress) {
    forall k :: (if k in counts then counts[k] else 0) == CountOf(st, k)
  }

  /** The port is the first end of some entry. */
  ghost predicate Known(cs: seq<Connection>, k: Key) {
    exists i :: 0 <= i < |cs| && KeyOf(cs[i].from) == k
  }

  /** Marks every port that has connections with a count of zero. */
  method StartCounts(connections: seq<Connection>) returns (counts: map<Key, nat>)
    ensures SameCounts(counts, Progress(map[], []))
    ensures forall k :: k in counts <==> Known(connections, k)
  {
    counts := map[];
    for i := 0 to |connections|
      invariant forall k :: k in counts ==> counts[k] == 0 && Known(connections, k)
      invariant forall j :: 0 <= j < i ==> KeyOf(connections[j].from) in counts
    {
      counts := counts[KeyOf(connections[i].from) := 0];
    }
  }

  ghost function Ports(cs: seq<Connection>): set<Key> {
    set c | c in cs :: KeyOf(c.from)
  }

  /** Entry i is in turn at its first end, but the port at its other end is not listed. */
  ghost predicate FailsAt(slots: seq<Connection>, ports: set<Key>, i: nat) {
    && i < |slots| && CountOf(Before(slots, i), KeyOf(slots[i].from)) == slots[i].from.index
    && KeyOf(slots[i].to) !in ports
  }

  lemma {:induction false} VisitCounts(counts: map<Key, nat>, st: Progress, c: Connection)
    requires SameCounts(counts, st) && KeyOf(c.from) in counts && KeyOf(c.to) in counts
    ensures Makeable(st, c) <==> counts[KeyOf(c.from)] == c.from.index && counts[KeyOf(c.to)] == c.to.index
    ensures Makeable(st, c) ==> SameCounts(Bump(Bump(counts, KeyOf(c.from)), KeyOf(c.to)), Visit(st, c))
  {
    assert CountOf(st, KeyOf(c.from)) == counts[KeyOf(c.from)];
    assert CountOf(st, KeyOf(c.to)) == counts[KeyOf(c.to)];
  }

  /** The pass over the sorted entries; none if it looks up a port that is not listed. */
  method Choose(slots: seq<Connection>, start: map<Key, nat>) returns (r: Option<seq<Connection>>)
    requires SameCounts(start, Progress(map[], [])) && forall c :: c in slots ==> KeyOf(c.from) in start
    ensures r.None? <==> exists i: nat :: FailsAt(slots, start.Keys, i)
    ensures r.Some? ==> r.value == Before(slots, |slots|).made
  {
    var made: seq<Connection> := [];
    var counts := start;
    for i := 0 to |slots|
      invariant SameCounts(counts, Before(slots, i)) && made == Before(slots, i).made
      invariant start.Keys == counts.Keys && forall j: nat :: j < i ==> !FailsAt(slots, start.Keys, j)
    {
      var c := slots[i];
      assert CountOf(Before(slots, i), KeyOf(c.from)) == counts[KeyOf(c.from)];
      if counts[KeyOf(c.from)] == c.from.index {
        if KeyOf(c.to) !in counts {
          assert FailsAt(slots, start.Keys, i);
          return None;
        }
        VisitCounts(counts, Before(slots, i), c);
        if counts[KeyOf(c.to)] == c.to.index {
          made := made + [c];
          counts := counts[KeyOf(c.from) := counts[KeyOf(c.from)] + 1];
          counts := counts[KeyOf(c.to) := counts[KeyOf(c.to)] + 1];
        }
      }
    }
    return Some(made);
  }

  datatype Refusal = KeyError | CannotOrder

  /** What the pass makes of any list at all, by its sorted entries. */
  ghost predicate Follows(connections: seq<Connection>, slots: seq<Connection>, r: Result<seq<Connection>, Refusal>) {
    var ports, made := Ports(connections), Before(slots, |slots|).made;
    && Ascending(slots) && multiset(slots) == multiset(connections)
    && (r == Err(KeyError) <==> exists i: nat :: FailsAt(slots, ports, i))
    && (r.Ok? ==> |made| * 2 == |connections| && r.value == made)
    && (r == Err(CannotOrder) ==> |made| * 2 != |connections|)
  }

  lemma {:induction false} SameMembers(a: seq<Connection>, b: seq<Connection>, c: Connection)
    requires multiset(a) == multiset(b)
    ensures c in a <==> c in b
  {
    assert c in a <==> multiset(a)[c] > 0;
    assert c in b <==> multiset(b)[c] > 0;
  }

  /** Chooses the order of the bindings, or finds that the pass leaves some out. For a
      list as the documentation demands it that is exactly if none is blocked. */
  method Plan(connections: seq<Connection>) returns (r: Result<seq<Connection>, Refusal>, ghost slots: seq<Connection>)
    ensures Follows(connections, slots, r)
    ensures ListedBothWays(connections) ==> (r.Ok? <==> NoneBlocked(NetOf(connections)))
    ensures ListedBothWays(connections) ==> r != Err(KeyError)
    ensures ListedBothWays(connections) && r.Ok? ==> Binds(NetOf(connections), r.value)
  {
    var counts := StartCounts(connections);
    var sorted := Sorted(connections);
    slots := sorted;
    forall c | c in sorted
      ensures KeyOf(c.from) in counts
    {
      SameMembers(sorted, connections, c);
      assert Known(connections, KeyOf(c.from));
    }
    assert counts.Keys == Ports(connections);
    var made := Choose(sorted, counts);
    if made.None? {
      r := Err(KeyError);
    } else if |made.value| * 2 != |connections| {
      r := Err(CannotOrder);
    } else {
      r := Ok(made.value);
    }
    if ListedBothWays(connections) {
      PlanOfListed(connections, sorted, r);
    }
  }

  /** For a list from both ends the pass looks up no unknown port, and the half it
      makes is all exactly if none is blocked. */
  lemma {:induction false} PlanOfListed(cs: seq<Connection>, slots: seq<Connection>,
          r: Result<seq<Connection>, Refusal>)
    requires ListedBothWays(cs) && Follows(cs, slots, r)
    ensures r != Err(KeyError) && (r.Ok? <==> NoneBlocked(NetOf(cs)))
    ensures r.Ok? ==> Binds(NetOf(cs), r.value)
  {
    var net := NetOf(cs);
    SortedIsSlots(cs, slots);
    forall i: nat
      ensures !FailsAt(slots, Ports(cs), i)
    {
      if i < |slots| {
        SameMembers(slots, cs, slots[i]);
        assert Flip(slots[i]) in cs && Flip(slots[i]).from == slots[i].to;
      }
    }
    assert r.Err? ==> r.error.KeyError? || r.error.CannotOrder?;
    HalfIsComplete(net, slots);
    CompleteIffNoneBlocked(net, slots);
    if r.Ok? {
      CompleteBinds(net, slots);
    }
  }

  class ConfigManager {
    /** The bindings made so far, in order. */
    var bound: seq<Connection>

    /** Binds all connections, or none if the list is refused. */
    method BindPorts(connections: seq<Connection>)
      returns (r: Result<seq<Connection>, Refusal>, ghost slots: seq<Connection>)
      modifies this
      ensures Follows(connections, slots, r)
      ensures bound == if r.Ok? then old(bound) + r.value else old(bound)
      ensures ListedBothWays(connections) ==> (r.Ok? <==> NoneBlocked(NetOf(connections)))
      ensures ListedBothWays(connections) && r.Ok? ==> Binds(NetOf(connections), r.value)
    {
      r, slots := Plan(connections);
      if r.Ok? {
        ghost var start := bound;
        var made := r.value;
        for i := 0 to |made|
          invariant bound == start + made[..i]
        {
          bound := bound + [made[i]];
        }
        assert made[..|made|] == made;
      }
    }
  }

  // ---- Not every orderable configuration is accepted ----

  /** A connection p-q whose q end follows a connection q-r that is itself held
      up until after q's entries, because r must first be bound to s. */
  lemma {:induction false} ChainBlocks(net: Net, p: Port, q: Port, r: Port)
    requires IsEnd(net, p) && Peer(net, p) == q && q.index > 0 && Less(p, q)
    requires IsEnd(net, Below(q)) && Peer(net, Below(q)) == r && r.index > 0
    requires Less(Below(q), r) && !Less(q, Below(q)) && Less(q, r)
    requires IsEnd(net, Below(r)) && Less(Below(q), Lo(net, Below(r)))
    ensures Blocked(net, p)
  {
    assert Late(net, Below(r), Below(q), 0);
    assert Waits(net, Below(q), Below(q), 0);
    assert Late(net, Below(q), q, 1);
    assert Waits(net, p, Hi(net, p), 1);
  }

  function Example(): seq<Connection> {
    var (p0, q0, q1) := (Port("p", "x", 0), Port("q", "x", 0), Port("q", "x", 1));
    var (r0, r1, s0) := (Port("r", "x", 0), Port("r", "x", 1), Port("s", "x", 0));
    [Connection(p0, q1), Connection(q1, p0), Connection(q0, r1),
     Connection(r1, q0), Connection(r0, s0), Connection(s0, r0)]
  }

  function Tag(i: nat): (char, nat) {
    match i
    case 0 => ('p', 0)
    case 1 => ('q', 1)
    case 2 => ('q', 0)
    case 3 => ('r', 1)
    case 4 => ('r', 0)
    case _ => ('s', 0)
  }

  lemma {:induction false} ExampleTag(i: nat)
    requires i < 6
    ensures |Example()[i].from.owner| == 1 && (Example()[i].from.owner[0], Example()[i].from.index) == Tag(i)
  {
  }

  lemma {:induction false} ExampleIsListed()
    ensures ListedBothWays(Example())
    ensures Proper(NetOf(Example()))
  {
    forall c | c in Example()
      ensures Flip(c) in Example() && c.from != c.to
    {
      ExampleFlips(c);
    }
    forall i, j | 0 <= i < j < 6
      ensures Example()[i].from != Example()[j].from
    {
      ExampleTag(i);
      ExampleTag(j);
    }
    ListedIsProper(Example());
  }

  lemma {:induction false} ExampleEnd(i: nat)
    requires i < 6
    ensures IsEnd(NetOf(Example()), Example()[i].from) && Peer(NetOf(Example()), Example()[i].from) == Example()[i].to
  {
    ExampleIsListed();
    PeerIsPartner(NetOf(Example()), Example()[i]);
  }

  lemma {:induction false} ExampleIsBlocked()
    ensures !NoneBlocked(NetOf(Example()))
  {
    var cs, net := Example(), NetOf(Example());
    ExampleEnd(0);
    ExampleEnd(2);
    ExampleEnd(4);
    assert cs[0].from == Port("p", "x", 0) && cs[2].from == Port("q", "x", 0) && cs[4].from == Port("r", "x", 0);
    assert StringLess("p", "q") && StringLess("q", "r") && StringLess("r", "s");
    LessTotal(cs[0].to, cs[2].from);
    ChainBlocks(net, cs[0].from, cs[0].to, cs[2].to);
    assert Blocked(net, cs[0].from);
  }

  lemma {:induction false} ExampleIsApart()
    ensures Apart([Example()[4], Example()[2], Example()[0]])
  {
    var cs := Example();
    ApartStep([], cs[4]);
    assert [] + [cs[4]] == [cs[4]];
    EndsStep([], cs[4]);
    ApartStep([cs[4]], cs[2]);
    EndsStep([cs[4]], cs[2]);
    assert [cs[4]] + [cs[2]] == [cs[4], cs[2]];
    ApartStep([cs[4], cs[2]], cs[0]);
    assert [cs[4], cs[2]] + [cs[0]] == [cs[4], cs[2], cs[0]];
  }

  lemma {:induction false} ExampleLists(k: Key)
    ensures PeerList([Example()[4], Example()[2], Example()[0]], k)
         == if k == Key("p", "x") then [Port("q", "x", 1)]
            else if k == Key("q", "x") then [Port("r", "x", 1), Port("p", "x", 0)]
            else if k == Key("r", "x") then [Port("s", "x", 0), Port("q", "x", 0)]
            else if k == Key("s", "x") then [Port("r", "x", 0)]
            else []
  {
    var cs := Example();
    assert PeerList([], k) == [];
    PeerListStep([], cs[4], k);
    assert [] + [cs[4]] == [cs[4]];
    PeerListStep([cs[4]], cs[2], k);
    assert [cs[4]] + [cs[2]] == [cs[4], cs[2]];
    PeerListStep([cs[4], cs[2]], cs[0], k);
    assert [cs[4], cs[2]] + [cs[0]] == [cs[4], cs[2], cs[0]];
  }

  lemma {:induction false} ExamplePlacedAt(i: nat)
    requires i < 6
    ensures var (c, made) := (Example()[i], [Example()[4], Example()[2], Example()[0]]);
      c.from.index < |PeerList(made, KeyOf(c.from))| && PeerList(made, KeyOf(c.from))[c.from.index] == c.to
  {
    ExampleLists(KeyOf(Example()[i].from));
    match i {
      case 0 => assert KeyOf(Example()[0].from) == Key("p", "x");
      case 1 => assert KeyOf(Example()[1].from) == Key("q", "x");
      case 2 => assert KeyOf(Example()[2].from) == Key("q", "x");
      case 3 => assert KeyOf(Example()[3].from) == Key("r", "x");
      case 4 => assert KeyOf(Example()[4].from) == Key("r", "x");
      case _ => assert KeyOf(Example()[5].from) == Key("s", "x");
    }
  }

  lemma {:induction false} ExamplePlaced(e: Port)
    requires IsEnd(NetOf(Example()), e)
    ensures Placed(NetOf(Example()), [Example()[4], Example()[2], Example()[0]], e)
  {
    var i :| 0 <= i < |Example()| && Example()[i] == Connection(e, Peer(NetOf(Example()), e));
    ExamplePlacedAt(i);
  }

  lemma {:induction false} ExampleFull(k: Key, j: nat)
    requires j < |PeerList([Example()[4], Example()[2], Example()[0]], k)|
    ensures IsEnd(NetOf(Example()), Port(k.owner, k.name, j))
  {
    ExampleLists(k);
    if k == Key("p", "x") {
      ExampleEnd(0);
    } else if k == Key("q", "x") {
      ExampleEnd(if j == 0 then 2 else 1);
    } else if k == Key("r", "x") {
      ExampleEnd(if j == 0 then 4 else 3);
    } else {
      ExampleEnd(5);
    }
  }

  lemma {:induction false} ExampleIsOrderable()
    ensures Binds(NetOf(Example()), [Example()[4], Example()[2], Example()[0]])
  {
    var cs, net := Example(), NetOf(Example());
    var made := [cs[4], cs[2], cs[0]];
    ExampleIsApart();
    forall e | IsEnd(net, e)
      ensures Placed(net, made, e)
    {
      ExamplePlaced(e);
    }
    forall k, j: nat | j < |PeerList(made, k)|
      ensures IsEnd(net, Port(k.owner, k.name, j))
    {
      ExampleFull(k, j);
    }
    forall c | c in net
      ensures c in made || Flip(c) in made
    {
      ExampleFlips(c);
    }
  }

  lemma {:induction false} ExampleFlips(c: Connection)
    requires c in Example()
    ensures Flip(c) in Example() && c.from != c.to
    ensures c in [Example()[4], Example()[2], Example()[0]] || Flip(c) in [Example()[4], Example()[2], Example()[0]]
  {
    var cs := Example();
    assert Flip(cs[0]) == cs[1] && Flip(cs[1]) == cs[0];
    assert Flip(cs[2]) == cs[3] && Flip(cs[3]) == cs[2];
    assert Flip(cs[4]) == cs[5] && Flip(cs[5]) == cs[4];
  }

  /** p[0]-q[1], q[0]-r[1], r[0]-s[0] can be bound in the order r-s, q-r, p-q,
      yet the pass leaves p-q unbound, so bind_ports refuses it. */
  lemma {:induction false} OrderableButRefused()
    ensures ListedBothWays(Example())
    ensures exists made :: Binds(NetOf(Example()), made)
    ensures !NoneBlocked(NetOf(Example()))
  {
    ExampleIsListed();
    ExampleIsOrderable();
    ExampleIsBlocked();
  }
}
