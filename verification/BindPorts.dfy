/** ConfigManager.bind_ports: choosing an order in which to bind indexed ports.

    Every connection is listed from both of its ends.  Binding a connection
    appends to both ports, so a port's connections must be bound in index order.
    One pass over the sorted list binds a connection at the first of its two
    entries at which both indices are next. */
module BindPorts {
  import opened PortOrder

  type Net = set<Connection>

  /** Each port end has one connection, listed from both sides, to another end. */
  ghost predicate Proper(net: Net) {
    && (forall c, d :: c in net && d in net && c.from == d.from ==> c == d)
    && (forall c :: c in net ==> Flip(c) in net)
    && (forall c :: c in net ==> c.from != c.to)
  }

  ghost predicate IsEnd(net: Net, e: Port) {
    exists p :: Connection(e, p) in net
  }

  ghost function Peer(net: Net, e: Port): Port
    requires IsEnd(net, e)
  {
    var p :| Connection(e, p) in net;
    p
  }

  lemma {:induction false} PeerIsPartner(net: Net, c: Connection)
    requires Proper(net) && c in net
    ensures IsEnd(net, c.from) && Peer(net, c.from) == c.to
    ensures IsEnd(net, c.to) && Peer(net, c.to) == c.from
  {
    assert Connection(c.from, c.to) in net;
    assert Flip(c) in net && Connection(c.to, c.from) in net;
  }

  lemma {:induction false} PeerOfPeer(net: Net, e: Port)
    requires Proper(net) && IsEnd(net, e)
    ensures IsEnd(net, Peer(net, e)) && Peer(net, Peer(net, e)) == e && Peer(net, e) != e
    ensures Connection(e, Peer(net, e)) in net
  {
    PeerIsPartner(net, Connection(e, Peer(net, e)));
  }

  // ---- The pass over the sorted list ----

  /** How many connections each port has so far, and those chosen, in order. */
  datatype Progress = Progress(counts: map<Key, nat>, made: seq<Connection>)

  function CountOf(st: Progress, k: Key): nat {
    if k in st.counts then st.counts[k] else 0
  }

  predicate Makeable(st: Progress, c: Connection) {
    CountOf(st, KeyOf(c.from)) == c.from.index && CountOf(st, KeyOf(c.to)) == c.to.index
  }

  function Bump(counts: map<Key, nat>, k: Key): map<Key, nat> {
    counts[k := (if k in counts then counts[k] else 0) + 1]
  }

  function Visit(st: Progress, c: Connection): Progress {
    if Makeable(st, c)
    then Progress(Bump(Bump(st.counts, KeyOf(c.from)), KeyOf(c.to)), st.made + [c])
    else st
  }

  /** The state before slot k. */
  ghost function Before(slots: seq<Connection>, k: nat): Progress
    requires k <= |slots|
  {
    if k == 0 then Progress(map[], []) else Visit(Before(slots, k - 1), slots[k - 1])
  }

  /** The sorted list of a proper set of connections. */
  ghost predicate IsSlots(net: Net, slots: seq<Connection>) {
    && Proper(net)
    && (forall c :: c in net <==> c in slots)
    && (forall i: nat, j: nat :: i < j < |slots| ==> InOrder(slots, i, j))
  }

  ghost predicate InOrder(slots: seq<Connection>, i: nat, j: nat)
    requires i < j < |slots|
  {
    Less(slots[i].from, slots[j].from)
  }

  /** The port end's connection has been chosen. */
  ghost predicate Bound(st: Progress, e: Port) {
    e.index < CountOf(st, KeyOf(e))
  }

  ghost function Ends(made: seq<Connection>): set<Port> {
    if made == [] then {}
    else Ends(made[..|made| - 1]) + {made[|made| - 1].from, made[|made| - 1].to}
  }

  /** The peers appended to a port when the chosen connections are bound in order. */
  ghost function PeerList(made: seq<Connection>, k: Key): seq<Port> {
    if made == [] then []
    else
      var c := made[|made| - 1];
      PeerList(made[..|made| - 1], k)
      + (if KeyOf(c.from) == k then [c.to] else []) + (if KeyOf(c.to) == k then [c.from] else [])
  }

  ghost predicate Touches(c: Connection, d: Connection) {
    c.from == d.from || c.from == d.to || c.to == d.from || c.to == d.to
  }

  /** The end sits at its own index in the list its port has grown. */
  ghost predicate Placed(net: Net, made: seq<Connection>, e: Port) {
    && IsEnd(net, e) && e.index < |PeerList(made, KeyOf(e))|
    && PeerList(made, KeyOf(e))[e.index] == Peer(net, e)
  }

  ghost predicate CountsAreLengths(st: Progress) {
    forall k :: |PeerList(st.made, k)| == CountOf(st, k)
  }

  ghost predicate BoundIsPlaced(net: Net, st: Progress) {
    forall e :: Bound(st, e) ==> Placed(net, st.made, e)
  }

  ghost predicate BoundIsMade(st: Progress) {
    forall e :: Bound(st, e) <==> e in Ends(st.made)
  }

  /** No end is bound twice. */
  ghost predicate Apart(made: seq<Connection>) {
    && (forall i, j :: 0 <= i < j < |made| ==> !Touches(made[i], made[j]))
    && |Ends(made)| == 2 * |made|
  }

  /** What holds before every slot. */
  ghost predicate Consistent(net: Net, st: Progress) {
    && (forall c :: c in st.made ==> c in net)
    && BoundIsMade(st) && Apart(st.made) && CountsAreLengths(st) && BoundIsPlaced(net, st)
  }

  lemma {:induction false} EndsOf(made: seq<Connection>, e: Port)
    ensures e in Ends(made) <==> exists c :: c in made && (e == c.from || e == c.to)
  {
    if made != [] {
      var last := |made| - 1;
      EndsOf(made[..last], e);
      assert forall c :: c in made <==> c in made[..last] || c == made[last];
    }
  }

  lemma {:induction false} EndsStep(made: seq<Connection>, c: Connection)
    ensures Ends(made + [c]) == Ends(made) + {c.from, c.to}
  {
    assert (made + [c])[..|made + [c]| - 1] == made;
  }

  lemma {:induction false} PeerListStep(made: seq<Connection>, c: Connection, k: Key)
    requires KeyOf(c.from) != KeyOf(c.to)
    ensures PeerList(made + [c], k)
         == PeerList(made, k) + (if KeyOf(c.from) == k then [c.to] else if KeyOf(c.to) == k then [c.from] else [])
  {
    assert (made + [c])[..|made + [c]| - 1] == made;
  }

  /** Choosing a connection binds exactly its two ends. */
  lemma {:induction false} VisitBinds(st: Progress, c: Connection)
    requires c.from != c.to && Makeable(st, c)
    ensures KeyOf(c.from) != KeyOf(c.to)
    ensures !Bound(st, c.from) && !Bound(st, c.to)
    ensures forall k :: CountOf(Visit(st, c), k)
                     == CountOf(st, k) + (if k == KeyOf(c.from) || k == KeyOf(c.to) then 1 else 0)
    ensures forall e :: Bound(Visit(st, c), e) <==> Bound(st, e) || e == c.from || e == c.to
  {
  }

  lemma {:induction false} VisitBindsAt(st: Progress, c: Connection, e: Port)
    requires c.from != c.to && Makeable(st, c)
    ensures Bound(Visit(st, c), e) <==> Bound(st, e) || e == c.from || e == c.to
  {
    VisitBinds(st, c);
  }

  lemma {:induction false} VisitKeepsLengths(st: Progress, c: Connection)
    requires c.from != c.to && Makeable(st, c) && CountsAreLengths(st)
    ensures CountsAreLengths(Visit(st, c))
  {
    VisitBinds(st, c);
    forall k
      ensures |PeerList(Visit(st, c).made, k)| == CountOf(Visit(st, c), k)
    {
      PeerListStep(st.made, c, k);
      assert |PeerList(st.made, k)| == CountOf(st, k);
    }
  }

  lemma {:induction false} PlacedStays(net: Net, made: seq<Connection>, c: Connection, e: Port)
    requires KeyOf(c.from) != KeyOf(c.to) && Placed(net, made, e)
    ensures Placed(net, made + [c], e)
  {
    PeerListStep(made, c, KeyOf(e));
  }

  lemma {:induction false} VisitPlaces(net: Net, st: Progress, c: Connection)
    requires Proper(net) && c in net && Makeable(st, c) && CountsAreLengths(st)
    ensures Placed(net, st.made + [c], c.from) && Placed(net, st.made + [c], c.to)
  {
    VisitBinds(st, c);
    PeerIsPartner(net, c);
    PeerListStep(st.made, c, KeyOf(c.from));
    PeerListStep(st.made, c, KeyOf(c.to));
    assert |PeerList(st.made, KeyOf(c.from))| == c.from.index;
    assert |PeerList(st.made, KeyOf(c.to))| == c.to.index;
  }

  lemma {:induction false} VisitKeepsPlaced(net: Net, st: Progress, c: Connection)
    requires Proper(net) && c in net && Makeable(st, c) && CountsAreLengths(st) && BoundIsPlaced(net, st)
    ensures BoundIsPlaced(net, Visit(st, c))
  {
    VisitBinds(st, c);
    VisitPlaces(net, st, c);
    forall e | Bound(Visit(st, c), e)
      ensures Placed(net, st.made + [c], e)
    {
      if Bound(st, e) {
        PlacedStays(net, st.made, c, e);
      }
    }
  }

  lemma {:induction false} InEnds(made: seq<Connection>, d: Connection)
    requires d in made
    ensures d.from in Ends(made) && d.to in Ends(made)
  {
    EndsOf(made, d.from);
    EndsOf(made, d.to);
  }

  lemma {:induction false} ApartStep(made: seq<Connection>, c: Connection)
    requires Apart(made) && c.from != c.to && c.from !in Ends(made) && c.to !in Ends(made)
    ensures Apart(made + [c])
  {
    EndsStep(made, c);
    assert Ends(made + [c]) == Ends(made) + {c.from} + {c.to};
    forall i | 0 <= i < |made|
      ensures !Touches(made[i], c)
    {
      InEnds(made, made[i]);
    }
  }

  lemma {:induction false} VisitKeepsApart(st: Progress, c: Connection)
    requires c.from != c.to && Makeable(st, c) && BoundIsMade(st) && Apart(st.made)
    ensures Apart(st.made + [c])
  {
    assert !Bound(st, c.from) && !Bound(st, c.to);
    ApartStep(st.made, c);
  }

  lemma {:induction false} VisitKeepsMade(st: Progress, c: Connection)
    requires c.from != c.to && Makeable(st, c) && BoundIsMade(st)
    ensures BoundIsMade(Visit(st, c))
  {
    EndsStep(st.made, c);
    forall e
      ensures Bound(Visit(st, c), e) <==> e in Ends(st.made + [c])
    {
      VisitBindsAt(st, c, e);
    }
  }

  /** Every slot keeps the state consistent. */
  lemma {:induction false} VisitKeeps(net: Net, st: Progress, c: Connection)
    requires Proper(net) && c in net && Consistent(net, st)
    ensures Consistent(net, Visit(st, c))
  {
    if Makeable(st, c) {
      VisitKeepsMade(st, c);
      VisitKeepsLengths(st, c);
      VisitKeepsPlaced(net, st, c);
      VisitKeepsApart(st, c);
    }
  }

  lemma {:induction false} BeforeConsistent(net: Net, slots: seq<Connection>, k: nat)
    requires IsSlots(net, slots) && k <= |slots|
    ensures Consistent(net, Before(slots, k))
  {
    if k > 0 {
      BeforeConsistent(net, slots, k - 1);
      VisitKeeps(net, Before(slots, k - 1), slots[k - 1]);
    }
  }

  // ---- When the pass succeeds ----

  ghost predicate Complete(net: Net, slots: seq<Connection>)
    requires IsSlots(net, slots)
  {
    forall e :: IsEnd(net, e) ==> Bound(Before(slots, |slots|), e)
  }

  ghost function AllEnds(slots: seq<Connection>): set<Port> {
    if slots == [] then {} else AllEnds(slots[..|slots| - 1]) + {slots[|slots| - 1].from}
  }

  lemma {:induction false} AllEndsCount(slots: seq<Connection>)
    requires forall i, j :: 0 <= i < j < |slots| ==> slots[i].from != slots[j].from
    ensures |AllEnds(slots)| == |slots|
    ensures forall e :: e in AllEnds(slots) <==> exists c :: c in slots && c.from == e
  {
    if slots != [] {
      var last := |slots| - 1;
      AllEndsCount(slots[..last]);
      assert forall c :: c in slots <==> c in slots[..last] || c == slots[last];
      assert slots[last].from !in AllEnds(slots[..last]);
    }
  }

  lemma {:induction false} SlotsDiffer(net: Net, slots: seq<Connection>)
    requires IsSlots(net, slots)
    ensures forall i, j :: 0 <= i < j < |slots| ==> slots[i].from != slots[j].from
  {
    forall i, j | 0 <= i < j < |slots|
      ensures slots[i].from != slots[j].from
    {
      assert InOrder(slots, i, j);
      LessTotal(slots[i].from, slots[j].from);
    }
  }

  /** Half as many connections as list entries means that every end is bound. */
  lemma {:induction false} HalfIsComplete(net: Net, slots: seq<Connection>)
    requires IsSlots(net, slots)
    ensures 2 * |Before(slots, |slots|).made| == |slots| <==> Complete(net, slots)
  {
    var st := Before(slots, |slots|);
    BeforeConsistent(net, slots, |slots|);
    SlotsDiffer(net, slots);
    AllEndsCount(slots);
    var all, bound := AllEnds(slots), Ends(st.made);
    forall e
      ensures e in all <==> IsEnd(net, e)
    {
      if IsEnd(net, e) {
        assert Connection(e, Peer(net, e)) in slots;
      }
      if e in all {
        var c :| c in slots && c.from == e;
        assert c == Connection(e, c.to);
      }
    }
    assert bound <= all by {
      forall e | e in bound
        ensures e in all
      {
        assert Bound(st, e);
      }
    }
    SubsetBySize(bound, all);
    assert Complete(net, slots) <==> bound == all;
  }

  lemma {:induction false} SubsetBySize<T>(a: set<T>, b: set<T>)
    requires a <= b
    ensures |a| == |b| <==> a == b
  {
    assert b == a + (b - a);
    assert |b| == |a| + |b - a|;
  }
}
