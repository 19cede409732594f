/** Port connections of a configuration file and the order they sort in. */
module PortOrder {
  import opened Sorting
  import opened Text

  /** One end of a connection: `owner.name[index]`. */
  datatype Port = Port(owner: string, name: string, index: nat)

  datatype Connection = Connection(from: Port, to: Port)

  /** Names a port regardless of index. */
  datatype Key = Key(owner: string, name: string)

  function KeyOf(p: Port): Key {
    Key(p.owner, p.name)
  }

  function Flip(c: Connection): Connection {
    Connection(c.to, c.from)
  }

  /** Ports compare by object, then port name, then index. */
  predicate Less(p: Port, q: Port) {
    || StringLess(p.owner, q.owner)
    || (p.owner == q.owner && (StringLess(p.name, q.name) || (p.name == q.name && p.index < q.index)))
  }

  lemma {:induction false} LessTotal(p: Port, q: Port)
    ensures p == q || Less(p, q) || Less(q, p)
    ensures !(Less(p, q) && Less(q, p))
    ensures !Less(p, p)
  {
    StringLessTotal(p.owner, q.owner);
    StringLessTotal(p.name, q.name);
    StringLessTotal(p.owner, p.owner);
    StringLessTotal(p.name, p.name);
  }

  lemma {:induction false} LessTransitive(p: Port, q: Port, r: Port)
    requires Less(p, q) && Less(q, r)
    ensures Less(p, r)
  {
    if StringLess(p.owner, q.owner) && StringLess(q.owner, r.owner) {
      StringLessTransitive(p.owner, q.owner, r.owner);
    }
    if StringLess(p.name, q.name) && StringLess(q.name, r.name) {
      StringLessTransitive(p.name, q.name, r.name);
    }
  }

  /** Connections compare as pairs. */
  predicate Precedes(c: Connection, d: Connection) {
    Less(c.from, d.from) || (c.from == d.from && Less(c.to, d.to))
  }

  lemma {:induction false} PrecedesTransitive(c: Connection, d: Connection, e: Connection)
    requires Precedes(c, d) && Precedes(d, e)
    ensures Precedes(c, e)
  {
    if Less(c.from, d.from) && Less(d.from, e.from) {
      LessTransitive(c.from, d.from, e.from);
    }
    if Less(c.to, d.to) && Less(d.to, e.to) {
      LessTransitive(c.to, d.to, e.to);
    }
  }

  lemma {:induction false} PrecedesTotal(c: Connection, d: Connection)
    ensures c == d || Precedes(c, d) || Precedes(d, c)
  {
    LessTotal(c.from, d.from);
    LessTotal(c.to, d.to);
  }

  ghost predicate NotAfter(c: Connection, d: Connection) {
    c == d || Precedes(c, d)
  }

  ghost predicate Ascending(cs: seq<Connection>) {
    forall i, j :: 0 <= i < j < |cs| ==> NotAfter(cs[i], cs[j])
  }

  lemma {:induction false} PrecedesIsWeakOrder()
    ensures WeakOrder(Precedes)
  {
    forall c, d
      ensures Asymmetric(Precedes, c, d)
    {
      LessTotal(c.from, d.from);
      LessTotal(c.to, d.to);
    }
    forall c, d, e
      ensures Between(Precedes, c, d, e)
    {
      PrecedesTotal(c, e);
      if Precedes(c, d) && Precedes(e, c) {
        PrecedesTransitive(e, c, d);
      }
    }
  }

  method Sorted(cs: seq<Connection>) returns (r: seq<Connection>)
    ensures Ascending(r) && multiset(r) == multiset(cs)
  {
    r := Sort(cs, Precedes);
    PrecedesIsWeakOrder();
    SortOrdered(cs, Precedes);
    SortContents(cs, Precedes);
    forall i, j | 0 <= i < j < |r|
      ensures NotAfter(r[i], r[j])
    {
      PrecedesTotal(r[i], r[j]);
    }
  }
}
