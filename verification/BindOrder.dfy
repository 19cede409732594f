/** Exactly when the pass over the sorted connections binds everything. */
module BindOrder {
  import opened PortOrder
  import opened BindPorts

  /** The end of a connection that sorts first, and the other one. */
  ghost function Lo(net: Net, e: Port): Port
    requires IsEnd(net, e)
  {
    if Less(e, Peer(net, e)) then e else Peer(net, e)
  }

  ghost function Hi(net: Net, e: Port): Port
    requires IsEnd(net, e)
  {
    if Less(e, Peer(net, e)) then Peer(net, e) else e
  }

  function Below(e: Port): Port
    requires e.index > 0
  {
    e.(index := e.index - 1)
  }

  /** A chain of at most n delays keeps the connection of e out of reach until
      after entry t of the list: it does not exist, or both its entries come
      later, or it is delayed at its first entry and its second comes later. */
  ghost predicate Late(net: Net, e: Port, t: Port, n: nat)
    decreases n, 0
  {
    || !IsEnd(net, e)
    || Less(t, Lo(net, e))
    || (n > 0 && Less(t, Hi(net, e)) && IsEnd(net, Lo(net, e)) && Waits(net, Lo(net, e), Lo(net, e), n - 1))
  }

  /** The connection of e cannot be chosen at entry t: it joins two indices of
      one port, or a connection one index below either end is late. */
  ghost predicate Waits(net: Net, e: Port, t: Port, n: nat)
    requires IsEnd(net, e)
    decreases n, 1
  {
    var f := Peer(net, e);
    || KeyOf(e) == KeyOf(f)
    || (e.index > 0 && Late(net, Below(e), t, n))
    || (f.index > 0 && Late(net, Below(f), t, n))
  }

  /** The connection of e cannot be chosen even at the later of its two entries. */
  ghost predicate Blocked(net: Net, e: Port)
    requires IsEnd(net, e)
  {
    exists n :: Waits(net, e, Hi(net, e), n)
  }

  ghost predicate NoneBlocked(net: Net) {
    forall e :: IsEnd(net, e) ==> !Blocked(net, e)
  }

  // ---- Entries and positions ----

  lemma {:induction false} SlotOf(net: Net, slots: seq<Connection>, e: Port) returns (k: nat)
    requires IsSlots(net, slots) && IsEnd(net, e)
    ensures k < |slots| && slots[k].from == e && slots[k].to == Peer(net, e)
  {
    PeerOfPeer(net, e);
    k :| k < |slots| && slots[k] == Connection(e, Peer(net, e));
  }

  lemma {:induction false} SlotPeer(net: Net, slots: seq<Connection>, k: nat)
    requires IsSlots(net, slots) && k < |slots|
    ensures IsEnd(net, slots[k].from) && Peer(net, slots[k].from) == slots[k].to
    ensures IsEnd(net, slots[k].to) && Peer(net, slots[k].to) == slots[k].from
    ensures slots[k] in net
  {
    PeerIsPartner(net, slots[k]);
  }

  lemma {:induction false} OrderIsPosition(net: Net, slots: seq<Connection>, i: nat, j: nat)
    requires IsSlots(net, slots) && i < |slots| && j < |slots|
    ensures Less(slots[i].from, slots[j].from) <==> i < j
    ensures slots[i].from == slots[j].from <==> i == j
  {
    LessTotal(slots[i].from, slots[j].from);
    assert i < j ==> InOrder(slots, i, j);
    assert j < i ==> InOrder(slots, j, i);
  }

  // ---- A late connection is not bound ----

  /** A bound end was bound at one of its own two entries. */
  lemma {:induction false} BoundAtOwnSlot(net: Net, slots: seq<Connection>, k: nat, e: Port) returns (i: nat)
    requires IsSlots(net, slots) && k <= |slots| && Bound(Before(slots, k), e)
    ensures i < k && Makeable(Before(slots, i), slots[i]) && (slots[i].from == e || slots[i].to == e)
  {
    var st := Before(slots, k - 1);
    if Bound(st, e) {
      i := BoundAtOwnSlot(net, slots, k - 1, e);
    } else {
      i := k - 1;
      SlotPeer(net, slots, i);
      if Makeable(st, slots[i]) {
        VisitBindsAt(st, slots[i], e);
      }
    }
  }

  lemma {:induction false} LoHi(net: Net, e: Port)
    requires Proper(net) && IsEnd(net, e)
    ensures IsEnd(net, Lo(net, e)) && IsEnd(net, Hi(net, e)) && IsEnd(net, Peer(net, e))
    ensures Less(Lo(net, e), Hi(net, e))
    ensures Lo(net, Peer(net, e)) == Lo(net, e) && Hi(net, Peer(net, e)) == Hi(net, e)
    ensures Peer(net, Lo(net, e)) == Hi(net, e) && Peer(net, Hi(net, e)) == Lo(net, e)
  {
    PeerOfPeer(net, e);
    LessTotal(e, Peer(net, e));
  }

  lemma {:induction false} BoundAtLoOrHi(net: Net, slots: seq<Connection>, k: nat, e: Port) returns (i: nat)
    requires IsSlots(net, slots) && k <= |slots| && Bound(Before(slots, k), e)
    ensures IsEnd(net, e) && i < k && Makeable(Before(slots, i), slots[i])
    ensures slots[i].from == Lo(net, e) || slots[i].from == Hi(net, e)
    ensures k < |slots| ==> !Less(slots[k].from, slots[i].from)
  {
    i := BoundAtOwnSlot(net, slots, k, e);
    SlotPeer(net, slots, i);
    if k < |slots| {
      OrderIsPosition(net, slots, k, i);
    }
  }

  lemma {:induction false} LateIsUnbound(net: Net, slots: seq<Connection>, k: nat, e: Port, n: nat)
    requires IsSlots(net, slots) && k < |slots| && Late(net, e, slots[k].from, n)
    ensures !Bound(Before(slots, k), e)
    decreases n, 0
  {
    if Bound(Before(slots, k), e) {
      var t := slots[k].from;
      var i := BoundAtLoOrHi(net, slots, k, e);
      LoHi(net, e);
      if Less(t, Lo(net, e)) {
        LessTransitive(t, Lo(net, e), Hi(net, e));
      } else {
        WaitsIsNotMakeable(net, slots, i, n - 1);
      }
      assert false;
    }
  }

  lemma {:induction false} WaitsIsNotMakeable(net: Net, slots: seq<Connection>, k: nat, n: nat)
    requires IsSlots(net, slots) && k < |slots| && IsEnd(net, slots[k].from)
    requires Waits(net, slots[k].from, slots[k].from, n)
    ensures !Makeable(Before(slots, k), slots[k])
    decreases n, 1
  {
    var e := slots[k].from;
    SlotPeer(net, slots, k);
    var f := Peer(net, e);
    if KeyOf(e) == KeyOf(f) {
      PeerOfPeer(net, e);
    } else if e.index > 0 && Late(net, Below(e), e, n) {
      LateIsUnbound(net, slots, k, Below(e), n);
    } else {
      LateIsUnbound(net, slots, k, Below(f), n);
    }
  }

  lemma {:induction false} WaitsFromPeer(net: Net, e: Port, t: Port, n: nat)
    requires Proper(net) && IsEnd(net, e)
    ensures IsEnd(net, Peer(net, e)) && Waits(net, Peer(net, e), t, n) == Waits(net, e, t, n)
  {
    PeerOfPeer(net, e);
  }

  /** Waiting past an entry includes waiting past every entry before it. */
  lemma {:induction false} LateEarlier(net: Net, e: Port, t: Port, u: Port, n: nat)
    requires Proper(net) && Late(net, e, t, n) && Less(u, t)
    ensures Late(net, e, u, n)
  {
    if IsEnd(net, e) {
      if Less(t, Lo(net, e)) {
        LessTransitive(u, t, Lo(net, e));
      } else {
        LessTransitive(u, t, Hi(net, e));
      }
    }
  }

  lemma {:induction false} WaitsEarlier(net: Net, e: Port, t: Port, u: Port, n: nat)
    requires Proper(net) && IsEnd(net, e) && Waits(net, e, t, n) && Less(u, t)
    ensures Waits(net, e, u, n)
  {
    var f := Peer(net, e);
    if KeyOf(e) != KeyOf(f) {
      if e.index > 0 && Late(net, Below(e), t, n) {
        LateEarlier(net, Below(e), t, u, n);
      } else {
        LateEarlier(net, Below(f), t, u, n);
      }
    }
  }

  /** A blocked connection is never chosen. */
  lemma {:induction false} BlockedIsUnbound(net: Net, slots: seq<Connection>, e: Port)
    requires IsSlots(net, slots) && IsEnd(net, e) && Blocked(net, e)
    ensures !Bound(Before(slots, |slots|), e)
  {
    if Bound(Before(slots, |slots|), e) {
      var n :| Waits(net, e, Hi(net, e), n);
      var i := BoundAtOwnSlot(net, slots, |slots|, e);
      SlotPeer(net, slots, i);
      LoHi(net, e);
      var t := slots[i].from;
      if t != Hi(net, e) {
        WaitsEarlier(net, e, Hi(net, e), t, n);
      }
      WaitsFromPeer(net, e, t, n);
      WaitsIsNotMakeable(net, slots, i, n);
      assert false;
    }
  }

  // ---- An unbound connection is late ----

  ghost predicate Stalled(net: Net, e: Port)
    requires IsEnd(net, e)
  {
    exists n :: Waits(net, e, e, n)
  }

  /** Before slot k, the connection of entry i is bound, or else entry i is its
      first and it is stalled there. */
  ghost predicate Settled(net: Net, slots: seq<Connection>, k: nat, i: nat)
    requires k <= |slots| && i < |slots|
  {
    !Bound(Before(slots, k), slots[i].from) ==>
      IsEnd(net, slots[i].from) && slots[i].from == Lo(net, slots[i].from) && Stalled(net, slots[i].from)
  }

  /** Every entry passed so far is settled. */
  ghost predicate OnSchedule(net: Net, slots: seq<Connection>, k: nat)
    requires IsSlots(net, slots) && k <= |slots|
  {
    forall i: nat :: i < k ==> Settled(net, slots, k, i)
  }

  lemma {:induction false} PassedOrLater(net: Net, slots: seq<Connection>, k: nat, e: Port) returns (i: nat)
    requires IsSlots(net, slots) && k < |slots| && IsEnd(net, e) && e != slots[k].from
    ensures i < |slots| && slots[i].from == e
    ensures i < k || Less(slots[k].from, e)
  {
    i := SlotOf(net, slots, e);
    OrderIsPosition(net, slots, k, i);
  }

  lemma {:induction false} UnboundIsLate(net: Net, slots: seq<Connection>, k: nat, p: Port) returns (n: nat)
    requires IsSlots(net, slots) && k < |slots| && OnSchedule(net, slots, k)
    requires !Bound(Before(slots, k), p)
    requires IsEnd(net, p) ==> p != slots[k].from && Peer(net, p) != slots[k].from
    ensures Late(net, p, slots[k].from, n)
  {
    n := 0;
    if IsEnd(net, p) {
      LoHi(net, p);
      BoundTogether(net, slots, k, p);
      var i := PassedOrLater(net, slots, k, Lo(net, p));
      if i < k {
        assert Settled(net, slots, k, i);
        var m: nat :| Waits(net, Lo(net, p), Lo(net, p), m);
        var j := PassedOrLater(net, slots, k, Hi(net, p));
        assert j < k ==> Settled(net, slots, k, j);
        n := m + 1;
      }
    }
  }

  /** The two ends of a connection are bound together. */
  lemma {:induction false} BoundTogether(net: Net, slots: seq<Connection>, k: nat, e: Port)
    requires IsSlots(net, slots) && k <= |slots| && IsEnd(net, e)
    ensures Bound(Before(slots, k), e) <==> Bound(Before(slots, k), Peer(net, e))
  {
    PeerOfPeer(net, e);
    if Bound(Before(slots, k), e) {
      OtherEndBound(net, slots, k, e);
    }
    if Bound(Before(slots, k), Peer(net, e)) {
      OtherEndBound(net, slots, k, Peer(net, e));
    }
  }

  lemma {:induction false} OtherEndBound(net: Net, slots: seq<Connection>, k: nat, e: Port)
    requires IsSlots(net, slots) && k <= |slots| && IsEnd(net, e) && Bound(Before(slots, k), e)
    ensures Bound(Before(slots, k), Peer(net, e))
  {
    var st := Before(slots, k);
    BeforeConsistent(net, slots, k);
    EndsOf(st.made, e);
    var c :| c in st.made && (e == c.from || e == c.to);
    PeerIsPartner(net, c);
    InEnds(st.made, c);
  }

  /** A connection not chosen at an entry waits there. */
  lemma {:induction false} UnmadeWaits(net: Net, slots: seq<Connection>, k: nat) returns (n: nat)
    requires IsSlots(net, slots) && k < |slots| && OnSchedule(net, slots, k) && IsEnd(net, slots[k].from)
    requires !Bound(Before(slots, k), slots[k].from) && !Makeable(Before(slots, k), slots[k])
    ensures Waits(net, slots[k].from, slots[k].from, n)
  {
    var (e, st) := (slots[k].from, Before(slots, k));
    SlotPeer(net, slots, k);
    var f := Peer(net, e);
    BoundTogether(net, slots, k, e);
    n := 0;
    if KeyOf(e) != KeyOf(f) {
      var x := if CountOf(st, KeyOf(e)) < e.index then e else f;
      assert x.index > 0 && !Bound(st, Below(x));
      if IsEnd(net, Below(x)) {
        PeerOfPeer(net, Below(x));
      }
      n := UnboundIsLate(net, slots, k, Below(x));
    }
  }

  lemma {:induction false} BoundStays(slots: seq<Connection>, k: nat, e: Port)
    requires k < |slots| && Bound(Before(slots, k), e)
    ensures Bound(Before(slots, k + 1), e)
  {
  }

  lemma {:induction false} StaysOnSchedule(net: Net, slots: seq<Connection>, k: nat)
    requires IsSlots(net, slots) && NoneBlocked(net) && k <= |slots|
    ensures OnSchedule(net, slots, k)
  {
    if k > 0 {
      StaysOnSchedule(net, slots, k - 1);
      forall i: nat | i < k
        ensures Settled(net, slots, k, i)
      {
        if i < k - 1 {
          assert Settled(net, slots, k - 1, i);
          if Bound(Before(slots, k - 1), slots[i].from) {
            BoundStays(slots, k - 1, slots[i].from);
          }
        } else {
          LastSlotSettles(net, slots, i);
        }
      }
    }
  }

  lemma {:induction false} LastSlotSettles(net: Net, slots: seq<Connection>, i: nat)
    requires IsSlots(net, slots) && NoneBlocked(net) && i < |slots| && OnSchedule(net, slots, i)
    ensures Settled(net, slots, i + 1, i)
  {
    var e := slots[i].from;
    SlotPeer(net, slots, i);
    if Bound(Before(slots, i), e) {
      BoundStays(slots, i, e);
    } else if Makeable(Before(slots, i), slots[i]) {
      PeerOfPeer(net, e);
      VisitBindsAt(Before(slots, i), slots[i], e);
    } else {
      var n := UnmadeWaits(net, slots, i);
      LoHi(net, e);
      if e == Hi(net, e) {
        assert false;
      }
    }
  }

  /** The pass binds every connection exactly when none is blocked. */
  lemma {:induction false} CompleteIffNoneBlocked(net: Net, slots: seq<Connection>)
    requires IsSlots(net, slots)
    ensures Complete(net, slots) <==> NoneBlocked(net)
  {
    if Complete(net, slots) {
      forall e | IsEnd(net, e)
        ensures !Blocked(net, e)
      {
        if Blocked(net, e) {
          BlockedIsUnbound(net, slots, e);
          assert false;
        }
      }
    }
    if NoneBlocked(net) {
      StaysOnSchedule(net, slots, |slots|);
      forall e | IsEnd(net, e)
        ensures Bound(Before(slots, |slots|), e)
      {
        LoHi(net, e);
        var j := SlotOf(net, slots, Hi(net, e));
        assert Settled(net, slots, |slots|, j);
        LessTotal(Lo(net, e), Hi(net, e));
        BoundTogether(net, slots, |slots|, e);
      }
    }
  }
}
