/** Periods of simulated time with a drain after each: when they begin and end, and
    what is left of the exits a guest will cause. */
module RunClock {
  import opened Grid

  const MAX_TICK: nat := 0xFFFF_FFFF_FFFF_FFFF

  /** Why the event loop returned. */
  datatype Cause = Limit | Checkpoint | Other(name: string)

  /** An exit the guest will cause; `first` says whether it is served before a
      limit, or the end of a drain, that falls on the same tick. */
  datatype Exit = Exit(tick: nat, cause: Cause, first: bool)

  ghost predicate InOrder(p: seq<Exit>) {
    && (forall k :: 0 <= k < |p| ==> p[k].tick <= MAX_TICK && p[k].cause != Limit)
    && forall j, k :: 0 <= j < k < |p| ==> p[j].tick <= p[k].tick
  }

  /** The next exit comes before a limit at t. */
  predicate Fires(p: seq<Exit>, t: int) {
    p != [] && (p[0].tick < t || (p[0].tick == t && p[0].first))
  }

  /** No tick is later than the last one. */
  function Sat(n: nat): nat {
    if n < MAX_TICK then n else MAX_TICK
  }

  // ---- Drains ----

  /** How long the k-th drain takes: as long as given, and no time after that. */
  function DrainAt(ds: seq<nat>, k: nat): nat {
    if k < |ds| then ds[k] else 0
  }

  function LaterDrains(ds: seq<nat>, k: nat): seq<nat> {
    if k < |ds| then ds[k..] else []
  }

  /** How long the first k drains take. */
  ghost function Drained(ds: seq<nat>, k: nat): nat {
    if k == 0 then 0 else Drained(ds, k - 1) + DrainAt(ds, k - 1)
  }

  lemma {:induction false} DrainedGrows(ds: seq<nat>, j: nat, k: nat)
    requires j <= k
    ensures Drained(ds, j) <= Drained(ds, k)
  {
    if j < k {
      DrainedGrows(ds, j, k - 1);
    }
  }

  /** What is left of the exits after a drain that ends at t. */
  ghost function After(p: seq<Exit>, t: int): seq<Exit> {
    if Fires(p, t) then After(p[1..], t) else p
  }

  lemma {:induction false} AfterStops(p: seq<Exit>, t: int)
    requires InOrder(p)
    ensures InOrder(After(p, t)) && !Fires(After(p, t), t)
    decreases |p|
  {
    if Fires(p, t) {
      AfterStops(p[1..], t);
    }
  }

  /** Two drains lose what the later one would. */
  lemma {:induction false} AfterTwice(p: seq<Exit>, t: int, u: int)
    requires t <= u
    ensures After(After(p, t), u) == After(p, u)
    decreases |p|
  {
    if Fires(p, t) {
      AfterTwice(p[1..], t, u);
    }
  }

  // ---- Periods ----

  /** The tick at which period k would end if drains took no time. */
  ghost function Due(when: nat, period: nat, k: nat): nat {
    when + Times(k, period)
  }

  lemma {:induction false} DueGrows(when: nat, period: nat, j: nat, k: nat)
    requires j <= k
    ensures Due(when, period, j) <= Due(when, period, k)
  {
    if j < k {
      DueGrows(when, period, j, k - 1);
    }
  }

  /** When period k ends, and its drain begins. */
  ghost function Arrive(ds: seq<nat>, when: nat, period: nat, k: nat): nat {
    Sat(Due(when, period, k) + Drained(ds, k))
  }

  /** When the drain after period k ends. */
  ghost function Leave(ds: seq<nat>, when: nat, period: nat, k: nat): nat {
    Sat(Due(when, period, k) + Drained(ds, k + 1))
  }

  lemma {:induction false} LeaveSteps(ds: seq<nat>, when: nat, period: nat, k: nat)
    ensures Leave(ds, when, period, k) == Sat(Arrive(ds, when, period, k) + DrainAt(ds, k))
    ensures Arrive(ds, when, period, k + 1) == Sat(Leave(ds, when, period, k) + period)
  {
  }

  /** A drain ends on schedule exactly if it and all before took no time, or the
      schedule is at the last tick. */
  lemma {:induction false} OnScheduleIff(ds: seq<nat>, when: nat, period: nat, k: nat)
    requires Due(when, period, k) <= MAX_TICK
    ensures Leave(ds, when, period, k) == Due(when, period, k)
       <==> Drained(ds, k + 1) == 0 || Due(when, period, k) == MAX_TICK
  {
  }

  /** All of the first n are on schedule exactly if these drains take no time. */
  lemma {:induction false} AllOnScheduleIff(ds: seq<nat>, when: nat, period: nat, n: nat)
    requires n > 0 && Due(when, period, n - 1) < MAX_TICK
    ensures (forall k: nat :: k < n ==> Leave(ds, when, period, k) == Due(when, period, k)) <==> Drained(ds, n) == 0
  {
    OnScheduleIff(ds, when, period, n - 1);
    if Drained(ds, n) == 0 {
      forall k: nat | k < n
        ensures Leave(ds, when, period, k) == Due(when, period, k)
      {
        DrainedGrows(ds, k + 1, n);
        DueGrows(when, period, k, n - 1);
        OnScheduleIff(ds, when, period, k);
      }
    }
  }

  /** What is left of the exits when period k begins, if none cut a period short. */
  ghost function Left(p: seq<Exit>, ds: seq<nat>, when: nat, period: nat, k: nat): seq<Exit>
    requires k > 0
  {
    After(p, Leave(ds, when, period, k - 1))
  }

  /** No exit comes in period k. */
  ghost predicate Quiet(p: seq<Exit>, ds: seq<nat>, when: nat, period: nat, k: nat)
    requires k > 0
  {
    !Fires(Left(p, ds, when, period, k), Arrive(ds, when, period, k))
  }

  /** The first period from k on, below n, in which an exit comes; n if there is none. */
  ghost function FirstLoud(p: seq<Exit>, ds: seq<nat>, when: nat, period: nat, k: nat, n: nat): (s: nat)
    requires 0 < k <= n
    ensures k <= s <= n
    ensures s < n ==> !Quiet(p, ds, when, period, s)
    ensures forall j: nat :: k <= j < s ==> Quiet(p, ds, when, period, j)
    decreases n - k
  {
    if k == n || !Quiet(p, ds, when, period, k) then k else FirstLoud(p, ds, when, period, k + 1, n)
  }

  /** Without drains nothing is lost while it is quiet. */
  lemma {:induction false} QuietWithoutDrains(p: seq<Exit>, ds: seq<nat>, when: nat, period: nat, k: nat)
    requires k > 0 && Drained(ds, k) == 0 && Due(when, period, k) <= MAX_TICK
    requires !Fires(p, Due(when, period, k - 1))
    ensures Left(p, ds, when, period, k) == p && Arrive(ds, when, period, k) == Due(when, period, k)
    ensures Quiet(p, ds, when, period, k) <==> !Fires(p, Due(when, period, k))
  {
    DueGrows(when, period, k - 1, k);
  }
}
