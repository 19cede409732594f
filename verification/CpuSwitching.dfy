/** Switching back and forth between two sets of processors. */
module CpuSwitching {
  import opened Results
  import opened Grid
  import opened RunClock
  import opened RunControl

  type Cpu = nat

  type Pairs = seq<(Cpu, Cpu)>

  function Olds(list: Pairs): set<Cpu> {
    set k | 0 <= k < |list| :: list[k].0
  }

  function News(list: Pairs): set<Cpu> {
    set k | 0 <= k < |list| :: list[k].1
  }

  predicate PairFits(active: set<Cpu>, olds: set<Cpu>, pair: (Cpu, Cpu)) {
    pair.1 !in olds && pair.1 !in active && pair.0 in active
  }

  /** The checks pass: every processor to leave is active, every one to come is
      neither active nor about to leave. */
  ghost predicate Checked(active: set<Cpu>, list: Pairs) {
    list != [] && forall k :: 0 <= k < |list| ==> PairFits(active, Olds(list), list[k])
  }

  /** No processor is named twice on either side. */
  ghost predicate NoneTwice(list: Pairs) {
    forall j, k :: 0 <= j < k < |list| ==> list[j].0 != list[k].0 && list[j].1 != list[k].1
  }

  /** The switch goes through. */
  ghost predicate Switchable(active: set<Cpu>, list: Pairs) {
    Checked(active, list) && NoneTwice(list)
  }

  function Swapped(list: Pairs): Pairs {
    seq(|list|, k requires 0 <= k < |list| => (list[k].1, list[k].0))
  }

  /** The active processors after a switch. */
  ghost function Exchanged(active: set<Cpu>, list: Pairs): set<Cpu> {
    active - Olds(list) + News(list)
  }

  lemma {:induction false} SwapSets(list: Pairs)
    ensures Olds(Swapped(list)) == News(list) && News(Swapped(list)) == Olds(list)
    ensures Swapped(Swapped(list)) == list
  {
    var r := Swapped(list);
    forall c
      ensures c in Olds(r) <==> c in News(list)
      ensures c in News(r) <==> c in Olds(list)
    {
      if c in News(list) {
        var k :| 0 <= k < |list| && list[k].1 == c;
        assert r[k].0 == c;
      }
      if c in Olds(list) {
        var k :| 0 <= k < |list| && list[k].0 == c;
        assert r[k].1 == c;
      }
    }
  }

  /** After a switch the reverse switch is accepted, and undoes it. */
  lemma {:induction false} SwitchBack(active: set<Cpu>, list: Pairs)
    requires Switchable(active, list)
    ensures Switchable(Exchanged(active, list), Swapped(list))
    ensures Exchanged(Exchanged(active, list), Swapped(list)) == active
  {
    SwapSets(list);
    forall c | c in News(list)
      ensures c !in Olds(list) && c !in active
    {
      var k :| 0 <= k < |list| && list[k].1 == c;
      assert PairFits(active, Olds(list), list[k]);
    }
    forall c | c in Olds(list)
      ensures c in active
    {
      var k :| 0 <= k < |list| && list[k].0 == c;
      assert PairFits(active, Olds(list), list[k]);
    }
    var r := Swapped(list);
    forall k | 0 <= k < |r|
      ensures PairFits(Exchanged(active, list), Olds(r), r[k])
    {
      assert list[k].0 in Olds(list) && list[k].1 in News(list);
    }
    assert NoneTwice(r) by {
      forall j, k | 0 <= j < k < |r|
        ensures r[j].0 != r[k].0 && r[j].1 != r[k].1
      {
        assert r[j] == (list[j].1, list[j].0) && r[k] == (list[k].1, list[k].0);
      }
    }
  }

  /** How a switch ends: the checks raise, or a processor fails its own assertion
      because it is switched out, or taken over, a second time. */
  datatype Switch = Done | Refused | Asserted

  class Processors {
    var active: set<Cpu>

    /** Checks the list, drains, switches out all processors to leave, then lets the
        others take over. */
    method SwitchCpus(sim: Simulator, list: Pairs) returns (r: Switch)
      requires sim.Valid()
      modifies this, sim
      ensures sim.Valid()
      ensures r == Refused <==> !Checked(old(active), list)
      ensures r == Done <==> Switchable(old(active), list)
      ensures r == Refused ==>
        active == old(active) && sim.tick == old(sim.tick) && sim.pending == old(sim.pending) &&
        sim.drains == old(sim.drains)
      ensures r != Refused ==>
        && sim.tick == Sat(old(sim.tick) + DrainAt(old(sim.drains), 0))
        && sim.pending == After(old(sim.pending), sim.tick) && sim.drains == LaterDrains(old(sim.drains), 1)
      ensures r == Done ==> active == Exchanged(old(active), list)
    {
      if list == [] {
        return Refused;
      }
      var olds := Olds(list);
      for k := 0 to |list|
        invariant active == old(active) && sim.Valid()
        invariant sim.tick == old(sim.tick) && sim.pending == old(sim.pending) && sim.drains == old(sim.drains)
        invariant forall j :: 0 <= j < k ==> PairFits(active, olds, list[j])
      {
        if !PairFits(active, olds, list[k]) {
          return Refused;
        }
      }
      sim.Drain();
      var out := SwitchOut(list);
      if !out {
        return Asserted;
      }
      assert active == old(active) - olds;
      assert forall k :: 0 <= k < |list| ==> PairFits(old(active), olds, list[k]);
      var over := TakeOver(list);
      r := if over then Done else Asserted;
    }

    /** Switches out the first processor of every pair, which must be active. */
    method SwitchOut(list: Pairs) returns (ok: bool)
      requires forall k :: 0 <= k < |list| ==> list[k].0 in active
      modifies this
      ensures ok <==> forall j, k :: 0 <= j < k < |list| ==> list[j].0 != list[k].0
      ensures ok ==> active == old(active) - Olds(list)
    {
      for k := 0 to |list|
        invariant active == old(active) - Olds(list[..k])
        invariant forall i, j :: 0 <= i < j < k ==> list[i].0 != list[j].0
      {
        if list[k].0 !in active {
          var j :| 0 <= j < k && list[..k][j].0 == list[k].0;
          return false;
        }
        OneMoreOld(list, k);
        assert forall j :: 0 <= j < k ==> list[..k][j].0 in Olds(list[..k]);
        active := active - {list[k].0};
      }
      assert list[..|list|] == list;
      ok := true;
    }

    /** Lets the second processor of every pair take over; it must not be active. */
    method TakeOver(list: Pairs) returns (ok: bool)
      requires forall k :: 0 <= k < |list| ==> list[k].1 !in active
      modifies this
      ensures ok <==> forall j, k :: 0 <= j < k < |list| ==> list[j].1 != list[k].1
      ensures ok ==> active == old(active) + News(list)
    {
      for k := 0 to |list|
        invariant active == old(active) + News(list[..k])
        invariant forall i, j :: 0 <= i < j < k ==> list[i].1 != list[j].1
      {
        if list[k].1 in active {
          var j :| 0 <= j < k && list[..k][j].1 == list[k].1;
          return false;
        }
        OneMoreNew(list, k);
        assert forall j :: 0 <= j < k ==> list[..k][j].1 in News(list[..k]);
        active := active + {list[k].1};
      }
      assert list[..|list|] == list;
      ok := true;
    }
  }

  lemma {:induction false} OneMoreOld(list: Pairs, k: nat)
    requires k < |list|
    ensures Olds(list[..k + 1]) == Olds(list[..k]) + {list[k].0}
  {
    SwapSets(list[..k]);
    SwapSets(list[..k + 1]);
    OneMoreNew(Swapped(list), k);
    assert Swapped(list)[..k] == Swapped(list[..k]) && Swapped(list)[..k + 1] == Swapped(list[..k + 1]);
  }

  lemma {:induction false} OneMoreNew(list: Pairs, k: nat)
    requires k < |list|
    ensures News(list[..k + 1]) == News(list[..k]) + {list[k].1}
  {
    forall c
      ensures c in News(list[..k + 1]) <==> c in News(list[..k]) || c == list[k].1
    {
      if c in News(list[..k]) {
        var j :| 0 <= j < k && list[..k][j].1 == c;
        assert list[..k + 1][j].1 == c;
      }
      if c == list[k].1 {
        assert list[..k + 1][k].1 == c;
      }
    }
  }

  ghost predicate Even(n: nat) {
    n % 2 == 0
  }

  /** The list and the active processors after a number of switches. */
  ghost predicate Alternating(n: nat, list0: Pairs, active0: set<Cpu>, list: Pairs, active: set<Cpu>) {
    if Even(n) then list == list0 && active == active0
    else list == Swapped(list0) && active == Exchanged(active0, list0)
  }

  lemma {:induction false} AlternatesOn(n: nat, list0: Pairs, active0: set<Cpu>, list: Pairs, active: set<Cpu>)
    requires Switchable(active0, list0) && Alternating(n, list0, active0, list, active)
    ensures Switchable(active, list)
    ensures Alternating(n + 1, list0, active0, Swapped(list), Exchanged(active, list))
  {
    if Even(n) {
      assert !Even(n + 1);
    } else {
      assert Even(n + 1);
      SwitchBack(active0, list0);
      SwapSets(list0);
    }
  }

  /** The list and the active processors after n switches. */
  ghost function Switched(n: nat, list0: Pairs, active0: set<Cpu>): (Pairs, set<Cpu>) {
    if n == 0 then (list0, active0)
    else
      var (list, active) := Switched(n - 1, list0, active0);
      (Swapped(list), Exchanged(active, list))
  }

  /** If the first switch goes through, so do all others; the original pairing is
      back after every second one. */
  lemma {:induction false} SwitchedAlternates(n: nat, list0: Pairs, active0: set<Cpu>)
    requires Switchable(active0, list0)
    ensures var (list, active) := Switched(n, list0, active0);
            Alternating(n, list0, active0, list, active) && Switchable(active, list)
  {
    if n > 0 {
      SwitchedAlternates(n - 1, list0, active0);
      var (list, active) := Switched(n - 1, list0, active0);
      AlternatesOn(n - 1, list0, active0, list, active);
      SwitchBack(active, list);
    }
  }

  // ---- The loop ----

  /** One period and, if it was not cut short, a switch. */
  method PeriodAndSwitch(sim: Simulator, cpus: Processors, list: Pairs, freq: nat)
    returns (r: Result<Cause, Raised>)
    requires sim.Valid() && 0 < freq <= MAX_TICK
    modifies sim, cpus
    ensures sim.Valid()
    ensures var t := Sat(old(sim.tick) + freq);
            if Fires(old(sim.pending), t)
            then
              && sim.tick == old(sim.pending)[0].tick && r == Ok(old(sim.pending)[0].cause) && r != Ok(Limit)
              && cpus.active == old(cpus.active)
            else if Switchable(old(cpus.active), list)
            then
              && r == Ok(Limit) && cpus.active == Exchanged(old(cpus.active), list)
              && sim.tick == Sat(t + DrainAt(old(sim.drains), 0))
              && sim.pending == After(old(sim.pending), sim.tick) && sim.drains == LaterDrains(old(sim.drains), 1)
            else r == Err(SwitchRefused)
  {
    r := sim.Simulate(freq);
    if r == Ok(Limit) {
      var switched := cpus.SwitchCpus(sim, list);
      if switched != Done {
        r := Err(SwitchRefused);
      }
    }
  }

  /** After switch k, counted from 0, more than one period is left. It is over at Leave(k). */
  ghost predicate GoesOn(ds: seq<nat>, start: nat, freq: nat, maxtick: nat, k: nat) {
    maxtick - Leave(ds, start + freq, freq, k) > freq
  }

  /** The last switch of a run that no exit cuts short, from the k-th on. */
  ghost function LastSwitch(ds: seq<nat>, start: nat, freq: nat, maxtick: nat, k: nat): (n: nat)
    requires freq > 0 && maxtick <= MAX_TICK
    ensures n >= k && !GoesOn(ds, start, freq, maxtick, n)
    ensures forall j: nat :: k <= j < n ==> GoesOn(ds, start, freq, maxtick, j)
    decreases MAX_TICK - Leave(ds, start + freq, freq, k)
  {
    if !GoesOn(ds, start, freq, maxtick, k) then k
    else
      LeaveSteps(ds, start + freq, freq, k);
      LeaveSteps(ds, start + freq, freq, k + 1);
      LastSwitch(ds, start, freq, maxtick, k + 1)
  }

  /** How the loop ends if the first switch goes through: where the first exit comes, or
      after the last switch at maxtick, which is refused if the drains went past it. */
  ghost predicate Ends(exits: seq<Exit>, ds: seq<nat>, start: nat, freq: nat, maxtick: nat, switches: nat, tick: nat,
                       r: Result<Cause, Raised>)
    requires freq > 0 && maxtick <= MAX_TICK
  {
    var when, n := start + freq, LastSwitch(ds, start, freq, maxtick, 0) + 1;
    var s := FirstLoud(exits, ds, when, freq, 1, n);
    var p := Left(exits, ds, when, freq, s);
    && switches == s
    && if s < n then r == Ok(p[0].cause) && tick == p[0].tick
       else RunOff(p, Leave(ds, when, freq, n - 1), maxtick, tick, r)
  }

  /** A run from a tick to maxtick, which is refused if that is in the past. */
  ghost predicate RunOff(p: seq<Exit>, at: nat, maxtick: nat, tick: nat, r: Result<Cause, Raised>) {
    if at > maxtick then r == Err(NotATick) && tick == at
    else if Fires(p, maxtick) then r == Ok(p[0].cause) && tick == p[0].tick
    else r == Ok(Limit) && tick == maxtick
  }

  /** The clock after k switches, with no exit seen. */
  ghost predicate OnClock(exits: seq<Exit>, ds: seq<nat>, start: nat, freq: nat, maxtick: nat, k: nat, tick: nat,
                          pending: seq<Exit>, drains: seq<nat>)
    requires freq > 0 && maxtick <= MAX_TICK
  {
    var when, n := start + freq, LastSwitch(ds, start, freq, maxtick, 0) + 1;
    && 0 < k <= n && FirstLoud(exits, ds, when, freq, k, n) == FirstLoud(exits, ds, when, freq, 1, n)
    && tick == Leave(ds, when, freq, k - 1) && pending == Left(exits, ds, when, freq, k) && drains == LaterDrains(ds, k)
  }

  lemma {:induction false} OnClockOn(exits: seq<Exit>, ds: seq<nat>, start: nat, freq: nat, maxtick: nat, k: nat,
          tick: nat, pending: seq<Exit>, drains: seq<nat>, at: nat)
    requires freq > 0 && maxtick <= MAX_TICK && OnClock(exits, ds, start, freq, maxtick, k, tick, pending, drains)
    requires maxtick - tick > freq
    requires !Fires(pending, Sat(tick + freq)) && at == Sat(Sat(tick + freq) + DrainAt(drains, 0))
    ensures OnClock(exits, ds, start, freq, maxtick, k + 1, at, After(pending, at), LaterDrains(drains, 1))
  {
    var when := start + freq;
    LeaveSteps(ds, when, freq, k - 1);
    LeaveSteps(ds, when, freq, k);
    DrainsLeft(ds, k);
    AfterTwice(exits, tick, at);
  }

  /** What one turn does to the clock: an exit, a switch that fails, the rest of the run,
      or a switch with more than one period left. */
  ghost predicate TurnDone(tick: nat, pending: seq<Exit>, drains: seq<nat>, fits: bool, maxtick: nat, freq: nat,
                           tick': nat, pending': seq<Exit>, drains': seq<nat>, r: Result<Cause, Raised>, again: bool,
                           switched: bool)
  {
    var t := Sat(tick + freq);
    var at := Sat(t + DrainAt(drains, 0));
    if Fires(pending, t) then !switched && !again && r == Ok(pending[0].cause) && tick' == pending[0].tick
    else if !fits then !switched && !again && r == Err(SwitchRefused)
    else
      && switched && (again <==> maxtick - at > freq)
      && if again
         then r == Ok(Limit) && tick' == at && pending' == After(pending, at) && drains' == LaterDrains(drains, 1)
         else RunOff(After(pending, at), at, maxtick, tick', r)
  }

  /** One turn of the loop: a period, a switch, and the rest of the run if at most one
      more period is left. */
  method Turn(sim: Simulator, cpus: Processors, list: Pairs, maxtick: nat, freq: nat)
    returns (r: Result<Cause, Raised>, again: bool, switched: bool)
    requires sim.Valid() && maxtick <= MAX_TICK && 0 < freq <= MAX_TICK
    modifies sim, cpus
    ensures sim.Valid()
    ensures TurnDone(old(sim.tick), old(sim.pending), old(sim.drains), Switchable(old(cpus.active), list), maxtick,
                     freq, sim.tick, sim.pending, sim.drains, r, again, switched)
    ensures switched ==> cpus.active == Exchanged(old(cpus.active), list)
    ensures !switched && r.Ok? ==> cpus.active == old(cpus.active)
  {
    again, switched := false, false;
    r := PeriodAndSwitch(sim, cpus, list, freq);
    if r == Ok(Limit) {
      switched := true;
      if maxtick - sim.tick <= freq {
        r := sim.Simulate(maxtick - sim.tick);
      } else {
        again := true;
      }
    }
  }

  /** How the loop ends: in the first period, at the first switch, or after it. */
  ghost predicate Over(exits: seq<Exit>, ds: seq<nat>, start: nat, freq: nat, maxtick: nat, fits: bool, switches: nat,
                       tick: nat, r: Result<Cause, Raised>)
    requires freq > 0 && maxtick <= MAX_TICK
  {
    if Fires(exits, Sat(start + freq)) then switches == 0 && r == Ok(exits[0].cause) && tick == exits[0].tick
    else if !fits then switches == 0 && r == Err(SwitchRefused)
    else Ends(exits, ds, start, freq, maxtick, switches, tick, r)
  }

  /** The clock after k switches, with a turn to come. */
  ghost predicate Ticking(exits: seq<Exit>, ds: seq<nat>, start: nat, freq: nat, maxtick: nat, fits: bool, k: nat,
                          tick: nat, pending: seq<Exit>, drains: seq<nat>)
    requires freq > 0 && maxtick <= MAX_TICK
  {
    if k == 0 then tick == start && pending == exits && drains == ds
    else
      && fits && !Fires(exits, Sat(start + freq)) && maxtick - tick > freq
      && OnClock(exits, ds, start, freq, maxtick, k, tick, pending, drains)
  }

  /** Switches after every period until at most one is left. */
  method RepeatSwitch(sim: Simulator, cpus: Processors, list0: Pairs, maxtick: nat, freq: nat)
    returns (r: Result<Cause, Raised>, switches: nat, list: Pairs)
    requires sim.Valid() && maxtick <= MAX_TICK && 0 < freq <= MAX_TICK
    modifies sim, cpus
    ensures sim.Valid()
    ensures Over(old(sim.pending), old(sim.drains), old(sim.tick), freq, maxtick, Switchable(old(cpus.active), list0),
                 switches, sim.tick, r)
    ensures r != Err(SwitchRefused) ==> (list, cpus.active) == Switched(switches, list0, old(cpus.active))
  {
    ghost var active0, exits, ds, start := cpus.active, sim.pending, sim.drains, sim.tick;
    ghost var fits := Switchable(active0, list0);
    var again := true;
    list, switches, r := list0, 0, Ok(Limit);
    while again
      invariant sim.Valid()
      invariant r != Err(SwitchRefused) ==> (list, cpus.active) == Switched(switches, list0, active0)
      invariant again ==> r != Err(SwitchRefused)
      invariant again ==>
        Ticking(exits, ds, start, freq, maxtick, fits, switches, sim.tick, sim.pending, sim.drains)
      invariant !again ==> Over(exits, ds, start, freq, maxtick, fits, switches, sim.tick, r)
      decreases again, MAX_TICK - sim.tick
    {
      var switched;
      r, again, switched := NextTurn(sim, cpus, list, maxtick, freq, switches, list0, active0, exits, ds, start, fits);
      if switched {
        list, switches := Swapped(list), switches + 1;
      }
    }
  }

  /** The turn after k switches. */
  method NextTurn(sim: Simulator, cpus: Processors, list: Pairs, maxtick: nat, freq: nat, ghost k: nat,
                  ghost list0: Pairs, ghost active0: set<Cpu>, ghost exits: seq<Exit>, ghost ds: seq<nat>,
                  ghost start: nat, ghost fits: bool)
    returns (r: Result<Cause, Raised>, again: bool, switched: bool)
    requires sim.Valid() && maxtick <= MAX_TICK && 0 < freq <= MAX_TICK && (fits <==> Switchable(active0, list0))
    requires (list, cpus.active) == Switched(k, list0, active0)
    requires Ticking(exits, ds, start, freq, maxtick, fits, k, sim.tick, sim.pending, sim.drains)
    modifies sim, cpus
    ensures sim.Valid()
    ensures r != Err(SwitchRefused) ==>
      if switched then (Swapped(list), cpus.active) == Switched(k + 1, list0, active0)
      else (list, cpus.active) == Switched(k, list0, active0)
    ensures again ==>
      && switched && r != Err(SwitchRefused) && sim.tick > old(sim.tick)
      && Ticking(exits, ds, start, freq, maxtick, fits, k + 1, sim.tick, sim.pending, sim.drains)
    ensures !again ==> Over(exits, ds, start, freq, maxtick, fits, if switched then k + 1 else k, sim.tick, r)
  {
    ghost var tick, pending, drains := sim.tick, sim.pending, sim.drains;
    FitsStill(k, list0, active0, list, cpus.active);
    r, again, switched := Turn(sim, cpus, list, maxtick, freq);
    TurnOn(exits, ds, start, freq, maxtick, fits, k, tick, pending, drains, sim.tick, sim.pending, sim.drains,
           r, again, switched);
  }

  /** Every switch goes through exactly if the first does. */
  lemma {:induction false} FitsStill(n: nat, list0: Pairs, active0: set<Cpu>, list: Pairs, active: set<Cpu>)
    requires (list, active) == Switched(n, list0, active0) && (n > 0 ==> Switchable(active0, list0))
    ensures Switchable(active, list) <==> Switchable(active0, list0)
  {
    if n > 0 {
      SwitchedAlternates(n, list0, active0);
    }
  }

  lemma {:induction false} TurnOn(exits: seq<Exit>, ds: seq<nat>, start: nat, freq: nat, maxtick: nat, fits: bool,
          k: nat, tick: nat, pending: seq<Exit>, drains: seq<nat>, tick': nat, pending': seq<Exit>,
          drains': seq<nat>, r: Result<Cause, Raised>, again: bool, switched: bool)
    requires maxtick <= MAX_TICK && 0 < freq
    requires Ticking(exits, ds, start, freq, maxtick, fits, k, tick, pending, drains)
    requires TurnDone(tick, pending, drains, fits, maxtick, freq, tick', pending', drains', r, again, switched)
    ensures again ==>
      && switched && tick' > tick
      && Ticking(exits, ds, start, freq, maxtick, fits, k + 1, tick', pending', drains')
    ensures !again ==> Over(exits, ds, start, freq, maxtick, fits, if switched then k + 1 else k, tick', r)
  {
    var at := Sat(Sat(tick + freq) + DrainAt(drains, 0));
    if k == 0 {
      FirstTurn(exits, ds, start, freq, maxtick);
    } else if switched {
      OnClockOn(exits, ds, start, freq, maxtick, k, tick, pending, drains, at);
    } else {
      LoudTurn(exits, ds, start, freq, maxtick, k, tick, pending, drains, tick', r);
    }
    if switched && !again {
      LastTurn(exits, ds, start, freq, maxtick, k + 1, at, After(pending, at), LaterDrains(drains, 1), tick', r);
    }
  }

  lemma {:induction false} FirstTurn(exits: seq<Exit>, ds: seq<nat>, start: nat, freq: nat, maxtick: nat)
    requires freq > 0 && maxtick <= MAX_TICK
    ensures var at := Sat(Sat(start + freq) + DrainAt(ds, 0));
            OnClock(exits, ds, start, freq, maxtick, 1, at, After(exits, at), LaterDrains(ds, 1))
  {
    assert Drained(ds, 1) == DrainAt(ds, 0);
  }

  /** No switch follows: it was the last. */
  lemma {:induction false} LastTurn(exits: seq<Exit>, ds: seq<nat>, start: nat, freq: nat, maxtick: nat, k: nat,
          at: nat, pending: seq<Exit>, drains: seq<nat>, tick: nat, r: Result<Cause, Raised>)
    requires freq > 0 && maxtick <= MAX_TICK && maxtick - at <= freq
    requires OnClock(exits, ds, start, freq, maxtick, k, at, pending, drains)
    requires RunOff(pending, at, maxtick, tick, r)
    ensures Ends(exits, ds, start, freq, maxtick, k, tick, r)
  {
    assert !GoesOn(ds, start, freq, maxtick, k - 1);
  }

  /** An exit comes in the next period. */
  lemma {:induction false} LoudTurn(exits: seq<Exit>, ds: seq<nat>, start: nat, freq: nat, maxtick: nat, k: nat,
          tick: nat, pending: seq<Exit>, drains: seq<nat>, end: nat, r: Result<Cause, Raised>)
    requires freq > 0 && maxtick <= MAX_TICK && OnClock(exits, ds, start, freq, maxtick, k, tick, pending, drains)
    requires maxtick - tick > freq
    requires Fires(pending, Sat(tick + freq)) && r == Ok(pending[0].cause) && end == pending[0].tick
    ensures Ends(exits, ds, start, freq, maxtick, k, end, r)
  {
    LeaveSteps(ds, start + freq, freq, k - 1);
    assert GoesOn(ds, start, freq, maxtick, k - 1);
    assert !Quiet(exits, ds, start + freq, freq, k);
  }

  // ---- When it raises, and when it ends ----

  /** After a first switch that went through, it raises exactly if no exit comes in any
      period and the last drain takes longer than was left of the run. */
  lemma {:induction false} OverrunIff(exits: seq<Exit>, ds: seq<nat>, start: nat, freq: nat, maxtick: nat,
          switches: nat, tick: nat, r: Result<Cause, Raised>)
    requires freq > 0 && maxtick < MAX_TICK && Ends(exits, ds, start, freq, maxtick, switches, tick, r)
    ensures var last := LastSwitch(ds, start, freq, maxtick, 0);
            r.Err? <==>
              && FirstLoud(exits, ds, start + freq, freq, 1, last + 1) == last + 1
              && DrainAt(ds, last) > maxtick - Arrive(ds, start + freq, freq, last)
  {
    LeaveSteps(ds, start + freq, freq, LastSwitch(ds, start, freq, maxtick, 0));
  }

  /** A run that does not raise after its first switch never passes maxtick. */
  lemma {:induction false} NeverPast(exits: seq<Exit>, ds: seq<nat>, start: nat, freq: nat, maxtick: nat,
          switches: nat, tick: nat, r: Result<Cause, Raised>)
    requires freq > 0 && maxtick <= MAX_TICK && Ends(exits, ds, start, freq, maxtick, switches, tick, r)
    ensures r.Ok? ==> tick <= maxtick
  {
    var when, n := start + freq, LastSwitch(ds, start, freq, maxtick, 0) + 1;
    var s := FirstLoud(exits, ds, when, freq, 1, n);
    if s < n {
      LeaveSteps(ds, when, freq, s - 1);
      assert GoesOn(ds, start, freq, maxtick, s - 1);
    }
  }

  /** Without drains it raises exactly if the first period ends past maxtick, and with no
      exits it ends at maxtick after the switches that leave at most one period. */
  lemma {:induction false} SwitchingWithoutDrains(exits: seq<Exit>, ds: seq<nat>, start: nat, freq: nat, maxtick: nat,
          switches: nat, tick: nat, r: Result<Cause, Raised>)
    requires freq > 0 && maxtick < MAX_TICK && Ends(exits, ds, start, freq, maxtick, switches, tick, r)
    requires Drained(ds, LastSwitch(ds, start, freq, maxtick, 0) + 1) == 0
    ensures r.Err? <==> start + freq > maxtick
    ensures exits == [] && r.Ok? ==>
      && tick == maxtick && start + Times(switches, freq) <= maxtick <= start + Times(switches + 1, freq)
      && (switches > 1 ==> start + Times(switches, freq) < maxtick)
  {
    var when, last := start + freq, LastSwitch(ds, start, freq, maxtick, 0);
    if last > 0 {
      LeaveSteps(ds, when, freq, last - 1);
      assert GoesOn(ds, start, freq, maxtick, 0) && GoesOn(ds, start, freq, maxtick, last - 1);
      DrainedGrows(ds, 1, last + 1);
    }
    if exits == [] {
      var s := FirstLoud(exits, ds, when, freq, 1, last + 1);
    }
  }

  /** A first drain of 65 ticks goes past a maxtick of 100. */
  lemma {:induction false} DrainOverruns(exits: seq<Exit>, ds: seq<nat>, start: nat, freq: nat, maxtick: nat,
          switches: nat, tick: nat, r: Result<Cause, Raised>)
    requires exits == [] && ds == [65] && start == 0 && freq == 40 && maxtick == 100
    requires Ends(exits, ds, start, freq, maxtick, switches, tick, r)
    ensures r == Err(NotATick) && tick == 105
  {
    assert Drained(ds, 1) == 65 && !GoesOn(ds, start, freq, maxtick, 0);
  }
}
