/** Periodic checkpoints: the loop that drives a simulation from outside, against
    a guest that may stop it at any time and drains that may take any time. */
module RunControl {
  import opened Results
  import opened Grid
  import opened RunClock

  /** What is raised: a length that is not a tick, or a refused switch of processors. */
  datatype Raised = NotATick | SwitchRefused

  /** A length that fits the wrapper's unsigned 64-bit parameter. */
  predicate IsTick(n: int) {
    0 <= n <= MAX_TICK
  }

  /** The tick a run of n more ticks is limited to: a sum that would roll over is
      cut at the last tick. */
  function LimitTick(cur: nat, n: int): int {
    if n < MAX_TICK - cur then cur + n else MAX_TICK
  }

  class Simulator {
    var tick: nat
    var pending: seq<Exit>
    var drains: seq<nat>

    ghost predicate Valid()
      reads this
    {
      tick <= MAX_TICK && InOrder(pending) && (pending != [] ==> tick <= pending[0].tick)
    }

    /** Runs the event loop for n more ticks. A length that is not a tick is refused
        before anything is simulated. */
    method Simulate(n: int) returns (r: Result<Cause, Raised>)
      requires Valid()
      modifies this
      ensures Valid() && tick >= old(tick) && drains == old(drains)
      ensures !IsTick(n) ==> r == Err(NotATick) && tick == old(tick) && pending == old(pending)
      ensures IsTick(n) ==>
        r.Ok? && RanTo(old(pending), LimitTick(old(tick), n), tick, pending, r.value)
    {
      if !IsTick(n) {
        return Err(NotATick);
      }
      var limit := LimitTick(tick, n);
      if Fires(pending, limit) {
        r := Ok(pending[0].cause);
        tick, pending := pending[0].tick, pending[1..];
      } else {
        r := Ok(Limit);
        tick := limit;
      }
    }

    /** Simulates until every object is drained. Exits of the guest that come before
        are not seen by anyone. */
    method Drain()
      requires Valid()
      modifies this
      ensures Valid() && tick == Sat(old(tick) + DrainAt(old(drains), 0))
      ensures pending == After(old(pending), tick) && drains == LaterDrains(old(drains), 1)
    {
      var end := Sat(tick + DrainAt(drains, 0));
      drains := LaterDrains(drains, 1);
      while Fires(pending, end)
        invariant InOrder(pending) && After(pending, end) == After(old(pending), end)
        invariant drains == LaterDrains(old(drains), 1)
        decreases |pending|
      {
        pending := pending[1..];
      }
      tick := end;
    }

    /** Goes on through the guest's own checkpoint requests. */
    method SkipCheckpoints(target: int, cause0: Cause) returns (r: Result<Cause, Raised>)
      requires Valid() && target <= MAX_TICK
      modifies this
      ensures Valid() && tick >= old(tick) && drains == old(drains)
      ensures cause0 != Checkpoint ==> r == Ok(cause0) && tick == old(tick) && pending == old(pending)
      ensures cause0 == Checkpoint && old(tick) > target ==>
        r == Err(NotATick) && tick == old(tick) && pending == old(pending)
      ensures cause0 == Checkpoint && old(tick) <= target ==>
        r.Ok? && Reached(old(pending), target, tick, pending, r.value)
    {
      var cause := cause0;
      while cause == Checkpoint
        invariant Valid() && tick >= old(tick) && drains == old(drains)
        invariant cause0 != Checkpoint ==> cause == cause0 && tick == old(tick) && pending == old(pending)
        invariant cause0 == Checkpoint && old(tick) > target ==>
          cause == Checkpoint && tick == old(tick) && pending == old(pending)
        invariant cause0 == Checkpoint && old(tick) <= target ==>
          if cause == Checkpoint
          then tick <= target && DropCheckpoints(pending, target) == DropCheckpoints(old(pending), target)
          else Reached(old(pending), target, tick, pending, cause)
        decreases |pending|, cause == Checkpoint
      {
        r := Simulate(target - tick);
        if r.Err? {
          return;
        }
        cause := r.value;
      }
      r := Ok(cause);
    }
  }

  /** The state after a run limited to tick t. */
  ghost predicate RanTo(p: seq<Exit>, t: int, tick: nat, pending: seq<Exit>, cause: Cause) {
    if Fires(p, t) then tick == p[0].tick && pending == p[1..] && cause == p[0].cause
    else tick == t && pending == p && cause == Limit
  }

  /** What is left after the checkpoint requests that come before a limit at t. */
  ghost function DropCheckpoints(p: seq<Exit>, t: int): seq<Exit> {
    if Fires(p, t) && p[0].cause == Checkpoint then DropCheckpoints(p[1..], t) else p
  }

  /** The state after running to `target` through all checkpoint requests. */
  ghost predicate Reached(p: seq<Exit>, target: int, tick: nat, pending: seq<Exit>, cause: Cause) {
    RanTo(DropCheckpoints(p, target), target, tick, pending, cause)
  }

  lemma {:induction false} DropKeepsOrder(p: seq<Exit>, t: int)
    requires InOrder(p)
    ensures InOrder(DropCheckpoints(p, t))
    decreases |p|
  {
    if Fires(p, t) && p[0].cause == Checkpoint {
      DropKeepsOrder(p[1..], t);
    }
  }

  // ---- How many checkpoints ----

  /** Checkpoints still allowed after one due at tick t. */
  ghost function Further(t: int, period: nat, left: int, maxtick: int): nat
    decreases left
  {
    if left <= 0 || t + period > maxtick then 0 else 1 + Further(t + period, period, left - 1, maxtick)
  }

  /** The number of checkpoints an undisturbed run takes. */
  ghost function Allowed(when: nat, period: nat, most: int, maxtick: int): nat {
    1 + Further(when, period, most - 1, maxtick)
  }

  /** It is the most that neither exceeds the count nor is due past the end. */
  lemma {:induction false} AllowedIsMost(when: nat, period: nat, most: int, maxtick: int, k: nat)
    requires k <= Further(Due(when, period, 0), period, most - 1, maxtick)
    ensures var n := Allowed(when, period, most, maxtick);
            && n - k - 1 == Further(Due(when, period, k), period, most - 1 - k, maxtick)
            && (k > 0 ==> k < most && Due(when, period, k) <= maxtick)
            && (k == n - 1 ==> n >= most || Due(when, period, n) > maxtick)
  {
    if k > 0 {
      AllowedIsMost(when, period, most, maxtick, k - 1);
    }
  }

  // ---- What the loop does ----

  /** The periods that were not cut short: each checkpoint is the schedule plus all
      drains so far. */
  ghost predicate TakenAt(taken: seq<nat>, ds: seq<nat>, when: nat, period: nat) {
    forall k: nat :: k < |taken| ==> taken[k] == Leave(ds, when, period, k)
  }

  /** The first exit of period s, cutting it short. A checkpoint request is followed by
      a run to the scheduled tick, which is refused if that has passed. */
  ghost predicate CutShort(p: seq<Exit>, due: nat, drain: nat, before: seq<nat>, taken: seq<nat>, tick: nat,
                           r: Result<Cause, Raised>)
    requires p != []
  {
    if p[0].cause != Checkpoint then taken == before && r == Ok(p[0].cause) && tick == p[0].tick
    else if p[0].tick > due then taken == before && r == Err(NotATick) && tick == p[0].tick
    else
      var more := DropCheckpoints(p[1..], due);
      if Fires(more, due) then taken == before && r == Ok(more[0].cause) && tick == more[0].tick
      else tick == Sat(due + drain) && taken == before + [tick] && r == Ok(Limit)
  }

  /** All checkpoints are taken: the rest of the run is simulated if the schedule ends
      there, for as long as it would be without drains. */
  ghost predicate Finished(p: seq<Exit>, due: nat, maxtick: nat, last: nat, more: bool, tick: nat,
                           r: Result<Cause, Raised>)
  {
    if !more then r == Ok(Limit) && tick == last
    else if due > maxtick then r == Err(NotATick) && tick == last
    else
      var end := Sat(last + (maxtick - due));
      if Fires(p, end) then r == Ok(p[0].cause) && tick == p[0].tick else r == Ok(Limit) && tick == end
  }

  /** What the run does after the first scheduled tick is reached with q to come: it
      takes n checkpoints, or as many as there are periods before the first exit. */
  ghost predicate Outcome(q: seq<Exit>, ds: seq<nat>, when: nat, period: nat, most: int, maxtick: nat,
                          taken: seq<nat>, tick: nat, r: Result<Cause, Raised>)
  {
    var n := Allowed(when, period, most, maxtick);
    var s := FirstLoud(q, ds, when, period, 1, n);
    |taken| >= s && TakenAt(taken[..s], ds, when, period) &&
    if s == n then
      && |taken| == s
      && Finished(Left(q, ds, when, period, n), Due(when, period, n - 1), maxtick, Leave(ds, when, period, n - 1),
                  n < most, tick, r)
    else
      CutShort(Left(q, ds, when, period, s), Due(when, period, s), DrainAt(ds, s), taken[..s], taken, tick, r)
  }

  /** Drains and writes a checkpoint; its tick is in the name of the directory. */
  method TakeCheckpoint(sim: Simulator) returns (at: nat)
    requires sim.Valid()
    modifies sim
    ensures sim.Valid() && at == sim.tick == Sat(old(sim.tick) + DrainAt(old(sim.drains), 0))
    ensures sim.pending == After(old(sim.pending), at) && sim.drains == LaterDrains(old(sim.drains), 1)
  {
    sim.Drain();
    at := sim.tick;
  }

  lemma {:induction false} DrainsLeft(ds: seq<nat>, k: nat)
    ensures DrainAt(LaterDrains(ds, k), 0) == DrainAt(ds, k)
    ensures LaterDrains(LaterDrains(ds, k), 1) == LaterDrains(ds, k + 1)
  {
  }

  /** One period from where the loop is, up to its checkpoint. */
  ghost predicate PeriodDone(p: seq<Exit>, limit: int, due: nat, tick: nat, pending: seq<Exit>, cause: Cause,
                             event: Result<Cause, Raised>)
  {
    if !Fires(p, limit) then cause == Limit && event == Ok(Limit) && tick == limit && pending == p
    else if p[0].cause != Checkpoint then cause == p[0].cause && event == Ok(p[0].cause) && tick == p[0].tick
    else
      && cause == Checkpoint
      && if p[0].tick > due then event == Err(NotATick) && tick == p[0].tick
         else event.Ok? && Reached(p[1..], due, tick, pending, event.value)
  }

  /** Simulates one period. `cause` is what the loop goes by, `event` what happened last. */
  method OnePeriod(sim: Simulator, simTicks: nat, period: nat) returns (cause: Cause, event: Result<Cause, Raised>)
    requires sim.Valid() && simTicks + period <= MAX_TICK
    modifies sim
    ensures sim.Valid() && sim.drains == old(sim.drains)
    ensures PeriodDone(old(sim.pending), LimitTick(old(sim.tick), period), simTicks + period, sim.tick, sim.pending,
                       cause, event)
    ensures event.Ok? && cause != Limit && event.value == Limit ==> sim.tick == simTicks + period
  {
    ghost var p := sim.pending;
    var r := sim.Simulate(period);
    cause := r.value;
    event := sim.SkipCheckpoints(simTicks + period, cause);
    if p != [] {
      DropKeepsOrder(p[1..], simTicks + period);
    }
  }

  /** Simulates up to the first checkpoint. */
  method RunTo(sim: Simulator, when: int) returns (r: Result<Cause, Raised>)
    requires sim.Valid() && when <= MAX_TICK
    modifies sim
    ensures sim.Valid() && sim.drains == old(sim.drains)
    ensures old(sim.tick) > when ==>
      r == Err(NotATick) && sim.tick == old(sim.tick) && sim.pending == old(sim.pending)
    ensures old(sim.tick) <= when ==>
      && r.Ok? && Reached(old(sim.pending), when, sim.tick, sim.pending, r.value)
      && (r.value == Limit <==> !Fires(DropCheckpoints(old(sim.pending), when), when))
  {
    DropKeepsOrder(sim.pending, when);
    r := sim.Simulate(when - sim.tick);
    if r.Ok? {
      r := sim.SkipCheckpoints(when, r.value);
    }
  }

  /** Simulates the rest of the run, which is refused if its end is in the past. */
  method RunOut(sim: Simulator, simTicks: nat, maxtick: nat) returns (r: Result<Cause, Raised>)
    requires sim.Valid() && maxtick <= MAX_TICK
    modifies sim
    ensures sim.Valid()
    ensures Finished(old(sim.pending), simTicks, maxtick, old(sim.tick), true, sim.tick, r)
  {
    r := sim.Simulate(maxtick - simTicks);
  }

  /** The loop's state while no exit was seen. */
  ghost predicate Kept(q: seq<Exit>, ds: seq<nat>, when: nat, period: nat, n: nat, taken: seq<nat>, simTicks: nat,
                       tick: nat, pending: seq<Exit>, drains: seq<nat>)
  {
    var k := |taken|;
    && 1 <= k <= n && TakenAt(taken, ds, when, period) && simTicks == Due(when, period, k - 1)
    && FirstLoud(q, ds, when, period, k, n) == FirstLoud(q, ds, when, period, 1, n)
    && tick == Leave(ds, when, period, k - 1) && pending == Left(q, ds, when, period, k) && drains == LaterDrains(ds, k)
  }

  /** A quiet period and its drain. */
  lemma {:induction false} KeptOn(q: seq<Exit>, ds: seq<nat>, when: nat, period: nat, n: nat, taken: seq<nat>,
          simTicks: nat, tick: nat, pending: seq<Exit>, drains: seq<nat>, at: nat)
    requires Kept(q, ds, when, period, n, taken, simTicks, tick, pending, drains) && |taken| < n
    requires !Fires(pending, Sat(tick + period)) && at == Sat(Sat(tick + period) + DrainAt(drains, 0))
    ensures Kept(q, ds, when, period, n, taken + [at], simTicks + period, at, After(pending, at),
                 LaterDrains(drains, 1))
  {
    var k := |taken|;
    LeaveSteps(ds, when, period, k - 1);
    LeaveSteps(ds, when, period, k);
    DrainsLeft(ds, k);
    AfterTwice(q, tick, at);
  }

  /** The first checkpoint is taken. */
  method Periods(sim: Simulator, when: nat, period: nat, most: int, maxtick: nat, ghost q: seq<Exit>)
    returns (r: Result<Cause, Raised>, taken: seq<nat>)
    requires sim.Valid() && when <= MAX_TICK && maxtick <= MAX_TICK && sim.tick == when && sim.pending == q
    modifies sim
    ensures sim.Valid()
    ensures Outcome(q, old(sim.drains), when, period, most, maxtick, taken, sim.tick, r)
  {
    ghost var ds, n := sim.drains, Allowed(when, period, most, maxtick);
    DrainsLeft(ds, 0);
    var at := TakeCheckpoint(sim);
    taken := [at];
    var cause := Limit;
    var simTicks: nat := when;
    r := Ok(Limit);
    assert Drained(ds, 1) == DrainAt(ds, 0);
    while |taken| < most && cause == Limit
      invariant sim.Valid()
      invariant cause == Limit ==>
        r == Ok(Limit) && Kept(q, ds, when, period, n, taken, simTicks, sim.tick, sim.pending, sim.drains)
      invariant cause != Limit ==> Outcome(q, ds, when, period, most, maxtick, taken, sim.tick, r)
      decreases most - |taken|, cause == Limit
    {
      if simTicks + period > maxtick {
        r := RunOut(sim, simTicks, maxtick);
        NoneFurther(q, ds, when, period, most, maxtick, taken, simTicks, sim.tick, r);
        return;
      }
      cause, r, taken := NextPeriod(sim, q, ds, when, period, most, maxtick, taken, simTicks);
      if r.Err? {
        return;
      }
      simTicks := simTicks + period;
    }
    if cause == Limit {
      NoneFurther(q, ds, when, period, most, maxtick, taken, simTicks, sim.tick, r);
    }
  }

  /** A period, and a checkpoint if it was completed. */
  method PeriodAndCheckpoint(sim: Simulator, simTicks: nat, period: nat, taken0: seq<nat>)
    returns (cause: Cause, event: Result<Cause, Raised>, taken: seq<nat>, ghost tick: nat, ghost pending: seq<Exit>)
    requires sim.Valid() && simTicks + period <= MAX_TICK
    modifies sim
    ensures sim.Valid()
    ensures PeriodDone(old(sim.pending), Sat(old(sim.tick) + period), simTicks + period, tick, pending, cause, event)
    ensures if event == Ok(Limit)
            then
              && sim.tick == Sat(tick + DrainAt(old(sim.drains), 0)) && taken == taken0 + [sim.tick]
              && sim.pending == After(pending, sim.tick) && sim.drains == LaterDrains(old(sim.drains), 1)
            else sim.tick == tick && taken == taken0
  {
    cause, event := OnePeriod(sim, simTicks, period);
    taken, tick, pending := taken0, sim.tick, sim.pending;
    if event == Ok(Limit) {
      var at := TakeCheckpoint(sim);
      taken := taken + [at];
    }
  }

  /** One turn of the loop that takes another period. */
  method NextPeriod(sim: Simulator, ghost q: seq<Exit>, ghost ds: seq<nat>, ghost when: nat, period: nat,
                    ghost most: int, ghost maxtick: nat, taken0: seq<nat>, simTicks: nat)
    returns (cause: Cause, event: Result<Cause, Raised>, taken: seq<nat>)
    requires sim.Valid() && maxtick <= MAX_TICK && |taken0| < most && simTicks + period <= maxtick
    requires Kept(q, ds, when, period, Allowed(when, period, most, maxtick), taken0, simTicks, sim.tick, sim.pending,
                  sim.drains)
    modifies sim
    ensures sim.Valid() && |taken| <= |taken0| + 1
    ensures event.Ok? && cause == Limit ==>
      && event == Ok(Limit) && |taken| == |taken0| + 1
      && Kept(q, ds, when, period, Allowed(when, period, most, maxtick), taken, simTicks + period, sim.tick,
              sim.pending, sim.drains)
    ensures event.Err? || cause != Limit ==> Outcome(q, ds, when, period, most, maxtick, taken, sim.tick, event)
  {
    ghost var tick, pending, drains := sim.tick, sim.pending, sim.drains;
    AllowedIsMost(when, period, most, maxtick, |taken0| - 1);
    ghost var tick', pending';
    cause, event, taken, tick', pending' := PeriodAndCheckpoint(sim, simTicks, period, taken0);
    if cause == Limit {
      KeptOn(q, ds, when, period, Allowed(when, period, most, maxtick), taken0, simTicks, tick, pending, drains,
             sim.tick);
    } else {
      PeriodCutShort(q, ds, when, period, most, maxtick, taken0, simTicks, tick, pending, drains,
                     tick', pending', cause, event, taken, sim.tick);
    }
  }

  lemma {:induction false} PeriodCutShort(q: seq<Exit>, ds: seq<nat>, when: nat, period: nat, most: int, maxtick: nat,
          before: seq<nat>, simTicks: nat, tick0: nat, p: seq<Exit>, drains: seq<nat>, tick: nat, pending: seq<Exit>,
          cause: Cause, event: Result<Cause, Raised>, taken: seq<nat>, end: nat)
    requires Kept(q, ds, when, period, Allowed(when, period, most, maxtick), before, simTicks, tick0, p, drains)
    requires |before| < Allowed(when, period, most, maxtick) && InOrder(p) && cause != Limit
    requires PeriodDone(p, Sat(tick0 + period), simTicks + period, tick, pending, cause, event)
    requires if event == Ok(Limit) then end == Sat(tick + DrainAt(drains, 0)) && taken == before + [end]
             else end == tick && taken == before
    ensures Outcome(q, ds, when, period, most, maxtick, taken, end, event)
  {
    CutShortIf(p, Sat(tick0 + period), simTicks + period, DrainAt(drains, 0), before, tick, pending, cause, event,
               taken, end);
    KeptMeans(q, ds, when, period, Allowed(when, period, most, maxtick), before, simTicks, tick0, p, drains);
    OutcomeIfCut(q, ds, when, period, most, maxtick, before, taken, end, event);
  }

  lemma {:induction false} KeptMeans(q: seq<Exit>, ds: seq<nat>, when: nat, period: nat, n: nat, taken: seq<nat>,
          simTicks: nat, tick: nat, p: seq<Exit>, drains: seq<nat>)
    requires Kept(q, ds, when, period, n, taken, simTicks, tick, p, drains) && |taken| < n
    ensures simTicks + period == Due(when, period, |taken|) && DrainAt(drains, 0) == DrainAt(ds, |taken|)
    ensures Fires(p, Sat(tick + period)) ==> FirstLoud(q, ds, when, period, 1, n) == |taken|
  {
    LeaveSteps(ds, when, period, |taken| - 1);
    DrainsLeft(ds, |taken|);
    assert Quiet(q, ds, when, period, |taken|) <==> !Fires(p, Sat(tick + period));
  }

  lemma {:induction false} OutcomeIfCut(q: seq<Exit>, ds: seq<nat>, when: nat, period: nat, most: int, maxtick: nat,
          before: seq<nat>, taken: seq<nat>, end: nat, r: Result<Cause, Raised>)
    requires 1 <= |before| < Allowed(when, period, most, maxtick) && TakenAt(before, ds, when, period)
    requires FirstLoud(q, ds, when, period, 1, Allowed(when, period, most, maxtick)) == |before|
    requires Left(q, ds, when, period, |before|) != []
    requires CutShort(Left(q, ds, when, period, |before|), Due(when, period, |before|), DrainAt(ds, |before|), before,
                      taken, end, r)
    ensures Outcome(q, ds, when, period, most, maxtick, taken, end, r)
  {
    assert taken[..|before|] == before;
  }

  lemma {:induction false} CutShortIf(p: seq<Exit>, limit: int, due: nat, drain: nat, before: seq<nat>, tick: nat,
          pending: seq<Exit>, cause: Cause, event: Result<Cause, Raised>, taken: seq<nat>, end: nat)
    requires InOrder(p) && cause != Limit && PeriodDone(p, limit, due, tick, pending, cause, event)
    requires if event == Ok(Limit) then end == Sat(tick + drain) && taken == before + [end]
             else end == tick && taken == before
    ensures p != [] && CutShort(p, due, drain, before, taken, end, event)
  {
    DropKeepsOrder(p[1..], due);
  }

  lemma {:induction false} NoneFurther(q: seq<Exit>, ds: seq<nat>, when: nat, period: nat, most: int, maxtick: nat,
          taken: seq<nat>, simTicks: nat, tick: nat, r: Result<Cause, Raised>)
    requires 1 <= |taken| <= Allowed(when, period, most, maxtick) && simTicks == Due(when, period, |taken| - 1)
    requires |taken| >= most || simTicks + period > maxtick
    requires TakenAt(taken, ds, when, period)
    requires FirstLoud(q, ds, when, period, |taken|, Allowed(when, period, most, maxtick))
          == FirstLoud(q, ds, when, period, 1, Allowed(when, period, most, maxtick))
    requires Finished(Left(q, ds, when, period, |taken|), simTicks, maxtick, Leave(ds, when, period, |taken| - 1),
                      |taken| < most, tick, r)
    ensures Outcome(q, ds, when, period, most, maxtick, taken, tick, r)
  {
    AllowedIsMost(when, period, most, maxtick, |taken| - 1);
    assert taken[..|taken|] == taken;
  }

  /** Takes checkpoints at `when` and every `period` ticks after it, each after a drain. */
  method ScriptCheckpoints(sim: Simulator, when: int, period: int, most: int, maxtick: nat)
    returns (r: Result<Cause, Raised>, taken: seq<nat>)
    requires sim.Valid() && when <= MAX_TICK && maxtick <= MAX_TICK
    modifies sim
    ensures sim.Valid()
    ensures old(sim.tick) > when ==> r == Err(NotATick) && taken == [] && sim.tick == old(sim.tick)
    ensures old(sim.tick) <= when ==>
      var q := DropCheckpoints(old(sim.pending), when);
      if Fires(q, when) then r == Ok(q[0].cause) && taken == [] && sim.tick == q[0].tick
      else if period >= 0 then Outcome(q, old(sim.drains), when, period, most, maxtick, taken, sim.tick, r)
      else
        && taken == [Sat(when + DrainAt(old(sim.drains), 0))] && sim.tick == taken[0]
        && r == if most > 1 then Err(NotATick) else Ok(Limit)
  {
    taken := [];
    r := RunTo(sim, when);
    if r == Ok(Limit) {
      if period >= 0 {
        r, taken := Periods(sim, when, period, most, maxtick, sim.pending);
      } else {
        r, taken := NoPeriods(sim, when, period, most, maxtick);
      }
    }
  }

  /** The same loop for a negative period: its first turn raises. */
  method NoPeriods(sim: Simulator, when: nat, period: int, most: int, maxtick: nat)
    returns (r: Result<Cause, Raised>, taken: seq<nat>)
    requires sim.Valid() && maxtick <= MAX_TICK && period < 0 && sim.tick == when
    modifies sim
    ensures sim.Valid() && taken == [Sat(when + DrainAt(old(sim.drains), 0))] && sim.tick == taken[0]
    ensures r == if most > 1 then Err(NotATick) else Ok(Limit)
  {
    var at := TakeCheckpoint(sim);
    taken := [at];
    r := Ok(Limit);
    if |taken| < most {
      if when + period > maxtick {
        r := sim.Simulate(maxtick - when);
      } else {
        r := sim.Simulate(period);
      }
    }
  }

  // ---- When it raises, when it is complete, when it passes the end ----

  /** The first period with an exit, and what is to come in it. */
  ghost function CutAt(q: seq<Exit>, ds: seq<nat>, when: nat, period: nat, most: int, maxtick: nat): (s: nat)
    ensures 1 <= s <= Allowed(when, period, most, maxtick)
  {
    FirstLoud(q, ds, when, period, 1, Allowed(when, period, most, maxtick))
  }

  /** The first exit seen after the first checkpoint is a checkpoint request, at a tick
      after the one its period was to end at: the drains have put the run behind. */
  ghost predicate LateRequest(q: seq<Exit>, ds: seq<nat>, when: nat, period: nat, most: int, maxtick: nat) {
    var s := CutAt(q, ds, when, period, most, maxtick);
    var p := Left(q, ds, when, period, s);
    s < Allowed(when, period, most, maxtick) && p[0].cause == Checkpoint && p[0].tick > Due(when, period, s)
  }

  /** After the first checkpoint it raises exactly if a second was asked for and the end
      is before the first, or on a late request. */
  lemma {:induction false} RaisesIff(q: seq<Exit>, ds: seq<nat>, when: nat, period: nat, most: int, maxtick: nat,
          taken: seq<nat>, tick: nat, r: Result<Cause, Raised>)
    requires Outcome(q, ds, when, period, most, maxtick, taken, tick, r)
    ensures r.Err? <==> (when > maxtick && most > 1) || LateRequest(q, ds, when, period, most, maxtick)
  {
    var n := Allowed(when, period, most, maxtick);
    AllowedIsMost(when, period, most, maxtick, n - 1);
  }

  /** Requests are late only after drains that took time. */
  lemma {:induction false} LateAfterDrains(q: seq<Exit>, ds: seq<nat>, when: nat, period: nat, most: int, maxtick: nat)
    requires LateRequest(q, ds, when, period, most, maxtick)
    ensures Drained(ds, CutAt(q, ds, when, period, most, maxtick)) > 0
  {
  }

  /** Nothing ends the schedule before its n-th checkpoint: no exit is seen before the
      last period, and in that one only requests in time. */
  ghost predicate Undisturbed(q: seq<Exit>, ds: seq<nat>, when: nat, period: nat, n: nat)
    requires n > 0
  {
    && (forall k: nat :: 0 < k < n - 1 ==> Quiet(q, ds, when, period, k))
    && (n > 1 ==>
          Quiet(q, ds, when, period, n - 1) || InTime(Left(q, ds, when, period, n - 1), Due(when, period, n - 1)))
  }

  /** The exits up to the tick are checkpoint requests. */
  ghost predicate InTime(p: seq<Exit>, due: nat) {
    p != [] && p[0].cause == Checkpoint && p[0].tick <= due && !Fires(DropCheckpoints(p[1..], due), due)
  }

  /** It takes all checkpoints exactly if it is undisturbed, and never more. */
  lemma {:induction false} CompleteIff(q: seq<Exit>, ds: seq<nat>, when: nat, period: nat, most: int, maxtick: nat,
          taken: seq<nat>, tick: nat, r: Result<Cause, Raised>)
    requires Outcome(q, ds, when, period, most, maxtick, taken, tick, r)
    ensures var n := Allowed(when, period, most, maxtick);
            |taken| <= n && (|taken| == n <==> Undisturbed(q, ds, when, period, n))
  {
  }

  /** Each checkpoint is the schedule plus the drains so far. One that is reached
      through requests comes at the schedule, and only its own drain is added. */
  lemma {:induction false} TakenWhen(q: seq<Exit>, ds: seq<nat>, when: nat, period: nat, most: int, maxtick: nat,
          taken: seq<nat>, tick: nat, r: Result<Cause, Raised>, k: nat)
    requires Outcome(q, ds, when, period, most, maxtick, taken, tick, r) && k < |taken|
    ensures taken[k] == if k < CutAt(q, ds, when, period, most, maxtick) then Leave(ds, when, period, k)
                        else Sat(Due(when, period, k) + DrainAt(ds, k))
  {
    var s := CutAt(q, ds, when, period, most, maxtick);
    if k < s {
      assert taken[..s][k] == taken[k];
    }
  }

  /** The checkpoints are on schedule exactly if the drains before and at them took no
      time. */
  lemma {:induction false} OnScheduleExactly(q: seq<Exit>, ds: seq<nat>, when: nat, period: nat, most: int,
          maxtick: nat, taken: seq<nat>, tick: nat, r: Result<Cause, Raised>)
    requires Outcome(q, ds, when, period, most, maxtick, taken, tick, r)
    requires Due(when, period, |taken| - 1) < MAX_TICK
    ensures (forall k: nat :: k < |taken| ==> taken[k] == Due(when, period, k)) <==> Drained(ds, |taken|) == 0
  {
    var s, last := CutAt(q, ds, when, period, most, maxtick), |taken| - 1;
    DueGrows(when, period, s - 1, last);
    AllOnScheduleIff(ds, when, period, s);
    forall k: nat | k < |taken|
      ensures taken[k] == if k < s then Leave(ds, when, period, k) else Sat(Due(when, period, k) + DrainAt(ds, k))
    {
      TakenWhen(q, ds, when, period, most, maxtick, taken, tick, r, k);
    }
    if s == last {
      assert taken[last] == Due(when, period, last) <==> DrainAt(ds, last) == 0;
    }
  }

  /** When the run ends past maxtick, in terms of the exits and the drains. */
  ghost predicate PassesEnd(q: seq<Exit>, ds: seq<nat>, when: nat, period: nat, most: int, maxtick: nat) {
    var n, s := Allowed(when, period, most, maxtick), CutAt(q, ds, when, period, most, maxtick);
    var p := Left(q, ds, when, period, s);
    if s == n && n >= most then Due(when, period, n - 1) + Drained(ds, n) > maxtick
    else if s == n then Drained(ds, n) > 0 && (p == [] || p[0].tick > maxtick)
    else if InTime(p, Due(when, period, s)) then Due(when, period, s) + DrainAt(ds, s) > maxtick
    else p[0].tick > maxtick
  }

  lemma {:induction false} PassesEndIff(q: seq<Exit>, ds: seq<nat>, when: nat, period: nat, most: int, maxtick: nat,
          taken: seq<nat>, tick: nat, r: Result<Cause, Raised>)
    requires Outcome(q, ds, when, period, most, maxtick, taken, tick, r) && when <= maxtick < MAX_TICK
    ensures tick > maxtick <==> PassesEnd(q, ds, when, period, most, maxtick)
  {
    var n, s := Allowed(when, period, most, maxtick), CutAt(q, ds, when, period, most, maxtick);
    AllowedIsMost(when, period, most, maxtick, n - 1);
    if s < n {
      AllowedIsMost(when, period, most, maxtick, s);
    }
  }

  // ---- Without drains ----

  /** No exit up to the last checkpoint but one, and only requests before the last. */
  ghost predicate LeftAlone(q: seq<Exit>, when: nat, period: nat, n: nat) {
    n >= 2 ==>
      && !Fires(q, Due(when, period, n - 2))
      && !Fires(DropCheckpoints(q, Due(when, period, n - 1)), Due(when, period, n - 1))
  }

  /** Without drains the first cut is where the first exit is on the schedule. */
  lemma {:induction false} CutWithoutDrains(q: seq<Exit>, ds: seq<nat>, when: nat, period: nat, k: nat, n: nat)
    requires 0 < k <= n && Drained(ds, n) == 0 && Due(when, period, n - 1) <= MAX_TICK
    requires !Fires(q, Due(when, period, k - 1))
    ensures var s := FirstLoud(q, ds, when, period, k, n);
            && !Fires(q, Due(when, period, s - 1)) && Left(q, ds, when, period, s) == q
            && (s < n ==> Fires(q, Due(when, period, s)))
    decreases n - k
  {
    DrainedGrows(ds, k, n);
    DueGrows(when, period, k - 1, n - 1);
    assert Leave(ds, when, period, k - 1) == Due(when, period, k - 1);
    if k < n {
      DueGrows(when, period, k, n - 1);
      QuietWithoutDrains(q, ds, when, period, k);
      if Quiet(q, ds, when, period, k) {
        CutWithoutDrains(q, ds, when, period, k + 1, n);
      }
    }
  }

  /** If the drains take no time, checkpoints are on schedule, all of them are taken
      exactly if the guest leaves the schedule alone, only an end before the first
      raises, and the end is not passed. */
  lemma {:induction false} WithoutDrains(q: seq<Exit>, ds: seq<nat>, when: nat, period: nat, most: int, maxtick: nat,
          taken: seq<nat>, tick: nat, r: Result<Cause, Raised>)
    requires Outcome(q, ds, when, period, most, maxtick, taken, tick, r) && !Fires(q, when)
    requires when <= MAX_TICK && maxtick <= MAX_TICK && Drained(ds, Allowed(when, period, most, maxtick)) == 0
    ensures forall k: nat :: k < |taken| ==> taken[k] == Due(when, period, k)
    ensures |taken| == Allowed(when, period, most, maxtick)
       <==> LeftAlone(q, when, period, Allowed(when, period, most, maxtick))
    ensures r.Err? <==> when > maxtick && most > 1
    ensures when <= maxtick ==> tick <= maxtick
  {
    CutWithoutDrainsHere(q, ds, when, period, most, maxtick);
    forall k: nat | k < |taken|
      ensures taken[k] == Due(when, period, k)
    {
      OnTime(q, ds, when, period, most, maxtick, taken, tick, r, k);
    }
    RaisesIff(q, ds, when, period, most, maxtick, taken, tick, r);
    LeftAloneIff(q, when, period, CutAt(q, ds, when, period, most, maxtick), Allowed(when, period, most, maxtick));
    if when <= maxtick {
      NotPastWithoutDrains(q, ds, when, period, most, maxtick, taken, tick, r);
    }
  }

  lemma {:induction false} CutWithoutDrainsHere(q: seq<Exit>, ds: seq<nat>, when: nat, period: nat, most: int,
          maxtick: nat)
    requires !Fires(q, when) && when <= MAX_TICK && maxtick <= MAX_TICK
    requires Drained(ds, Allowed(when, period, most, maxtick)) == 0
    ensures var s := CutAt(q, ds, when, period, most, maxtick);
            && !Fires(q, Due(when, period, s - 1)) && Left(q, ds, when, period, s) == q
            && (s < Allowed(when, period, most, maxtick) ==> Fires(q, Due(when, period, s)))
  {
    var n := Allowed(when, period, most, maxtick);
    AllowedIsMost(when, period, most, maxtick, n - 1);
    CutWithoutDrains(q, ds, when, period, 1, n);
  }

  lemma {:induction false} NotPastWithoutDrains(q: seq<Exit>, ds: seq<nat>, when: nat, period: nat, most: int,
          maxtick: nat, taken: seq<nat>, tick: nat, r: Result<Cause, Raised>)
    requires Outcome(q, ds, when, period, most, maxtick, taken, tick, r) && !Fires(q, when)
    requires when <= maxtick <= MAX_TICK && Drained(ds, Allowed(when, period, most, maxtick)) == 0
    ensures tick <= maxtick
  {
    var n, s := Allowed(when, period, most, maxtick), CutAt(q, ds, when, period, most, maxtick);
    AllowedIsMost(when, period, most, maxtick, n - 1);
    CutWithoutDrainsHere(q, ds, when, period, most, maxtick);
    if s < n {
      AllowedIsMost(when, period, most, maxtick, s);
      DrainedGrows(ds, s + 1, n);
    }
  }

  lemma {:induction false} OnTime(q: seq<Exit>, ds: seq<nat>, when: nat, period: nat, most: int, maxtick: nat,
          taken: seq<nat>, tick: nat, r: Result<Cause, Raised>, k: nat)
    requires Outcome(q, ds, when, period, most, maxtick, taken, tick, r) && k < |taken|
    requires when <= MAX_TICK && maxtick <= MAX_TICK && Drained(ds, Allowed(when, period, most, maxtick)) == 0
    ensures taken[k] == Due(when, period, k)
  {
    CompleteIff(q, ds, when, period, most, maxtick, taken, tick, r);
    TakenWhen(q, ds, when, period, most, maxtick, taken, tick, r, k);
    AllowedIsMost(when, period, most, maxtick, k);
    DrainedGrows(ds, k + 1, Allowed(when, period, most, maxtick));
  }

  /** An exit in period s: the schedule is left alone exactly if that is the last
      period and only checkpoint requests come. */
  lemma {:induction false} LeftAloneIff(q: seq<Exit>, when: nat, period: nat, s: nat, n: nat)
    requires 1 <= s <= n && !Fires(q, Due(when, period, s - 1)) && (s < n ==> Fires(q, Due(when, period, s)))
    ensures s == n ==> LeftAlone(q, when, period, n)
    ensures s < n ==> (LeftAlone(q, when, period, n) <==> s == n - 1 && InTime(q, Due(when, period, s)))
  {
    if s == n && n >= 2 {
      DueGrows(when, period, n - 2, n - 1);
    } else if s < n - 1 {
      DueGrows(when, period, s, n - 2);
    }
  }

  // ---- Instances ----

  /** A checkpoint request of the guest between the first two checkpoints of three
      keeps the third from being taken. */
  lemma {:induction false} ScheduleCutShort()
    ensures Allowed(10, 10, 3, 100) == 3
    ensures !Undisturbed([Exit(15, Checkpoint, true)], [], 10, 10, 3)
  {
    assert Further(30, 10, 0, 100) == 0;
    assert Further(20, 10, 1, 100) == 1;
    assert Times(1, 10) == 10 && Times(0, 10) == 0;
    assert Drained([], 1) == 0;
    assert !Quiet([Exit(15, Checkpoint, true)], [], 10, 10, 1);
  }

  /** A drain of 20 ticks puts the second of two checkpoints past the end, and makes a
      request at 165 raise. */
  lemma {:induction false} DrainPutsBehind()
    ensures Allowed(100, 50, 2, 150) == 2 && Leave([20], 100, 50, 1) == 170
    ensures LateRequest([Exit(165, Checkpoint, true)], [20], 100, 50, 2, 150)
  {
    assert Further(150, 50, 0, 150) == 0;
    assert Times(0, 50) == 0 && Times(1, 50) == 50;
    assert Drained([20], 1) == 20 && Drained([20], 2) == 20;
    assert !Quiet([Exit(165, Checkpoint, true)], [20], 100, 50, 1);
  }
}
