/** The print queue of the O3 pipeline viewer: instructions arrive slightly out
    of order and are printed in order through a bounded buffer. */
module PipeQueue {
  import opened Results
  import Sorting

  /** An instruction as traced: its number, and the ticks of its fetch, its retirement
      (0 if it was squashed) and the latest of its records. */
  datatype Inst = Inst(sn: int, fetch: int, retire: int, latest: int)

  /** Thresholds, the drift allowed between ticks, and print filter. */
  datatype Settings = Settings(
    maxThreshold: nat, minThreshold: nat, tickDrift: int,
    snStart: int, snStop: int, tickStart: int, tickStop: int, onlyCommitted: bool)

  /** The instruction lies within the boundaries to be printed. */
  predicate Shown(s: Settings, x: Inst) {
    && !(s.snStart > 0 && x.sn < s.snStart)
    && !(s.snStop > 0 && x.sn > s.snStop)
    && !(s.tickStart > 0 && x.fetch < s.tickStart)
    && !(s.tickStop > 0 && x.fetch > s.tickStop)
    && !(s.onlyCommitted && x.retire == 0)
  }

  /** The instruction is so far behind the last one to be printed that reading ends. */
  predicate Stops(s: Settings, x: Inst) {
    || (s.tickStop > 0 && x.fetch > s.tickStop + s.tickDrift)
    || (s.snStop > 0 && x.sn > s.snStop + s.maxThreshold)
  }

  /** Reading starts at a record of this instruction. */
  predicate Starts(s: Settings, x: Inst) {
    if s.tickStart != 0 then x.fetch >= s.tickStart || x.latest >= s.tickStart
    else s.snStart != 0 ==> x.sn >= s.snStart
  }

  /** The first instruction that is read, from the k-th on: where reading starts at a
      later record than its fetch, it is the one after. */
  ghost function StartFrom(s: Settings, stream: seq<Inst>, k: nat): (n: nat)
    requires k <= |stream|
    ensures k <= n <= |stream|
    decreases |stream| - k
  {
    if k == |stream| then k
    else if !Starts(s, stream[k]) then StartFrom(s, stream, k + 1)
    else if s.tickStart != 0 && stream[k].fetch < s.tickStart then k + 1
    else k
  }

  function Filter(s: Settings, q: seq<Inst>): seq<Inst> {
    if q == [] then []
    else Filter(s, q[..|q| - 1]) + (if Shown(s, q[|q| - 1]) then [q[|q| - 1]] else [])
  }

  lemma {:induction false} FilterConcat(s: Settings, p: seq<Inst>, q: seq<Inst>)
    ensures Filter(s, p + q) == Filter(s, p) + Filter(s, q)
  {
    if q == [] {
      assert p + q == p;
    } else {
      FilterConcat(s, p, q[..|q| - 1]);
      assert (p + q)[..|p + q| - 1] == p + q[..|q| - 1];
    }
  }

  lemma {:induction false} FilterStep(s: Settings, q: seq<Inst>, n: nat)
    requires n < |q|
    ensures Filter(s, q[..n + 1]) == Filter(s, q[..n]) + (if Shown(s, q[n]) then [q[n]] else [])
  {
    assert q[..n + 1][..n] == q[..n];
  }

  // ---- Sorting by sequence number ----

  ghost predicate InOrder(q: seq<Inst>) {
    forall i, j :: 0 <= i < j < |q| ==> q[i].sn <= q[j].sn
  }

  predicate Earlier(x: Inst, y: Inst) {
    x.sn < y.sn
  }

  function Sort(q: seq<Inst>): seq<Inst> {
    Sorting.Sort(q, Earlier)
  }

  lemma {:induction false} SortContents(q: seq<Inst>)
    ensures |Sort(q)| == |q| && multiset(Sort(q)) == multiset(q)
  {
    Sorting.SortContents(q, Earlier);
  }

  lemma {:induction false} EarlierIsWeakOrder()
    ensures Sorting.WeakOrder(Earlier)
  {
  }

  lemma {:induction false} SortInOrder(q: seq<Inst>)
    ensures InOrder(Sort(q))
  {
    EarlierIsWeakOrder();
    Sorting.SortOrdered(q, Earlier);
  }

  /** The instructions with a sequence number, in their order. */
  ghost function Numbered(q: seq<Inst>, sn: int): seq<Inst> {
    if q == [] then []
    else Numbered(q[..|q| - 1], sn) + (if q[|q| - 1].sn == sn then [q[|q| - 1]] else [])
  }

  lemma {:induction false} NumberedIsTied(q: seq<Inst>, x: Inst)
    ensures Numbered(q, x.sn) == Sorting.TiedWith(q, x, Earlier)
  {
    if q != [] {
      NumberedIsTied(q[..|q| - 1], x);
    }
  }

  /** Instructions with the same number stay in their order. */
  lemma {:induction false} SortStable(q: seq<Inst>, x: Inst)
    ensures Numbered(Sort(q), x.sn) == Numbered(q, x.sn)
  {
    EarlierIsWeakOrder();
    Sorting.SortStable(q, x, Earlier);
    NumberedIsTied(q, x);
    NumberedIsTied(Sort(q), x);
  }

  // ---- The queue as a function of what was queued ----

  /** What is still queued, and what has been taken from it, in order. */
  datatype Progress = Progress(queue: seq<Inst>, taken: seq<Inst>)

  /** How many instructions of a queue are above a threshold. */
  ghost function Excess(q: seq<Inst>, lower: nat): nat {
    if |q| <= lower then 0 else |q| - lower
  }

  ghost function Drop(p: Progress, lower: nat): Progress {
    var sorted := Sort(p.queue);
    var n := Excess(sorted, lower);
    Progress(sorted[n..], p.taken + sorted[..n])
  }

  ghost function Enqueue(s: Settings, p: Progress, x: Inst): Progress {
    var q := Progress(p.queue + [x], p.taken);
    if |q.queue| > s.maxThreshold then Drop(q, s.minThreshold) else q
  }

  ghost function Feed(s: Settings, stream: seq<Inst>): Progress {
    if stream == [] then Progress([], [])
    else Enqueue(s, Feed(s, stream[..|stream| - 1]), stream[|stream| - 1])
  }

  class Viewer {
    const settings: Settings
    var queue: seq<Inst>
    var printed: seq<Inst>

    /** What was queued and printed so far, as the function says. */
    ghost predicate Shows(p: Progress)
      reads this
    {
      queue == p.queue && printed == Filter(settings, p.taken)
    }

    constructor (s: Settings)
      ensures settings == s && queue == [] && printed == []
    {
      settings, queue, printed := s, [], [];
    }

    method QueueInst(x: Inst)
      modifies this
      ensures var q := old(Progress(queue, [])); queue == Enqueue(settings, q, x).queue
      ensures var q := old(Progress(queue, []));
              printed == old(printed) + Filter(settings, Enqueue(settings, q, x).taken)
    {
      queue := queue + [x];
      if |queue| > settings.maxThreshold {
        PrintInsts(settings.minThreshold);
      }
    }

    method PrintInsts(lower: nat)
      modifies this
      ensures queue == Drop(Progress(old(queue), []), lower).queue
      ensures printed == old(printed) + Filter(settings, Drop(Progress(old(queue), []), lower).taken)
    {
      queue := Sort(queue);
      ghost var n := Excess(queue, lower);
      assert Drop(Progress(old(queue), []), lower).taken == queue[..n];
      PrintDown(lower);
    }

    /** Pops and prints from the front until `lower` instructions are left. */
    method PrintDown(lower: nat)
      modifies this
      ensures queue == old(queue)[Excess(old(queue), lower)..]
      ensures printed == old(printed) + Filter(settings, old(queue)[..Excess(old(queue), lower)])
    {
      ghost var n := 0;
      while |queue| > lower
        invariant 0 <= n <= Excess(old(queue), lower)
        invariant queue == old(queue)[n..]
        invariant printed == old(printed) + Filter(settings, old(queue)[..n])
      {
        var item := queue[0];
        queue := queue[1..];
        FilterStep(settings, old(queue), n);
        n := n + 1;
        PrintIfShown(item);
      }
    }

    /** Skips an instruction outside the boundaries, prints any other. */
    method PrintIfShown(item: Inst)
      modifies this`printed
      ensures printed == old(printed) + (if Shown(settings, item) then [item] else [])
    {
      if settings.snStart > 0 && item.sn < settings.snStart {
        return;
      }
      if settings.snStop > 0 && item.sn > settings.snStop {
        return;
      }
      if settings.tickStart > 0 && item.fetch < settings.tickStart {
        return;
      }
      if settings.tickStop > 0 && item.fetch > settings.tickStop {
        return;
      }
      if settings.onlyCommitted && item.retire == 0 {
        return;
      }
      printed := printed + [item];
    }

    /** One instruction of the trace, after the first k. */
    method QueueNext(stream: seq<Inst>, k: nat)
      requires k < |stream| && Shows(Feed(settings, stream[..k]))
      modifies this
      ensures Shows(Feed(settings, stream[..k + 1]))
    {
      FeedOneMore(settings, stream, k);
      QueueInst(stream[k]);
    }

    /** Queues instructions up to the first that ends the reading, or all of them. */
    method QueueAll(stream: seq<Inst>) returns (k: nat)
      requires queue == [] && printed == []
      modifies this
      ensures k <= |stream| && NoneStops(settings, stream, k) && (k < |stream| ==> Stops(settings, stream[k]))
      ensures Shows(Feed(settings, stream[..k]))
    {
      k := 0;
      FeedNothing(settings, stream);
      while k < |stream| && !Stops(settings, stream[k])
        invariant k <= |stream| && NoneStops(settings, stream, k)
        invariant Shows(Feed(settings, stream[..k]))
      {
        QueueNext(stream, k);
        k := k + 1;
      }
    }

    /** Skips to the starting tick or number, and on to the next fetch. */
    method SkipToStart(stream: seq<Inst>) returns (k: nat)
      ensures k == StartFrom(settings, stream, 0)
    {
      k := 0;
      while k < |stream| && !Starts(settings, stream[k])
        invariant k <= |stream| && StartFrom(settings, stream, k) == StartFrom(settings, stream, 0)
      {
        k := k + 1;
      }
      if k < |stream| && settings.tickStart != 0 && stream[k].fetch < settings.tickStart {
        k := k + 1;
      }
    }

    /** The whole trace: every retired instruction from the start on is queued, and the
        end of the trace prints whatever is left. An instruction past the last one to be
        printed ends it with an error, as the call that was to print the rest lacks an
        argument. */
    method ProcessTrace(trace: seq<Inst>) returns (r: Result<nat, TypeError>)
      requires queue == [] && printed == []
      modifies this
      ensures var stream := trace[StartFrom(settings, trace, 0)..];
              if forall x :: x in stream ==> !Stops(settings, x)
              then r.Ok? && queue == [] && Shows(Drop(Feed(settings, stream), 0))
              else
                r.Err? && exists k: nat :: StopsFirst(settings, stream, k) && Shows(Feed(settings, stream[..k]))
    {
      var start := SkipToStart(trace);
      var stream := trace[start..];
      var k := QueueAll(stream);
      if k < |stream| {
        assert stream[k] in stream;
        return Err(TypeError);
      }
      assert stream[..k] == stream;
      FlushTakes(settings, Feed(settings, stream));
      PrintInsts(0);
      return Ok(k);
    }
  }

  datatype TypeError = TypeError

  /** Instruction k is the first that ends the reading. */
  ghost predicate StopsFirst(s: Settings, stream: seq<Inst>, k: nat) {
    k < |stream| && Stops(s, stream[k]) && NoneStops(s, stream, k)
  }

  ghost predicate NoneStops(s: Settings, stream: seq<Inst>, k: nat)
    requires k <= |stream|
  {
    forall j :: 0 <= j < k ==> !Stops(s, stream[j])
  }

  lemma {:induction false} FeedNothing(s: Settings, stream: seq<Inst>)
    ensures Feed(s, stream[..0]) == Progress([], []) && Filter(s, []) == []
  {
    assert stream[..0] == [];
  }

  /** What is skipped before the start would not have been printed. */
  lemma {:induction false} SkippedIsNotShown(s: Settings, trace: seq<Inst>, k: nat)
    requires k < StartFrom(s, trace, 0) && trace[k].fetch >= 0 && trace[k].sn >= 0
    ensures !Shown(s, trace[k])
  {
    SkippedBefore(s, trace, 0, k);
  }

  lemma {:induction false} SkippedBefore(s: Settings, trace: seq<Inst>, j: nat, k: nat)
    requires j <= k < |trace| && k < StartFrom(s, trace, j)
    ensures !Starts(s, trace[k]) || (s.tickStart != 0 && trace[k].fetch < s.tickStart)
    decreases k - j
  {
    if j < k && !Starts(s, trace[j]) {
      SkippedBefore(s, trace, j + 1, k);
    }
  }

  /** Up to the maximum threshold nothing leaves the queue: a reading that is ended
      by then has printed nothing. */
  lemma {:induction false} NothingTakenYet(s: Settings, stream: seq<Inst>)
    requires |stream| <= s.maxThreshold
    ensures Feed(s, stream) == Progress(stream, []) && Filter(s, Feed(s, stream).taken) == []
  {
    if stream != [] {
      NothingTakenYet(s, stream[..|stream| - 1]);
      assert stream[..|stream| - 1] + [stream[|stream| - 1]] == stream;
    }
  }

  lemma {:induction false} DropTakes(p: Progress, lower: nat)
    ensures Drop(p, lower).queue == Drop(Progress(p.queue, []), lower).queue
    ensures Drop(p, lower).taken == p.taken + Drop(Progress(p.queue, []), lower).taken
  {
  }

  lemma {:induction false} EnqueueTakes(s: Settings, p: Progress, x: Inst)
    ensures Enqueue(s, p, x).queue == Enqueue(s, Progress(p.queue, []), x).queue
    ensures Enqueue(s, p, x).taken == p.taken + Enqueue(s, Progress(p.queue, []), x).taken
  {
  }

  /** What one more instruction changes: the queue, and what is printed after the rest. */
  lemma {:induction false} FeedOneMore(s: Settings, stream: seq<Inst>, k: nat)
    requires k < |stream|
    ensures var p, q := Feed(s, stream[..k]), Feed(s, stream[..k + 1]);
            var r := Enqueue(s, Progress(p.queue, []), stream[k]);
            q.queue == r.queue && Filter(s, q.taken) == Filter(s, p.taken) + Filter(s, r.taken)
  {
    var p := Feed(s, stream[..k]);
    assert stream[..k + 1][..k] == stream[..k];
    EnqueueTakes(s, p, stream[k]);
    FilterConcat(s, p.taken, Enqueue(s, Progress(p.queue, []), stream[k]).taken);
  }

  lemma {:induction false} FlushTakes(s: Settings, p: Progress)
    ensures Filter(s, Drop(p, 0).taken) == Filter(s, p.taken) + Filter(s, Drop(Progress(p.queue, []), 0).taken)
    ensures Drop(p, 0).queue == [] && Drop(Progress(p.queue, []), 0).queue == []
  {
    DropTakes(p, 0);
    FilterConcat(s, p.taken, Drop(Progress(p.queue, []), 0).taken);
  }

  // ---- Nothing is lost or duplicated ----

  lemma {:induction false} DropKeepsAll(p: Progress, lower: nat)
    ensures multiset(Drop(p, lower).queue) + multiset(Drop(p, lower).taken) == multiset(p.queue) + multiset(p.taken)
    ensures |Drop(p, lower).queue| == if |p.queue| <= lower then |p.queue| else lower
  {
    var sorted := Sort(p.queue);
    SortContents(p.queue);
    var n := Excess(sorted, lower);
    assert sorted == sorted[..n] + sorted[n..];
  }

  lemma {:induction false} EnqueueKeepsAll(s: Settings, p: Progress, x: Inst)
    ensures var r := Enqueue(s, p, x);
      multiset(r.queue) + multiset(r.taken) == multiset(p.queue) + multiset(p.taken) + multiset{x}
  {
    DropKeepsAll(Progress(p.queue + [x], p.taken), s.minThreshold);
  }

  /** How often an instruction is queued or taken. */
  ghost function Count(p: Progress, x: Inst): nat {
    multiset(p.queue)[x] + multiset(p.taken)[x]
  }

  lemma {:induction false} EnqueueCounts(s: Settings, p: Progress, y: Inst, x: Inst)
    ensures Count(Enqueue(s, p, y), x) == Count(p, x) + (if x == y then 1 else 0)
  {
    EnqueueKeepsAll(s, p, y);
    var r := Enqueue(s, p, y);
    assert (multiset(r.queue) + multiset(r.taken))[x] == (multiset(p.queue) + multiset(p.taken) + multiset{y})[x];
  }

  lemma {:induction false} CountLast(q: seq<Inst>, x: Inst)
    requires q != []
    ensures multiset(q)[x] == multiset(q[..|q| - 1])[x] + (if x == q[|q| - 1] then 1 else 0)
  {
    assert q == q[..|q| - 1] + [q[|q| - 1]];
  }

  lemma {:induction false} FeedCounts(s: Settings, stream: seq<Inst>, x: Inst)
    ensures Count(Feed(s, stream), x) == multiset(stream)[x]
  {
    if stream != [] {
      var k := |stream| - 1;
      FeedCounts(s, stream[..k], x);
      EnqueueCounts(s, Feed(s, stream[..k]), stream[k], x);
      CountLast(stream, x);
    }
  }

  /** Whatever the order of arrival, every instruction is queued or taken, once. */
  lemma {:induction false} NothingLost(s: Settings, stream: seq<Inst>)
    ensures multiset(Feed(s, stream).queue) + multiset(Feed(s, stream).taken) == multiset(stream)
  {
    var p := Feed(s, stream);
    forall x
      ensures (multiset(p.queue) + multiset(p.taken))[x] == multiset(stream)[x]
    {
      FeedCounts(s, stream, x);
    }
  }

  /** The end of the trace takes everything. */
  lemma {:induction false} AllTakenAtEnd(s: Settings, stream: seq<Inst>)
    ensures multiset(Drop(Feed(s, stream), 0).taken) == multiset(stream)
  {
    NothingLost(s, stream);
    DropKeepsAll(Feed(s, stream), 0);
  }

  /** The queue never holds more than the maximum between instructions. */
  lemma {:induction false} QueueBounded(s: Settings, stream: seq<Inst>)
    requires s.minThreshold <= s.maxThreshold
    ensures |Feed(s, stream).queue| <= s.maxThreshold
  {
    if stream != [] {
      var k := |stream| - 1;
      QueueBounded(s, stream[..k]);
      var p := Feed(s, stream[..k]);
      DropKeepsAll(Progress(p.queue + [stream[k]], p.taken), s.minThreshold);
    }
  }

  // ---- A nearly sorted stream comes out sorted ----

  ghost predicate Distinct(q: seq<Inst>) {
    forall i, j :: 0 <= i < j < |q| ==> q[i].sn != q[j].sn
  }

  /** Instructions that were queued before the k-th and have a larger number. */
  ghost function Overtaken(stream: seq<Inst>, k: nat): set<int>
    requires k < |stream|
  {
    set i: nat | i < k && stream[i].sn > stream[k].sn :: stream[i].sn
  }

  /** No instruction is out of order by more than n places. */
  ghost predicate NearlySorted(stream: seq<Inst>, n: nat) {
    forall k: nat :: k < |stream| ==> |Overtaken(stream, k)| <= n
  }

  ghost function Numbers(q: seq<Inst>): set<int> {
    set x | x in q :: x.sn
  }

  lemma {:induction false} NumbersCount(q: seq<Inst>)
    requires Distinct(q)
    ensures |Numbers(q)| == |q|
  {
    if q != [] {
      var k := |q| - 1;
      NumbersCount(q[..k]);
      assert Numbers(q) == Numbers(q[..k]) + {q[k].sn};
      assert q[k].sn !in Numbers(q[..k]);
    }
  }

  lemma {:induction false} DistinctByContents(p: seq<Inst>, q: seq<Inst>)
    requires Distinct(p) && multiset(p) == multiset(q)
    ensures Distinct(q)
  {
    forall i, j | 0 <= i < j < |q|
      ensures q[i].sn != q[j].sn
    {
      if q[i].sn == q[j].sn {
        assert q[i] in multiset(p) && q[j] in multiset(p);
        AtMostOnce(p, q[i]);
        Twice(q, i, j);
        assert false;
      }
    }
  }

  lemma {:induction false} Twice(q: seq<Inst>, i: nat, j: nat)
    requires i < j < |q| && q[i] == q[j]
    ensures multiset(q)[q[i]] >= 2
  {
    assert q == q[..i] + [q[i]] + q[i + 1..j] + [q[j]] + q[j + 1..];
  }

  lemma {:induction false} AtMostOnce(p: seq<Inst>, x: Inst)
    requires Distinct(p)
    ensures multiset(p)[x] <= 1
  {
    if p != [] {
      var k := |p| - 1;
      AtMostOnce(p[..k], x);
      assert p == p[..k] + [p[k]];
      if p[k] == x {
        assert x !in p[..k];
      }
    }
  }

  /** Strictly increasing numbers. */
  ghost predicate Increasing(q: seq<Inst>) {
    forall i, j :: 0 <= i < j < |q| ==> q[i].sn < q[j].sn
  }

  lemma {:induction false} LastsAgree(p: seq<Inst>, q: seq<Inst>)
    requires Increasing(p) && Increasing(q) && (forall x :: x in p <==> x in q) && p != []
    ensures q != [] && p[|p| - 1] == q[|q| - 1]
  {
    var x := p[|p| - 1];
    assert x in p;
    var i :| 0 <= i < |q| && q[i] == x;
    var y := q[|q| - 1];
    assert y in q;
    var j :| 0 <= j < |p| && p[j] == y;
  }

  lemma {:induction false} IncreasingUnique(p: seq<Inst>, q: seq<Inst>)
    requires Increasing(p) && Increasing(q) && forall x :: x in p <==> x in q
    ensures p == q
  {
    if p == [] {
      if q != [] {
        LastsAgree(q, p);
      }
    } else {
      LastsAgree(p, q);
      var (k, l) := (|p| - 1, |q| - 1);
      SamePrefix(p, q, k, l);
      SamePrefix(q, p, l, k);
      IncreasingUnique(p[..k], q[..l]);
      assert p == p[..k] + [p[k]] && q == q[..l] + [q[l]];
    }
  }

  lemma {:induction false} SamePrefix(p: seq<Inst>, q: seq<Inst>, k: nat, l: nat)
    requires Increasing(p) && k == |p| - 1 && l == |q| - 1 && p[k] == q[l]
    requires forall x :: x in p ==> x in q
    ensures forall x :: x in p[..k] ==> x in q[..l]
  {
    forall x | x in p[..k]
      ensures x in q[..l]
    {
      var i :| 0 <= i < k && p[i] == x;
      assert x in p && x != q[l];
      assert q == q[..l] + [q[l]];
    }
  }

  // ---- The buffer at work ----

  /** Everything in the first list belongs before everything in the second. */
  ghost predicate AllBelow(taken: seq<Inst>, q: seq<Inst>) {
    forall i, j :: 0 <= i < |taken| && 0 <= j < |q| ==> taken[i].sn < q[j].sn
  }

  /** Taken instructions are in order, and nothing queued or still to come at
      position k or later belongs before them. */
  ghost predicate InStep(p: Progress, stream: seq<Inst>, k: nat)
    requires k <= |stream|
  {
    && multiset(p.queue) + multiset(p.taken) == multiset(stream[..k])
    && Increasing(p.taken) && AllBelow(p.taken, p.queue) && AllBelow(p.taken, stream[k..])
  }

  /** What is dropped from the queue when `lower` stay behind comes before any
      later instruction that has at most `lower` larger ones before it. */
  lemma {:induction false} DroppedIsBelow(q: seq<Inst>, lower: nat, stream: seq<Inst>, k: nat, j: nat, i: nat)
    requires Distinct(stream) && k <= j < |stream| && |Overtaken(stream, j)| <= lower
    requires InOrder(q) && Distinct(q) && forall x :: x in q ==> x in stream[..k]
    requires i < Excess(q, lower)
    ensures q[i].sn < stream[j].sn
  {
    if q[i].sn >= stream[j].sn {
      var above := q[i..];
      forall y | y in above
        ensures y.sn in Overtaken(stream, j)
      {
        var m :| 0 <= m < |above| && above[m] == y;
        assert y == q[i + m] && y in stream[..k];
        var a :| 0 <= a < k && stream[a] == y;
        assert stream[a].sn != stream[j].sn;
      }
      assert Numbers(above) <= Overtaken(stream, j);
      NumbersCount(above);
      SubsetSize(Numbers(above), Overtaken(stream, j));
      assert false;
    }
  }

  lemma {:induction false} SubsetSize(a: set<int>, b: set<int>)
    requires a <= b
    ensures |a| <= |b|
  {
    assert b == a + (b - a);
  }

  lemma {:induction false} SortedStrictly(q: seq<Inst>)
    requires Distinct(q)
    ensures Increasing(Sort(q)) && Distinct(Sort(q))
  {
    SortContents(q);
    SortInOrder(q);
    DistinctByContents(q, Sort(q));
  }

  lemma {:induction false} QueueIsDistinct(stream: seq<Inst>, queue: seq<Inst>, taken: seq<Inst>, k: nat)
    requires Distinct(stream) && k <= |stream| && multiset(queue) + multiset(taken) == multiset(stream[..k])
    ensures Distinct(queue) && forall x :: x in queue ==> x in stream[..k]
  {
    DistinctByContents(stream[..k], queue + taken);
    assert forall i :: 0 <= i < |queue| ==> (queue + taken)[i] == queue[i];
    forall x | x in queue
      ensures x in stream[..k]
    {
      assert x in multiset(queue) + multiset(taken);
    }
  }

  lemma {:induction false} MemberOfSort(q: seq<Inst>, x: Inst)
    ensures x in Sort(q) <==> x in q
  {
    SortContents(q);
    assert x in Sort(q) <==> x in multiset(Sort(q));
    assert x in q <==> x in multiset(q);
  }

  /** Dropping down to `lower` keeps everything in step. */
  lemma {:induction false} DropInStep(p: Progress, lower: nat, stream: seq<Inst>, k: nat)
    requires Distinct(stream) && k <= |stream| && InStep(p, stream, k)
    requires forall j: nat :: k <= j < |stream| ==> |Overtaken(stream, j)| <= lower
    ensures InStep(Drop(p, lower), stream, k)
  {
    var sorted := Sort(p.queue);
    var n := Excess(sorted, lower);
    QueueIsDistinct(stream, p.queue, p.taken, k);
    SortedStrictly(p.queue);
    SortInOrder(p.queue);
    DropKeepsAll(p, lower);
    forall i | 0 <= i < |sorted|
      ensures sorted[i] in p.queue
    {
      MemberOfSort(p.queue, sorted[i]);
    }
    TakenBelowSorted(p, sorted);
    var rest := stream[k..];
    forall i, j | 0 <= i < n && 0 <= j < |rest|
      ensures sorted[..n][i].sn < rest[j].sn
    {
      DroppedIsBelow(sorted, lower, stream, k, k + j, i);
    }
    CutBelow(p.taken, sorted, n, rest);
  }

  lemma {:induction false} CutBelow(taken: seq<Inst>, sorted: seq<Inst>, n: nat, rest: seq<Inst>)
    requires n <= |sorted| && Increasing(taken) && Increasing(sorted) && AllBelow(taken, sorted)
    requires AllBelow(taken, rest) && AllBelow(sorted[..n], rest)
    ensures Increasing(taken + sorted[..n]) && AllBelow(taken + sorted[..n], sorted[n..])
    ensures AllBelow(taken + sorted[..n], rest)
  {
    var all := taken + sorted[..n];
    forall i, j | 0 <= i < |all| && 0 <= j < |rest|
      ensures all[i].sn < rest[j].sn
    {
      if i >= |taken| {
        assert all[i] == sorted[..n][i - |taken|];
      }
    }
  }

  lemma {:induction false} TakenBelowSorted(p: Progress, sorted: seq<Inst>)
    requires AllBelow(p.taken, p.queue) && forall i :: 0 <= i < |sorted| ==> sorted[i] in p.queue
    ensures AllBelow(p.taken, sorted)
  {
    forall i, j | 0 <= i < |p.taken| && 0 <= j < |sorted|
      ensures p.taken[i].sn < sorted[j].sn
    {
      var m :| 0 <= m < |p.queue| && p.queue[m] == sorted[j];
    }
  }

  lemma {:induction false} QueuedInStep(p: Progress, stream: seq<Inst>, k: nat)
    requires k < |stream| && InStep(p, stream, k)
    ensures InStep(Progress(p.queue + [stream[k]], p.taken), stream, k + 1)
  {
    assert stream[..k + 1] == stream[..k] + [stream[k]];
    assert stream[k..] == [stream[k]] + stream[k + 1..];
  }

  lemma {:induction false} FeedInStep(s: Settings, stream: seq<Inst>, k: nat)
    requires Distinct(stream) && NearlySorted(stream, s.minThreshold) && k <= |stream|
    ensures InStep(Feed(s, stream[..k]), stream, k)
  {
    if k > 0 {
      FeedInStep(s, stream, k - 1);
      assert stream[..k][..k - 1] == stream[..k - 1];
      var p := Feed(s, stream[..k - 1]);
      QueuedInStep(p, stream, k - 1);
      DropInStep(Progress(p.queue + [stream[k - 1]], p.taken), s.minThreshold, stream, k);
    }
  }

  /** A stream in which no instruction is out of order by more than the minimum
      threshold is taken from the queue in sorted order, whatever the maximum. */
  lemma {:induction false} NearlySortedIsSorted(s: Settings, stream: seq<Inst>)
    requires Distinct(stream) && NearlySorted(stream, s.minThreshold)
    ensures Drop(Feed(s, stream), 0).taken == Sort(stream)
  {
    FeedInStep(s, stream, |stream|);
    assert stream[..|stream|] == stream;
    var all := Feed(s, stream);
    DropInStep(all, 0, stream, |stream|);
    AllTakenAtEnd(s, stream);
    SortedStrictly(stream);
    var out := Drop(all, 0).taken;
    forall x
      ensures x in out <==> x in Sort(stream)
    {
      MemberOfSort(stream, x);
      assert x in out <==> x in multiset(out);
      assert x in stream <==> x in multiset(stream);
    }
    IncreasingUnique(out, Sort(stream));
  }
}
