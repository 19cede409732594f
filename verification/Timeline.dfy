/** The timeline the O3 pipeline viewer draws for one instruction.

    Time is folded into lines of `width` cells of one cycle each.  An instruction
    that takes less than one line's time is drawn on a single line, wrapping
    around at its end; a longer one is drawn on several lines. */
module Timeline {
  import opened Grid

  // Stages, by position in the list of stages.
  const FETCH := 0
  const DISPATCH := 3
  const ISSUE := 4
  const RETIRE := 6

  function NameOf(stage: nat): string {
    match stage
    case 0 => "fetch"
    case 1 => "decode"
    case 2 => "rename"
    case 3 => "dispatch"
    case 4 => "issue"
    case 5 => "complete"
    case 6 => "retire"
    case _ => "store"
  }

  function Shorthand(stage: nat): char {
    match stage
    case 0 => 'f'
    case 1 => 'd'
    case 2 => 'n'
    case 3 => 'p'
    case 4 => 'i'
    case 5 => 'c'
    case 6 => 'r'
    case _ => 's'
  }

  /** Stage ticks, zero for a stage not reached; seven, or eight with store completion. */
  type Ticks = seq<nat>

  predicate IsTicks(t: Ticks) {
    7 <= |t| <= 8
  }

  /** The geometry of the drawing: cells per line and ticks per cell. */
  datatype Scale = Scale(width: nat, cycle: nat) {
    ghost predicate Valid() {
      width > 0 && cycle > 0
    }

    function Span(): nat {
      width * cycle
    }
  }

  lemma {:induction false} SpanPositive(s: Scale)
    requires s.Valid()
    ensures s.Span() > 0
  {
    ProductMonotone(1, s.width, s.cycle);
  }

  function LastTick(t: Ticks): nat {
    if t == [] then 0
    else
      var m := LastTick(t[..|t| - 1]);
      if t[|t| - 1] > m then t[|t| - 1] else m
  }

  function BaseTick(s: Scale, t: Ticks): nat
    requires s.Span() > 0 && IsTicks(t)
  {
    (t[FETCH] / s.Span()) * s.Span()
  }

  predicate Compact(s: Scale, t: Ticks)
    requires IsTicks(t)
  {
    LastTick(t) - t[FETCH] < s.Span()
  }

  function NumLines(s: Scale, t: Ticks): int
    requires s.Span() > 0 && IsTicks(t)
  {
    if Compact(s, t) then 1 else (LastTick(t) - BaseTick(s, t)) / s.Span() + 1
  }

  /** The tick range of line i. */
  predicate OnLine(s: Scale, t: Ticks, i: nat, tick: nat)
    requires s.Span() > 0 && IsTicks(t)
  {
    var start := BaseTick(s, t) + i * s.Span();
    var end := start + s.Span() + (if NumLines(s, t) == 1 then t[FETCH] - BaseTick(s, t) else 0);
    start <= tick < end
  }

  datatype Event = Event(offset: nat, stage: nat, tick: nat)

  function Column(s: Scale, e: Event): nat
    requires s.cycle > 0
  {
    e.offset / s.cycle
  }

  // ---- Where events fall ----

  /** Fetch happened, and every stage that was reached came no earlier. */
  ghost predicate Started(t: Ticks) {
    IsTicks(t) && t[FETCH] != 0 && forall k :: 0 <= k < |t| && t[k] != 0 ==> t[FETCH] <= t[k]
  }

  lemma {:induction false} LastTickBounds(t: Ticks, k: nat)
    requires k < |t|
    ensures t[k] <= LastTick(t)
  {
    if k < |t| - 1 {
      LastTickBounds(t[..|t| - 1], k);
    }
  }

  lemma {:induction false} BaseBounds(s: Scale, t: Ticks)
    requires s.Valid() && IsTicks(t)
    ensures s.Span() > 0 && BaseTick(s, t) <= t[FETCH] < BaseTick(s, t) + s.Span()
  {
    SpanPositive(s);
    var w := s.Span();
    assert t[FETCH] == (t[FETCH] / w) * w + t[FETCH] % w;
  }

  lemma {:induction false} QuotientAtLeast(x: nat, w: nat, q: nat)
    requires w > 0 && q * w <= x
    ensures q <= x / w
  {
    assert x == (x / w) * w + x % w;
    if x / w < q {
      ProductMonotone(x / w + 1, q, w);
      assert false;
    }
  }

  lemma {:induction false} QuotientWithin(x: nat, w: nat, i: nat)
    requires w > 0
    ensures i * w <= x < i * w + w <==> x / w == i
  {
    if i * w <= x < i * w + w {
      DivisionUnique(x, w, i, x - i * w);
    }
    assert x == (x / w) * w + x % w;
  }

  /** There is one line exactly when the drawing is compact. */
  lemma {:induction false} OneLineIffCompact(s: Scale, t: Ticks)
    requires s.Valid() && IsTicks(t)
    ensures s.Span() > 0 && NumLines(s, t) >= 1
    ensures NumLines(s, t) == 1 <==> Compact(s, t)
  {
    BaseBounds(s, t);
    LastTickBounds(t, FETCH);
    if !Compact(s, t) {
      QuotientAtLeast(LastTick(t) - BaseTick(s, t), s.Span(), 1);
    }
  }

  /** The line a tick is drawn on. */
  function LineOf(s: Scale, t: Ticks, tick: nat): int
    requires s.Span() > 0 && IsTicks(t)
  {
    if NumLines(s, t) == 1 then 0 else (tick - BaseTick(s, t)) / s.Span()
  }

  /** Every tick that was reached falls on exactly one of the lines. */
  lemma {:induction false} EveryTickOnOneLine(s: Scale, t: Ticks, k: nat)
    requires s.Valid() && Started(t) && k < |t| && t[k] != 0
    ensures s.Span() > 0 && 0 <= LineOf(s, t, t[k]) < NumLines(s, t)
    ensures forall i: nat :: i < NumLines(s, t) ==> (OnLine(s, t, i, t[k]) <==> i == LineOf(s, t, t[k]))
  {
    BaseBounds(s, t);
    OneLineIffCompact(s, t);
    LastTickBounds(t, k);
    var (w, b) := (s.Span(), BaseTick(s, t));
    if NumLines(s, t) == 1 {
      assert 0 * w == 0;
    } else {
      assert LastTick(t) - b == ((LastTick(t) - b) / w) * w + (LastTick(t) - b) % w;
      QuotientMonotone(t[k] - b, LastTick(t) - b, w);
      forall i: nat | i < NumLines(s, t)
        ensures OnLine(s, t, i, t[k]) <==> i == LineOf(s, t, t[k])
      {
        QuotientWithin(t[k] - b, w, i);
      }
    }
  }

  lemma {:induction false} QuotientMonotone(x: nat, y: nat, w: nat)
    requires w > 0 && x <= y
    ensures 0 <= x / w <= y / w
  {
    assert x == (x / w) * w + x % w;
    QuotientAtLeast(y, w, x / w);
  }

  /** A cell is always inside the line. */
  lemma {:induction false} ColumnInLine(s: Scale, e: Event)
    requires s.Valid() && e.offset < s.Span()
    ensures Column(s, e) < s.width
  {
    var c := e.offset / s.cycle;
    assert e.offset == c * s.cycle + e.offset % s.cycle;
    if s.width <= c {
      ProductMonotone(s.width, c, s.cycle);
      assert false;
    }
  }
}
