/** The characters between the brackets of one timeline line. */
module TimelineText {
  import opened Results
  import opened Sorting
  import opened Text
  import opened Timeline
  import opened CellDrawing

  // ---- The events of a line ----

  predicate Draws(s: Scale, t: Ticks, i: nat, k: nat)
    requires s.Span() > 0 && IsTicks(t) && k < |t|
  {
    t[k] != 0 && OnLine(s, t, i, t[k])
  }

  function EventOf(s: Scale, t: Ticks, k: nat): Event
    requires s.Span() > 0 && k < |t|
  {
    Event(t[k] % s.Span(), k, t[k])
  }

  predicate EventLess(e: Event, f: Event) {
    e.offset < f.offset || (e.offset == f.offset && StringLess(NameOf(e.stage), NameOf(f.stage)))
  }

  /** The events of line i among the first n stages, sorted. */
  ghost function LineEvents(s: Scale, t: Ticks, i: nat, n: nat): seq<Event>
    requires s.Span() > 0 && IsTicks(t) && n <= |t|
  {
    if n == 0 then []
    else if Draws(s, t, i, n - 1) then Insert(LineEvents(s, t, i, n - 1), EventOf(s, t, n - 1), EventLess)
    else LineEvents(s, t, i, n - 1)
  }

  /** Dispatch is not drawn when issue is at the same tick. */
  predicate Hidden(t: Ticks, e: Event)
    requires IsTicks(t)
  {
    e.stage == DISPATCH && t[DISPATCH] == t[ISSUE]
  }

  function MarkOf(s: Scale, e: Event): Mark
    requires s.cycle > 0
  {
    Mark(Column(s, e), Shorthand(e.stage))
  }

  /** The letters to be drawn for a list of events. */
  ghost function Marks(s: Scale, t: Ticks, evs: seq<Event>): seq<Mark>
    requires IsTicks(t) && s.cycle > 0
  {
    if evs == [] then []
    else
      var e := evs[|evs| - 1];
      Marks(s, t, evs[..|evs| - 1]) + (if Hidden(t, e) then [] else [MarkOf(s, e)])
  }

  ghost predicate ByOffset(evs: seq<Event>) {
    forall i, j :: 0 <= i < j < |evs| ==> evs[i].offset <= evs[j].offset
  }

  lemma {:induction false} InsertMembers(evs: seq<Event>, e: Event, f: Event)
    ensures f in Insert(evs, e, EventLess) <==> f in evs || f == e
  {
    InsertContents(evs, e, EventLess);
    assert f in Insert(evs, e, EventLess) <==> f in multiset(Insert(evs, e, EventLess));
  }

  lemma {:induction false} InsertByOffset(evs: seq<Event>, e: Event)
    requires ByOffset(evs)
    ensures ByOffset(Insert(evs, e, EventLess))
  {
    if !(evs == [] || !EventLess(e, evs[|evs| - 1])) {
      var last := |evs| - 1;
      var r := Insert(evs[..last], e, EventLess);
      InsertByOffset(evs[..last], e);
      forall i | 0 <= i < |r|
        ensures r[i].offset <= evs[last].offset
      {
        InsertMembers(evs[..last], e, r[i]);
      }
    }
  }

  /** The events of a line are its drawn stages, each once by construction, in
      order of their place on the line. */
  lemma {:induction false} LineEventsMembers(s: Scale, t: Ticks, i: nat, n: nat, f: Event)
    requires s.Span() > 0 && IsTicks(t) && n <= |t|
    ensures f in LineEvents(s, t, i, n) <==> exists k :: 0 <= k < n && Draws(s, t, i, k) && f == EventOf(s, t, k)
  {
    if n > 0 {
      LineEventsMembers(s, t, i, n - 1, f);
      if Draws(s, t, i, n - 1) {
        InsertMembers(LineEvents(s, t, i, n - 1), EventOf(s, t, n - 1), f);
      }
    }
  }

  lemma {:induction false} LineEventsByOffset(s: Scale, t: Ticks, i: nat, n: nat)
    requires s.Span() > 0 && IsTicks(t) && n <= |t|
    ensures ByOffset(LineEvents(s, t, i, n))
  {
    if n > 0 {
      LineEventsByOffset(s, t, i, n - 1);
      if Draws(s, t, i, n - 1) {
        InsertByOffset(LineEvents(s, t, i, n - 1), EventOf(s, t, n - 1));
      }
    }
  }

  lemma {:induction false} MarksMembers(s: Scale, t: Ticks, evs: seq<Event>, m: Mark)
    requires IsTicks(t) && s.cycle > 0
    ensures m in Marks(s, t, evs) <==> exists e :: e in evs && !Hidden(t, e) && m == MarkOf(s, e)
  {
    if evs != [] {
      MarksMembers(s, t, evs[..|evs| - 1], m);
      assert evs == evs[..|evs| - 1] + [evs[|evs| - 1]];
    }
  }

  lemma {:induction false} OffsetsGiveColumns(s: Scale, e: Event, f: Event)
    requires s.cycle > 0 && e.offset <= f.offset
    ensures Column(s, e) <= Column(s, f)
  {
    QuotientMonotone(e.offset, f.offset, s.cycle);
  }

  lemma {:induction false} MarksLeftToRight(s: Scale, t: Ticks, evs: seq<Event>)
    requires IsTicks(t) && s.cycle > 0 && ByOffset(evs)
    ensures LeftToRight(Marks(s, t, evs))
  {
    if evs != [] {
      var last := |evs| - 1;
      MarksLeftToRight(s, t, evs[..last]);
      var ms := Marks(s, t, evs[..last]);
      forall i | 0 <= i < |ms|
        ensures ms[i].column <= Column(s, evs[last])
      {
        MarksMembers(s, t, evs[..last], ms[i]);
        var e :| e in evs[..last] && !Hidden(t, e) && ms[i] == MarkOf(s, e);
        OffsetsGiveColumns(s, e, evs[last]);
      }
    }
  }

  lemma {:induction false} MarksInLine(s: Scale, t: Ticks, i: nat)
    requires s.Valid() && s.Span() > 0 && IsTicks(t)
    ensures AllLeftOf(Marks(s, t, LineEvents(s, t, i, |t|)), s.width)
  {
    var evs := LineEvents(s, t, i, |t|);
    var ms := Marks(s, t, evs);
    forall k | 0 <= k < |ms|
      ensures ms[k].column < s.width
    {
      MarksMembers(s, t, evs, ms[k]);
      var e :| e in evs && !Hidden(t, e) && ms[k] == MarkOf(s, e);
      LineEventsMembers(s, t, i, |t|, e);
      ColumnInLine(s, e);
    }
  }

  // ---- The text of a line ----

  /** Completed and abandoned instructions are told apart by their dots. */
  function DotFor(t: Ticks): char
    requires IsTicks(t)
  {
    if t[RETIRE] == 0 then '=' else '.'
  }

  ghost function LineText(s: Scale, t: Ticks, i: nat): string
    requires s.Valid() && s.Span() > 0 && IsTicks(t)
  {
    Cells(Marks(s, t, LineEvents(s, t, i, |t|)), s.width, DotFor(t))
  }

  method CollectEvents(s: Scale, t: Ticks, i: nat) returns (evs: seq<Event>)
    requires s.Span() > 0 && IsTicks(t)
    ensures evs == LineEvents(s, t, i, |t|)
  {
    evs := [];
    for k := 0 to |t|
      invariant evs == LineEvents(s, t, i, k)
    {
      if t[k] != 0 && OnLine(s, t, i, t[k]) {
        evs := Insert(evs, Event(t[k] % s.Span(), k, t[k]), EventLess);
      }
    }
  }

  method RenderLine(s: Scale, t: Ticks, i: nat, evs: seq<Event>) returns (text: string)
    requires s.Valid() && s.Span() > 0 && IsTicks(t) && evs == LineEvents(s, t, i, |t|)
    ensures text == LineText(s, t, i)
  {
    var marks := [];
    for k := 0 to |evs|
      invariant marks == Marks(s, t, evs[..k])
    {
      assert evs[..k + 1][..k] == evs[..k];
      if evs[k].stage == DISPATCH && t[DISPATCH] == t[ISSUE] {
        continue;
      }
      marks := marks + [MarkOf(s, evs[k])];
    }
    assert evs[..|evs|] == evs;
    LineEventsByOffset(s, t, i, |t|);
    MarksLeftToRight(s, t, evs);
    MarksInLine(s, t, i);
    text := Draw(marks, s.width, DotFor(t));
  }

  datatype PrintError = NoEvents

  /** No stage was reached. */
  ghost predicate AllZero(t: Ticks) {
    forall k :: 0 <= k < |t| ==> t[k] == 0
  }

  ghost predicate NothingToDraw(s: Scale, t: Ticks)
    requires s.Valid() && IsTicks(t) && s.Span() > 0
  {
    NumLines(s, t) == 1 && LineEvents(s, t, 0, |t|) == []
  }

  /** Only an instruction that reached no stage has a compact drawing without events. */
  lemma {:induction false} NoEventsIff(s: Scale, t: Ticks)
    requires s.Valid() && IsTicks(t) && s.Span() > 0
    ensures NothingToDraw(s, t) <==> AllZero(t)
  {
    OneLineIffCompact(s, t);
    if AllZero(t) {
      LastOfZeros(t);
      if LineEvents(s, t, 0, |t|) != [] {
        LineEventsMembers(s, t, 0, |t|, LineEvents(s, t, 0, |t|)[0]);
      }
    } else if t[FETCH] != 0 {
      FetchedIsPrinted(s, t);
    } else if Compact(s, t) {
      var k :| 0 <= k < |t| && t[k] != 0;
      LastTickBounds(t, k);
      assert Draws(s, t, 0, k);
      LineEventsMembers(s, t, 0, |t|, EventOf(s, t, k));
    }
  }

  lemma {:induction false} LastOfZeros(t: Ticks)
    requires AllZero(t)
    ensures LastTick(t) == 0
  {
    if t != [] {
      LastOfZeros(t[..|t| - 1]);
    }
  }

  /** The fetch of an instruction is always on its first line. */
  lemma {:induction false} FetchedIsPrinted(s: Scale, t: Ticks)
    requires s.Valid() && IsTicks(t) && t[FETCH] != 0
    ensures s.Span() > 0 && EventOf(s, t, FETCH) in LineEvents(s, t, 0, |t|)
  {
    BaseBounds(s, t);
    assert Draws(s, t, 0, FETCH);
    LineEventsMembers(s, t, 0, |t|, EventOf(s, t, FETCH));
  }

  /** Draws all lines of an instruction.  A compact drawing looks at its first
      event, and fails if there is none: exactly if no stage was reached. */
  method PrintInst(s: Scale, t: Ticks) returns (r: Result<seq<string>, PrintError>)
    requires s.Valid() && IsTicks(t)
    ensures s.Span() > 0
    ensures r.Err? <==> AllZero(t)
    ensures r.Ok? ==> |r.value| == NumLines(s, t) && forall i :: 0 <= i < |r.value| ==> r.value[i] == LineText(s, t, i)
  {
    OneLineIffCompact(s, t);
    NoEventsIff(s, t);
    var numLines := NumLines(s, t);
    var lines := [];
    for i := 0 to numLines
      invariant |lines| == i && forall k :: 0 <= k < i ==> lines[k] == LineText(s, t, k)
      invariant i > 0 ==> !NothingToDraw(s, t)
    {
      var evs := CollectEvents(s, t, i);
      if numLines == 1 && evs == [] {
        return Err(NoEvents);
      }
      var text := RenderLine(s, t, i, evs);
      lines := lines + [text];
    }
    return Ok(lines);
  }

  // ---- What the drawing shows ----

  /** Every stage that was reached and is not hidden has its letter on exactly
      one line, in the cell of its tick. */
  lemma {:induction false} StageIsDrawn(s: Scale, t: Ticks, k: nat)
    requires s.Valid() && Started(t) && k < |t| && t[k] != 0 && !Hidden(t, EventOf(s, t, k))
    ensures s.Span() > 0 && 0 <= LineOf(s, t, t[k]) < NumLines(s, t)
    ensures MarkOf(s, EventOf(s, t, k)) in Marks(s, t, LineEvents(s, t, LineOf(s, t, t[k]), |t|))
    ensures MarkOf(s, EventOf(s, t, k)).column == (t[k] % s.Span()) / s.cycle < s.width
    ensures forall i: nat :: i < NumLines(s, t) && i != LineOf(s, t, t[k]) ==>
              EventOf(s, t, k) !in LineEvents(s, t, i, |t|)
  {
    EveryTickOnOneLine(s, t, k);
    var (e, line) := (EventOf(s, t, k), LineOf(s, t, t[k]));
    var evs := LineEvents(s, t, line, |t|);
    assert Draws(s, t, line, k);
    LineEventsMembers(s, t, line, |t|, e);
    MarksMembers(s, t, evs, MarkOf(s, e));
    ColumnInLine(s, e);
    forall i: nat | i < NumLines(s, t) && i != line
      ensures e !in LineEvents(s, t, i, |t|)
    {
      LineEventsMembers(s, t, i, |t|, e);
    }
  }

  /** The visible length of every line. */
  lemma {:induction false} TextLength(s: Scale, t: Ticks, i: nat)
    requires s.Valid() && s.Span() > 0 && IsTicks(t)
    ensures |LineText(s, t, i)| == s.width + SharedCount(Marks(s, t, LineEvents(s, t, i, |t|)))
  {
    MarksInLine(s, t, i);
    LineLength(Marks(s, t, LineEvents(s, t, i, |t|)), s.width, DotFor(t));
  }
}
