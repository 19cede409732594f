/** Sets of copyright years, printed as ranges and read back. */
module CopyrightYears {
  import opened Results
  import opened Fields
  import opened YearText

  ghost predicate Ascending(years: seq<int>) {
    forall i, j :: 0 <= i < j < |years| ==> years[i] < years[j]
  }

  ghost predicate Within(run: Run, y: int) {
    run.0 <= y <= run.1
  }

  ghost predicate InSome(runs: seq<Run>, y: int) {
    exists i :: 0 <= i < |runs| && Within(runs[i], y)
  }

  /** The runs are ascending, disjoint, not adjacent, and cover exactly the years. */
  ghost predicate AreRuns(runs: seq<Run>, years: seq<int>) {
    && (forall i :: 0 <= i < |runs| ==> runs[i].0 <= runs[i].1)
    && (forall i, j :: 0 <= i < j < |runs| ==> runs[i].1 + 1 < runs[j].0)
    && forall y: int :: y in years <==> InSome(runs, y)
  }

  function Pieces(runs: seq<Run>): seq<string> {
    seq(|runs|, k requires 0 <= k < |runs| => Piece(runs[k]))
  }

  /** Prints the years; an empty list has no first element to start from. */
  method Datestr(years: seq<int>) returns (text: Option<string>, ghost runs: seq<Run>)
    requires Ascending(years)
    ensures text.None? <==> years == []
    ensures text.Some? ==> runs != [] && AreRuns(runs, years) && text.value == JoinOn(Pieces(runs), ',')
  {
    runs := [];
    if years == [] {
      return None, [];
    }
    var output: seq<string> := [];
    var first, second := years[0], years[0];
    assert years[..1] == [years[0]];
    OneYear(years[0]);
    for k := 1 to |years|
      invariant second == years[k - 1]
      invariant AreRuns(runs + [(first, second)], years[..k]) && output == Pieces(runs)
    {
      var next := years[k];
      assert years[..k + 1] == years[..k] + [next];
      if next == second + 1 {
        Extend(runs, first, second, years[..k]);
        second := next;
      } else {
        Begin(runs, first, second, years[..k], next);
        output := output + [Piece((first, second))];
        runs := runs + [(first, second)];
        first, second := next, next;
      }
    }
    assert years[..|years|] == years;
    output := output + [Piece((first, second))];
    runs := runs + [(first, second)];
    assert output == Pieces(runs);
    text := Some(JoinOn(output, ','));
  }

  lemma {:induction false} OneYear(y: int)
    ensures AreRuns([] + [(y, y)], [y])
  {
    var runs: seq<Run> := [] + [(y, y)];
    assert runs[0] == (y, y);
    assert Within(runs[0], y);
  }

  lemma {:induction false} Extend(runs: seq<Run>, first: int, second: int, years: seq<int>)
    requires AreRuns(runs + [(first, second)], years)
    ensures AreRuns(runs + [(first, second + 1)], years + [second + 1])
  {
    var a, b, n := runs + [(first, second)], runs + [(first, second + 1)], |runs|;
    assert a[n] == (first, second) && b[n] == (first, second + 1);
    assert forall i :: 0 <= i < n ==> a[i] == b[i];
    forall y: int
      ensures y in years + [second + 1] <==> InSome(b, y)
    {
      if InSome(a, y) {
        var i :| 0 <= i < |a| && Within(a[i], y);
        assert Within(b[i], y);
      }
      if y == second + 1 {
        assert Within(b[n], y);
      }
      if InSome(b, y) && y != second + 1 {
        var i :| 0 <= i < |b| && Within(b[i], y);
        assert Within(a[i], y);
      }
    }
  }

  lemma {:induction false} Begin(runs: seq<Run>, first: int, second: int, years: seq<int>, next: int)
    requires AreRuns(runs + [(first, second)], years) && second + 1 < next
    ensures AreRuns(runs + [(first, second)] + [(next, next)], years + [next])
  {
    var a, n := runs + [(first, second)], |runs|;
    var b := a + [(next, next)];
    assert a[n] == (first, second) && b[n] == a[n] && b[n + 1] == (next, next);
    assert forall i :: 0 <= i <= n ==> a[i] == b[i];
    forall y: int
      ensures y in years + [next] <==> InSome(b, y)
    {
      if InSome(a, y) {
        var i :| 0 <= i < |a| && Within(a[i], y);
        assert Within(b[i], y);
      }
      if y == next {
        assert Within(b[n + 1], y);
      }
      if InSome(b, y) && y != next {
        var i :| 0 <= i < |b| && Within(b[i], y);
        assert Within(a[i], y);
      }
    }
  }

  // ---- Reading ----

  function AllYears(pieces: seq<string>): set<int> {
    if pieces == [] then {} else AllYears(pieces[..|pieces| - 1]) + YearsOf(pieces[|pieces| - 1])
  }

  /** Adds the years of one piece; a piece that is neither a year nor a range is
      passed over. */
  method AddPiece(piece: string, output0: set<int>) returns (output: set<int>)
    ensures output == output0 + YearsOf(piece)
  {
    var date := Strip(piece);
    var range := MatchRange(date);
    output := output0;
    if range.Some? {
      var (f, l) := range.value;
      var i := f;
      while i < l + 1
        invariant f <= i && (i <= l + 1 || i == f)
        invariant output == output0 + Years(f, i - 1)
      {
        output := output + {i};
        i := i + 1;
      }
    } else {
      var year := ReadInt(date);
      if year.Some? {
        output := output + {year.value};
      }
    }
  }

  /** Reads a list of years and ranges. */
  method ProcessDates(text: string) returns (output: set<int>)
    ensures output == AllYears(SplitOn(text, ','))
  {
    var dates := SplitOn(text, ',');
    output := {};
    for k := 0 to |dates|
      invariant output == AllYears(dates[..k])
    {
      assert dates[..k + 1][..k] == dates[..k];
      output := AddPiece(dates[k], output);
    }
    assert dates[..|dates|] == dates;
  }

  lemma {:induction false} YearComesFrom(pieces: seq<string>, y: int) returns (i: nat)
    requires y in AllYears(pieces)
    ensures i < |pieces| && y in YearsOf(pieces[i])
  {
    var n := |pieces| - 1;
    if y in YearsOf(pieces[n]) {
      i := n;
    } else {
      i := YearComesFrom(pieces[..n], y);
      assert pieces[..n][i] == pieces[i];
    }
  }

  lemma {:induction false} YearIsAdded(pieces: seq<string>, i: nat, y: int)
    requires i < |pieces| && y in YearsOf(pieces[i])
    ensures y in AllYears(pieces)
  {
    var n := |pieces| - 1;
    if i < n {
      assert pieces[..n][i] == pieces[i];
      YearIsAdded(pieces[..n], i, y);
    }
  }

  // ---- Round trip ----

  /** Every year next to another one of the set has four digits. */
  ghost predicate NeighboursHaveFourDigits(years: seq<int>) {
    forall y: int :: y in years && y + 1 in years ==> 1000 <= y && y + 1 < 10000
  }

  ghost predicate ReadableRun(run: Run) {
    run.0 == run.1 || FourDigitRun(run)
  }

  lemma {:induction false} RunEnds(runs: seq<Run>, years: seq<int>, i: nat)
    requires AreRuns(runs, years) && i < |runs| && runs[i].0 < runs[i].1
    ensures runs[i].0 in years && runs[i].0 + 1 in years && runs[i].1 - 1 in years && runs[i].1 in years
  {
    var run := runs[i];
    assert Within(run, run.0) && Within(run, run.0 + 1) && Within(run, run.1 - 1) && Within(run, run.1);
    assert InSome(runs, run.0) && InSome(runs, run.0 + 1) && InSome(runs, run.1 - 1) && InSome(runs, run.1);
  }

  /** Years at most one apart lie in the same run. */
  lemma {:induction false} SameRun(runs: seq<Run>, years: seq<int>, i: nat, j: nat, x: int, y: int)
    requires AreRuns(runs, years) && i < |runs| && j < |runs| && Within(runs[i], x) && Within(runs[j], y)
    requires x <= y <= x + 1
    ensures i == j
  {
    assert !(i < j) && !(j < i);
  }

  /** Neighbouring years lie in one run. */
  lemma {:induction false} NeighboursInOneRun(runs: seq<Run>, years: seq<int>, y: int) returns (i: nat)
    requires AreRuns(runs, years) && y in years && y + 1 in years
    ensures i < |runs| && Within(runs[i], y) && Within(runs[i], y + 1)
  {
    assert InSome(runs, y) && InSome(runs, y + 1);
    i :| 0 <= i < |runs| && Within(runs[i], y);
    var j :| 0 <= j < |runs| && Within(runs[j], y + 1);
    SameRun(runs, years, i, j, y, y + 1);
  }

  lemma {:induction false} ReadableIff(runs: seq<Run>, years: seq<int>)
    requires AreRuns(runs, years)
    ensures NeighboursHaveFourDigits(years) <==> forall i :: 0 <= i < |runs| ==> ReadableRun(runs[i])
  {
    if NeighboursHaveFourDigits(years) {
      forall i | 0 <= i < |runs|
        ensures ReadableRun(runs[i])
      {
        if runs[i].0 < runs[i].1 {
          RunEnds(runs, years, i);
          assert runs[i].1 - 1 + 1 == runs[i].1;
        }
      }
    }
    if forall i :: 0 <= i < |runs| ==> ReadableRun(runs[i]) {
      forall y: int | y in years && y + 1 in years
        ensures 1000 <= y && y + 1 < 10000
      {
        var i := NeighboursInOneRun(runs, years, y);
        assert ReadableRun(runs[i]);
      }
    }
  }

  lemma {:induction false} SplitOfPieces(runs: seq<Run>)
    requires runs != []
    ensures SplitOn(JoinOn(Pieces(runs), ','), ',') == Pieces(runs)
  {
    forall k | 0 <= k < |runs|
      ensures ',' !in Pieces(runs)[k]
    {
      PieceText(runs[k]);
    }
    SplitOfJoin(Pieces(runs), ',');
  }

  /** A year is read back exactly if its run gives it. */
  lemma {:induction false} ReadFromOwnRun(runs: seq<Run>, years: seq<int>, i: nat, y: int)
    requires AreRuns(runs, years) && i < |runs| && Within(runs[i], y)
    ensures y in AllYears(Pieces(runs)) <==> y in YearsOf(Piece(runs[i]))
  {
    if y in AllYears(Pieces(runs)) {
      var j := YearComesFrom(Pieces(runs), y);
      PieceReadBack(runs[j]);
      SameRun(runs, years, i, j, y, y);
    } else if y in YearsOf(Piece(runs[i])) {
      YearIsAdded(Pieces(runs), i, y);
    }
  }

  lemma {:induction false} NothingElse(runs: seq<Run>, years: seq<int>, y: int)
    requires AreRuns(runs, years) && y in AllYears(Pieces(runs))
    ensures InSome(runs, y)
  {
    var j := YearComesFrom(Pieces(runs), y);
    PieceReadBack(runs[j]);
    assert Within(runs[j], y);
  }

  /** Years that are printed and read back are the same exactly if every year next
      to another one has four digits. */
  lemma {:induction false} DatesRoundTrip(runs: seq<Run>, years: seq<int>)
    requires AreRuns(runs, years) && runs != []
    ensures (forall y: int :: y in AllYears(SplitOn(JoinOn(Pieces(runs), ','), ',')) <==> y in years)
       <==> NeighboursHaveFourDigits(years)
  {
    SplitOfPieces(runs);
    ReadableIff(runs, years);
    var read := AllYears(Pieces(runs));
    if forall i :: 0 <= i < |runs| ==> ReadableRun(runs[i]) {
      forall y: int
        ensures y in read <==> y in years
      {
        AllRead(runs, years, y);
      }
    } else {
      var i :| 0 <= i < |runs| && !ReadableRun(runs[i]);
      RunEnds(runs, years, i);
      PieceReadBack(runs[i]);
      ReadFromOwnRun(runs, years, i, runs[i].1);
      assert runs[i].1 !in read && runs[i].1 in years;
    }
  }

  lemma {:induction false} AllRead(runs: seq<Run>, years: seq<int>, y: int)
    requires AreRuns(runs, years) && forall i :: 0 <= i < |runs| ==> ReadableRun(runs[i])
    ensures y in AllYears(Pieces(runs)) <==> y in years
  {
    if y in AllYears(Pieces(runs)) {
      NothingElse(runs, years, y);
    }
    if y in years {
      assert InSome(runs, y);
      var i :| 0 <= i < |runs| && Within(runs[i], y);
      ReadFromOwnRun(runs, years, i, y);
      PieceReadBack(runs[i]);
      assert ReadableRun(runs[i]);
    }
  }
}
