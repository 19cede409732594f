/** Drawing a line of marked cells from left to right. */
module CellDrawing {

  /** A letter to be drawn in a cell of the line. */
  datatype Mark = Mark(column: nat, letter: char)

  // ---- The reference drawing: cell by cell ----

  /** The first n cells, one after the other. */
  ghost function Join(cell: nat -> string, n: nat): string {
    if n == 0 then "" else Join(cell, n - 1) + cell(n - 1)
  }

  lemma {:induction false} JoinAgrees(f: nat -> string, g: nat -> string, n: nat)
    requires forall c: nat :: c < n ==> f(c) == g(c)
    ensures Join(f, n) == Join(g, n)
  {
    if n > 0 {
      JoinAgrees(f, g, n - 1);
    }
  }

  function Dots(n: int, dot: char): string {
    if n <= 0 then "" else Dots(n - 1, dot) + [dot]
  }

  lemma {:induction false} JoinDots(f: nat -> string, pos: nat, n: nat, dot: char)
    requires pos <= n && forall c: nat :: pos <= c < n ==> f(c) == [dot]
    ensures Join(f, n) == Join(f, pos) + Dots(n - pos, dot)
  {
    if pos < n {
      JoinDots(f, pos, n - 1, dot);
      assert f(n - 1) == [dot];
      assert (Join(f, pos) + Dots(n - 1 - pos, dot)) + [dot] == Join(f, pos) + (Dots(n - 1 - pos, dot) + [dot]);
    }
  }

  /** Joins of cells that differ only in cell c differ in length as that cell does. */
  lemma {:induction false} JoinLengths(f: nat -> string, g: nat -> string, n: nat, c: nat)
    requires c < n && forall b: nat :: b < n && b != c ==> f(b) == g(b)
    ensures |Join(g, n)| == |Join(f, n)| - |f(c)| + |g(c)|
  {
    if c < n - 1 {
      JoinLengths(f, g, n - 1, c);
    } else {
      JoinAgrees(f, g, n - 1);
    }
  }

  /** The letters in a cell, in drawing order. */
  ghost function Letters(ms: seq<Mark>, c: nat): string {
    if ms == [] then ""
    else
      var m := ms[|ms| - 1];
      Letters(ms[..|ms| - 1], c) + (if m.column == c then [m.letter] else "")
  }

  /** A cell without marks shows a dot. */
  ghost function Cell(ms: seq<Mark>, dot: char): nat -> string {
    (c: nat) => if Letters(ms, c) == "" then [dot] else Letters(ms, c)
  }

  ghost function Cells(ms: seq<Mark>, n: nat, dot: char): string {
    Join(Cell(ms, dot), n)
  }

  ghost predicate AllLeftOf(ms: seq<Mark>, c: nat) {
    forall k :: 0 <= k < |ms| ==> ms[k].column < c
  }

  lemma {:induction false} LettersStep(ms: seq<Mark>, m: Mark, c: nat)
    ensures Letters(ms + [m], c) == Letters(ms, c) + (if m.column == c then [m.letter] else "")
  {
    assert (ms + [m])[..|ms + [m]| - 1] == ms;
  }

  lemma {:induction false} LettersIff(ms: seq<Mark>, c: nat)
    ensures Letters(ms, c) != "" <==> exists j :: 0 <= j < |ms| && ms[j].column == c
  {
    if ms != [] {
      var last := |ms| - 1;
      LettersIff(ms[..last], c);
      if j :| 0 <= j < |ms| && ms[j].column == c {
        assert j < last ==> ms[..last][j] == ms[j];
      }
    }
  }

  lemma {:induction false} OtherCells(ms: seq<Mark>, m: Mark, c: nat, dot: char)
    ensures c != m.column ==> Cell(ms + [m], dot)(c) == Cell(ms, dot)(c)
    ensures c == m.column ==> Cell(ms + [m], dot)(c) == Letters(ms, c) + [m.letter]
  {
    LettersStep(ms, m, c);
  }

  /** A mark does not change the cells before its own. */
  lemma {:induction false} CellsBefore(ms: seq<Mark>, m: Mark, dot: char)
    ensures Cells(ms + [m], m.column, dot) == Cells(ms, m.column, dot)
  {
    forall c: nat | c < m.column
      ensures Cell(ms + [m], dot)(c) == Cell(ms, dot)(c)
    {
      OtherCells(ms, m, c, dot);
    }
    JoinAgrees(Cell(ms + [m], dot), Cell(ms, dot), m.column);
  }

  /** Past the last mark there are only dots. */
  lemma {:induction false} CellsAfter(ms: seq<Mark>, pos: nat, n: nat, dot: char)
    requires AllLeftOf(ms, pos) && pos <= n
    ensures Cells(ms, n, dot) == Cells(ms, pos, dot) + Dots(n - pos, dot)
  {
    forall c: nat | pos <= c < n
      ensures Cell(ms, dot)(c) == [dot]
    {
      LettersIff(ms, c);
    }
    JoinDots(Cell(ms, dot), pos, n, dot);
  }

  /** Where the drawing of some marks stops: one cell past the last of them. */
  ghost predicate EndsAt(ms: seq<Mark>, pos: nat) {
    AllLeftOf(ms, pos) && (pos > 0 ==> Letters(ms, pos - 1) != "")
  }

  lemma {:induction false} EndsAtMark(ms: seq<Mark>, m: Mark, pos: nat)
    requires AllLeftOf(ms, pos) && pos <= m.column + 1
    ensures EndsAt(ms + [m], m.column + 1)
  {
    LettersStep(ms, m, m.column);
  }

  lemma {:induction false} CellsUpToMark(ms: seq<Mark>, m: Mark, dot: char)
    ensures Cells(ms + [m], m.column + 1, dot) == Cells(ms, m.column, dot) + (Letters(ms, m.column) + [m.letter])
  {
    CellsBefore(ms, m, dot);
    OtherCells(ms, m, m.column, dot);
  }

  /** Drawing one more mark, in its own cell or in the cell just drawn. */
  lemma {:induction false} DrawMark(ms: seq<Mark>, m: Mark, pos: nat, dot: char)
    requires EndsAt(ms, pos) && pos <= m.column + 1
    ensures Cells(ms + [m], m.column + 1, dot) == Cells(ms, pos, dot) + Dots(m.column - pos, dot) + [m.letter]
  {
    CellsUpToMark(ms, m, dot);
    if pos <= m.column {
      CellsAfter(ms, pos, m.column, dot);
      LettersIff(ms, m.column);
    } else {
      DrawInSameCell(ms, m, pos, dot);
    }
  }

  lemma {:induction false} DrawInSameCell(ms: seq<Mark>, m: Mark, pos: nat, dot: char)
    requires EndsAt(ms, pos) && pos == m.column + 1
    ensures Cells(ms, m.column, dot) + (Letters(ms, m.column) + [m.letter])
         == Cells(ms, pos, dot) + Dots(m.column - pos, dot) + [m.letter]
  {
    assert Cells(ms, pos, dot) == Cells(ms, m.column, dot) + Letters(ms, m.column);
  }

  // ---- How long a line is ----

  /** The k-th mark shares its cell with an earlier one. */
  ghost predicate Shares(ms: seq<Mark>, k: nat)
    requires k < |ms|
  {
    exists j :: 0 <= j < k && ms[j].column == ms[k].column
  }

  ghost function SharedCount(ms: seq<Mark>): nat {
    if ms == [] then 0
    else SharedCount(ms[..|ms| - 1]) + (if Shares(ms, |ms| - 1) then 1 else 0)
  }

  lemma {:induction false} CellsOneMore(ms: seq<Mark>, m: Mark, n: nat, dot: char)
    requires m.column < n
    ensures |Cells(ms + [m], n, dot)| == |Cells(ms, n, dot)| + (if Letters(ms, m.column) != "" then 1 else 0)
  {
    forall c: nat
      ensures c != m.column ==> Cell(ms, dot)(c) == Cell(ms + [m], dot)(c)
    {
      OtherCells(ms, m, c, dot);
    }
    OtherCells(ms, m, m.column, dot);
    JoinLengths(Cell(ms, dot), Cell(ms + [m], dot), n, m.column);
  }

  /** A line is as long as it is wide, plus one for every mark that shares its
      cell with an earlier one. */
  lemma {:induction false} LineLength(ms: seq<Mark>, width: nat, dot: char)
    requires AllLeftOf(ms, width)
    ensures |Cells(ms, width, dot)| == width + SharedCount(ms)
  {
    if ms == [] {
      EmptyLineLength(width, dot);
    } else {
      var last := |ms| - 1;
      assert ms == ms[..last] + [ms[last]];
      LineLength(ms[..last], width, dot);
      CellsOneMore(ms[..last], ms[last], width, dot);
      LettersIff(ms[..last], ms[last].column);
      assert forall j :: 0 <= j < last ==> ms[..last][j] == ms[j];
    }
  }

  lemma {:induction false} EmptyLineLength(n: nat, dot: char)
    ensures |Cells([], n, dot)| == n
  {
    if n > 0 {
      EmptyLineLength(n - 1, dot);
    }
  }

  // ---- The drawing loop ----

  ghost predicate LeftToRight(ms: seq<Mark>) {
    forall i, j :: 0 <= i < j < |ms| ==> ms[i].column <= ms[j].column
  }

  lemma {:induction false} DrawNext(ms: seq<Mark>, k: nat, pos: nat, dot: char)
    requires LeftToRight(ms) && k < |ms| && EndsAt(ms[..k], pos) && pos == (if k == 0 then 0 else ms[k - 1].column + 1)
    ensures ms[k].column + 1 >= pos && EndsAt(ms[..k + 1], ms[k].column + 1)
    ensures Cells(ms[..k + 1], ms[k].column + 1, dot)
         == Cells(ms[..k], pos, dot) + Dots(ms[k].column - pos, dot) + [ms[k].letter]
  {
    assert ms[..k + 1] == ms[..k] + [ms[k]];
    DrawMark(ms[..k], ms[k], pos, dot);
    EndsAtMark(ms[..k], ms[k], pos);
  }

  /** Draws the marks in order, with dots between them and up to the width. */
  method Draw(ms: seq<Mark>, width: nat, dot: char) returns (text: string)
    requires LeftToRight(ms) && AllLeftOf(ms, width)
    ensures text == Cells(ms, width, dot)
  {
    text := "";
    var pos := 0;
    for k := 0 to |ms|
      invariant pos == (if k == 0 then 0 else ms[k - 1].column + 1)
      invariant EndsAt(ms[..k], pos) && text == Cells(ms[..k], pos, dot)
    {
      DrawNext(ms, k, pos, dot);
      text := text + Dots(ms[k].column - pos, dot);
      text := text + [ms[k].letter];
      pos := ms[k].column + 1;
    }
    assert ms[..|ms|] == ms;
    CellsAfter(ms, pos, width, dot);
    text := text + Dots(width - pos, dot);
  }
}
