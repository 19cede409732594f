/** Years and ranges of years as text: what one printed piece is read back as. */
module YearText {
  import opened Results
  import opened Numerals
  import opened Fields

  /** A stretch of years, both ends included. */
  type Run = (int, int)

  function ShowInt(n: int): string {
    if n < 0 then "-" + Show(-n) else Show(n)
  }

  function Piece(run: Run): string {
    if run.0 == run.1 then ShowInt(run.0) else ShowInt(run.0) + "-" + ShowInt(run.1)
  }

  /** Four digits, a dash that may have blanks around it, and four digits, at the
      start of the text. */
  function MatchRange(s: string): Option<Run> {
    if |s| < 4 || !AllDigits(s[..4]) then None
    else
      var t := StripFront(s[4..]);
      if t == [] || t[0] != '-' then None
      else
        var u := StripFront(t[1..]);
        if |u| < 4 || !AllDigits(u[..4]) then None else Some((Value(s[..4]), Value(u[..4])))
  }

  /** The years from lo to hi, both included. */
  function Years(lo: int, hi: int): (r: set<int>)
    ensures forall y :: y in r <==> lo <= y <= hi
    decreases hi - lo
  {
    if lo > hi then {} else Years(lo, hi - 1) + {hi}
  }

  /** The years one piece of text gives; other text gives none. */
  function YearsOf(piece: string): set<int> {
    var s := Strip(piece);
    var range := MatchRange(s);
    if range.Some? then Years(range.value.0, range.value.1)
    else
      var year := ReadInt(s);
      if year.Some? then {year.value} else {}
  }

  // ---- Widths of numerals ----

  lemma {:induction false} WidthStep(n: nat, w: nat)
    requires w >= 1
    ensures |Show(n)| <= w + 1 <==> |Show(n / 10)| <= w
  {
    if n < 10 {
      assert n / 10 == 0;
    }
  }

  lemma {:induction false} FourDigits(n: nat)
    ensures |Show(n)| <= 3 <==> n < 1000
    ensures |Show(n)| <= 4 <==> n < 10000
  {
    WidthStep(n, 2);
    WidthStep(n, 3);
    WidthStep(n / 10, 1);
    WidthStep(n / 10, 2);
    WidthStep(n / 100, 1);
    assert n / 10 / 10 == n / 100 && n / 100 / 10 == n / 1000;
    ShowShort(n / 100);
    ShowShort(n / 1000);
  }

  lemma {:induction false} ShowShort(n: nat)
    ensures |Show(n)| <= 1 <==> n < 10
  {
    if n >= 10 {
      ValueOfShow(n / 10);
    }
  }

  lemma {:induction false} FourDigitValue(s: string)
    requires |s| == 4 && AllDigits(s)
    ensures Value(s) < 10000
  {
    var a, b, c := s[..3], s[..2], s[..1];
    assert a[..2] == b && b[..1] == c && c[..0] == [];
    assert Value(c) < 10;
    assert Value(b) < 100;
    assert Value(a) < 1000;
  }

  // ---- Reading a piece back ----

  ghost predicate YearChar(c: char) {
    IsDigit(c) || c == '-'
  }

  lemma {:induction false} NegativeRead(digits: string)
    requires digits != [] && AllDigits(digits)
    ensures ReadInt("-" + digits) == Some(0 - Value(digits))
  {
    var s := "-" + digits;
    StripOfLine(s);
    assert s[1..] == digits && StripFront(digits) == digits;
  }

  lemma {:induction false} ShowIntRead(n: int)
    ensures ReadInt(ShowInt(n)) == Some(n)
  {
    if n < 0 {
      ValueOfShow(-n);
      NegativeRead(Show(-n));
    } else {
      ValueOfShow(n);
      ReadOfDigits(Show(n));
    }
  }

  lemma {:induction false} ShowIntText(n: int)
    ensures ShowInt(n) != [] && forall c :: c in ShowInt(n) ==> YearChar(c)
    ensures IsDigit(ShowInt(n)[0]) || (|ShowInt(n)| > 1 && ShowInt(n)[0] == '-' && IsDigit(ShowInt(n)[1]))
  {
    ValueOfShow(if n < 0 then -n else n);
  }

  /** A dash behind a digit makes the text no number. */
  lemma {:induction false} InnerDash(s: string, k: nat)
    requires 0 < k < |s| && Strip(s) == s && s[k] == '-'
    requires IsDigit(s[0]) || (s[0] == '-' && IsDigit(s[1]))
    ensures ReadInt(s) == None
  {
    if s[0] == '-' {
      assert s[1..][k - 1] == '-' && StripFront(s[1..]) == s[1..];
    }
  }

  lemma {:induction false} PieceText(run: Run)
    ensures Strip(Piece(run)) == Piece(run) && ',' !in Piece(run)
  {
    var s := Piece(run);
    assert s != [] && forall c :: c in s ==> YearChar(c) by {
      ShowIntText(run.0);
      ShowIntText(run.1);
    }
    assert s[0] in s && s[|s| - 1] in s;
    StripOfLine(s);
  }

  lemma {:induction false} DigitsAreNoRange(s: string)
    requires AllDigits(s)
    ensures MatchRange(s) == None
  {
    if |s| > 4 {
      assert s[4..][0] == s[4];
    }
  }

  /** Text with a sign in front is no range. */
  lemma {:induction false} SignIsNoRange(s: string)
    requires s != [] && s[0] == '-'
    ensures MatchRange(s) == None
  {
    if |s| >= 4 {
      assert s[..4][0] == s[0];
    }
  }

  lemma {:induction false} SingleYear(y: int)
    ensures YearsOf(Piece((y, y))) == {y}
  {
    PieceText((y, y));
    ShowIntText(y);
    ShowIntRead(y);
    if y < 0 {
      SignIsNoRange(ShowInt(y));
    } else {
      ValueOfShow(y);
      DigitsAreNoRange(Show(y));
    }
  }

  lemma {:induction false} DashIsNoInt(a: int, b: int)
    requires a != b
    ensures ReadInt(Piece((a, b))) == None
  {
    var s, k := Piece((a, b)), |ShowInt(a)|;
    PieceText((a, b));
    ShowIntText(a);
    assert s[k] == '-' && s[0] == ShowInt(a)[0];
    assert k > 1 ==> s[1] == ShowInt(a)[1];
    InnerDash(s, k);
  }

  /** A first year of more or less than four digits: nothing is read. */
  lemma {:induction false} WrongWidthFirst(a: nat, t: string)
    requires |Show(a)| != 4
    ensures MatchRange(Show(a) + "-" + t) == None
  {
    var s := Show(a) + "-" + t;
    ValueOfShow(a);
    if |Show(a)| < 4 {
      assert |s| >= 4 ==> s[..4][|Show(a)|] == '-';
    } else {
      assert s[4] == Show(a)[4] && s[4..][0] == s[4];
    }
  }

  /** A first year of four digits: the first four digits of the last year are read. */
  lemma {:induction false} RightWidthFirst(a: nat, b: nat)
    requires |Show(a)| == 4 && a < b
    ensures |Show(b)| >= 4 && AllDigits(Show(b)[..4])
    ensures MatchRange(Show(a) + "-" + Show(b)) == Some((a as int, Value(Show(b)[..4]) as int))
  {
    var s := Show(a) + "-" + Show(b);
    ValueOfShow(a);
    ValueOfShow(b);
    ShowWidens(a, b);
    assert s[..4] == Show(a);
    var t := s[4..];
    assert t == "-" + Show(b) && t[1..] == Show(b);
    assert StripFront(t) == t;
    assert StripFront(Show(b)) == Show(b);
  }

  ghost predicate FourDigitRun(run: Run) {
    1000 <= run.0 && run.1 < 10000
  }

  /** A first year without four digits, a sign included: the text gives no year. */
  lemma {:induction false} NothingRead(a: int, b: int)
    requires a < b && (a < 0 || |Show(a)| != 4)
    ensures YearsOf(Piece((a, b))) == {}
  {
    PieceText((a, b));
    DashIsNoInt(a, b);
    if a < 0 {
      SignIsNoRange(Piece((a, b)));
    } else {
      WrongWidthFirst(a, ShowInt(b));
    }
  }

  /** A first year of four digits. */
  lemma {:induction false} SomethingRead(a: nat, b: nat)
    requires a < b && |Show(a)| == 4
    ensures |Show(b)| >= 4 && AllDigits(Show(b)[..4])
    ensures YearsOf(Piece((a, b))) == Years(a, Value(Show(b)[..4]))
  {
    PieceText((a, b));
    RightWidthFirst(a, b);
  }

  /** What a printed range of years is read back as: itself if both years have
      four digits, and otherwise some of its years without the last. */
  lemma {:induction false} RangeReadBack(a: int, b: int)
    requires a < b
    ensures FourDigitRun((a, b)) ==> YearsOf(Piece((a, b))) == Years(a, b)
    ensures !FourDigitRun((a, b)) ==> YearsOf(Piece((a, b))) <= Years(a, b) && b !in YearsOf(Piece((a, b)))
  {
    if a >= 0 {
      FourDigits(a);
      FourDigits(b);
    }
    if a < 0 || |Show(a)| != 4 {
      NothingRead(a, b);
    } else {
      SomethingRead(a, b);
      ValueOfShow(b);
      if |Show(b)| == 4 {
        assert Show(b)[..4] == Show(b);
      } else {
        FourDigitValue(Show(b)[..4]);
      }
    }
  }

  /** Every printed run is read back as some of its years; as all of them exactly
      if it is a single year or has four-digit ends. */
  lemma {:induction false} PieceReadBack(run: Run)
    requires run.0 <= run.1
    ensures YearsOf(Piece(run)) <= Years(run.0, run.1)
    ensures YearsOf(Piece(run)) == Years(run.0, run.1) <==> run.0 == run.1 || FourDigitRun(run)
    ensures run.1 in YearsOf(Piece(run)) <==> run.0 == run.1 || FourDigitRun(run)
  {
    if run.0 == run.1 {
      SingleYear(run.0);
      assert Years(run.0, run.1) == {run.0};
    } else {
      RangeReadBack(run.0, run.1);
    }
  }
}
