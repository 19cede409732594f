/** Text cut at a separator and put together again. */
module Fields {
  import opened Results
  import opened Numerals
  import opened Words

  /** The parts of s between separators; there is always at least one. */
  function SplitOn(s: string, c: char): (parts: seq<string>)
    ensures |parts| >= 1
  {
    if s == [] then [[]]
    else
      var rest := SplitOn(s[1..], c);
      if s[0] == c then [[]] + rest else [[s[0]] + rest[0]] + rest[1..]
  }

  /** The parts, each but the first after a separator. */
  function JoinOn(parts: seq<string>, c: char): string
    requires |parts| >= 1
  {
    parts[0] + Tail(parts[1..], c)
  }

  /** Each part after a separator. */
  function Tail(parts: seq<string>, c: char): string {
    if parts == [] then [] else [c] + parts[0] + Tail(parts[1..], c)
  }

  lemma {:induction false} SplitFirst(a: string, s: string, c: char)
    requires c !in a
    ensures SplitOn(a + s, c) == [a + SplitOn(s, c)[0]] + SplitOn(s, c)[1..]
  {
    if a == [] {
      assert a + s == s;
      assert a + SplitOn(s, c)[0] == SplitOn(s, c)[0];
    } else {
      SplitFirst(a[1..], s, c);
      assert (a + s)[1..] == a[1..] + s && (a + s)[0] == a[0];
      var rest := SplitOn(a[1..] + s, c);
      assert [a[0]] + rest[0] == a + SplitOn(s, c)[0];
      assert rest[1..] == SplitOn(s, c)[1..];
    }
  }

  lemma {:induction false} SplitOfTail(parts: seq<string>, c: char)
    requires forall k :: 0 <= k < |parts| ==> c !in parts[k]
    ensures SplitOn(Tail(parts, c), c) == [[]] + parts
  {
    if parts != [] {
      var rest := Tail(parts[1..], c);
      SplitOfTail(parts[1..], c);
      SplitFirst(parts[0], rest, c);
      assert Tail(parts, c)[1..] == parts[0] + rest;
      assert parts[0] + SplitOn(rest, c)[0] == parts[0];
      assert SplitOn(rest, c)[1..] == parts[1..];
      assert [parts[0]] + parts[1..] == parts;
    }
  }

  /** Splitting undoes joining when no part holds the separator. */
  lemma {:induction false} SplitOfJoin(parts: seq<string>, c: char)
    requires |parts| >= 1 && forall k :: 0 <= k < |parts| ==> c !in parts[k]
    ensures SplitOn(JoinOn(parts, c), c) == parts
  {
    var rest := Tail(parts[1..], c);
    SplitOfTail(parts[1..], c);
    SplitFirst(parts[0], rest, c);
    assert parts[0] + SplitOn(rest, c)[0] == parts[0];
    assert SplitOn(rest, c)[1..] == parts[1..];
    assert [parts[0]] + parts[1..] == parts;
  }

  lemma {:induction false} TailLacks(parts: seq<string>, c: char, d: char)
    requires c != d && forall k :: 0 <= k < |parts| ==> d !in parts[k]
    ensures d !in Tail(parts, c)
  {
    if parts != [] {
      TailLacks(parts[1..], c, d);
    }
  }

  lemma {:induction false} TailAppend(parts: seq<string>, part: string, c: char)
    ensures Tail(parts + [part], c) == Tail(parts, c) + [c] + part
  {
    if parts == [] {
      assert parts + [part] == [part];
    } else {
      TailAppend(parts[1..], part, c);
      assert (parts + [part])[1..] == parts[1..] + [part];
    }
  }

  // ---- White space at the ends ----

  function StripFront(s: string): string {
    if s != [] && IsSpace(s[0]) then StripFront(s[1..]) else s
  }

  function StripBack(s: string): string {
    if s != [] && IsSpace(s[|s| - 1]) then StripBack(s[..|s| - 1]) else s
  }

  function Strip(s: string): string {
    StripBack(StripFront(s))
  }

  /** Neither end is white space. */
  predicate Trimmed(s: string) {
    s != [] ==> !IsSpace(s[0]) && !IsSpace(s[|s| - 1])
  }

  lemma {:induction false} StripOfLine(s: string)
    requires Trimmed(s)
    ensures Strip(s) == s && Strip(s + "\n") == s
  {
    if s == [] {
      assert s + "\n" == "\n" && StripFront("\n") == [] && StripBack([]) == [];
    } else {
      assert StripFront(s + "\n") == s + "\n";
      assert (s + "\n")[..|s|] == s;
      assert StripBack(s) == s;
    }
  }

  // ---- Numbers in text ----

  /** Digits, with or without a sign and blanks behind the sign. */
  function ReadSigned(s: string): Option<int> {
    var signed := s != [] && (s[0] == '+' || s[0] == '-');
    var digits := if signed then StripFront(s[1..]) else s;
    if digits == [] || !AllDigits(digits) then None
    else if s[0] == '-' then Some(0 - Value(digits))
    else Some(Value(digits) as int)
  }

  /** What Python 2 takes for an int. */
  function ReadInt(s: string): Option<int> {
    ReadSigned(Strip(s))
  }

  /** What it takes for a long, which may end in the letter L. */
  function ReadLong(s: string): Option<int> {
    var t := Strip(s);
    if t != [] && (t[|t| - 1] == 'L' || t[|t| - 1] == 'l') then ReadSigned(t[..|t| - 1]) else ReadSigned(t)
  }

  lemma {:induction false} ReadOfDigits(s: string)
    requires s != [] && AllDigits(s)
    ensures Trimmed(s) && ReadInt(s) == ReadLong(s) == Some(Value(s) as int)
  {
    StripOfLine(s);
  }
}
