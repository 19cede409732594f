/** Files of lines, and reading every line of one. */
module LineFile {
  import opened Results
  import opened Fields

  /** Each line followed by its line end. */
  function Unlines(ls: seq<string>): string {
    if ls == [] then [] else Unlines(ls[..|ls| - 1]) + (ls[|ls| - 1] + "\n")
  }

  /** The lines of a file, each with its line end; the last one may lack it. */
  function FileLines(text: string): seq<string> {
    var parts := SplitOn(text, '\n');
    var n := |parts| - 1;
    Ended(parts[..n]) + if parts[n] == [] then [] else [parts[n]]
  }

  function Ended(ls: seq<string>): seq<string> {
    seq(|ls|, k requires 0 <= k < |ls| => ls[k] + "\n")
  }

  lemma {:induction false} UnlinesOneMore(ls: seq<string>, k: nat)
    requires k < |ls|
    ensures Unlines(ls[..k + 1]) == Unlines(ls[..k]) + (ls[k] + "\n")
  {
    assert ls[..k + 1][..k] == ls[..k];
  }

  /** Cutting off a first line. */
  lemma {:induction false} SplitLine(line: string, rest: string)
    requires '\n' !in line
    ensures SplitOn((line + "\n") + rest, '\n') == [line] + SplitOn(rest, '\n')
  {
    SplitFirst(line, "\n" + rest, '\n');
    assert (line + "\n") + rest == line + ("\n" + rest);
    assert ("\n" + rest)[1..] == rest;
    assert SplitOn("\n" + rest, '\n') == [[]] + SplitOn(rest, '\n');
    assert line + [] == line;
  }

  lemma {:induction false} UnlinesPrepend(l: string, ls: seq<string>)
    ensures Unlines([l] + ls) == (l + "\n") + Unlines(ls)
  {
    var all := [l] + ls;
    if ls == [] {
      assert all[..0] == [] && Unlines([]) == [];
      assert Unlines(all) == [] + (l + "\n");
    } else {
      var n := |ls| - 1;
      UnlinesPrepend(l, ls[..n]);
      assert all[..|all| - 1] == [l] + ls[..n] && all[|all| - 1] == ls[n];
      assert ((l + "\n") + Unlines(ls[..n])) + (ls[n] + "\n") == (l + "\n") + (Unlines(ls[..n]) + (ls[n] + "\n"));
    }
  }

  lemma {:induction false} SplitOfUnlines(ls: seq<string>)
    requires forall k :: 0 <= k < |ls| ==> '\n' !in ls[k]
    ensures SplitOn(Unlines(ls), '\n') == ls + [[]]
  {
    if ls == [] {
      assert ls + [[]] == [[]];
    } else {
      SplitOfUnlines(ls[1..]);
      UnlinesPrepend(ls[0], ls[1..]);
      assert [ls[0]] + ls[1..] == ls;
      SplitLine(ls[0], Unlines(ls[1..]));
      assert [ls[0]] + (ls[1..] + [[]]) == ls + [[]];
    }
  }

  /** A written file has the lines it was written from. */
  lemma {:induction false} LinesOfFile(ls: seq<string>)
    requires forall k :: 0 <= k < |ls| ==> '\n' !in ls[k]
    ensures FileLines(Unlines(ls)) == Ended(ls)
  {
    SplitOfUnlines(ls);
    assert (ls + [[]])[..|ls|] == ls;
  }

  /** Lines are read up to the first bad one. */
  function ReadLines<R, F>(read: string -> Result<R, F>, lines: seq<string>): Result<seq<R>, F> {
    if lines == [] then Ok([])
    else
      var n := |lines| - 1;
      var before := ReadLines(read, lines[..n]);
      if before.Err? then before
      else
        var r := read(lines[n]);
        if r.Err? then Err(r.error) else Ok(before.value + [r.value])
  }

  lemma {:induction false} BadLineStays<R, F>(read: string -> Result<R, F>, lines: seq<string>, k: nat)
    requires k <= |lines| && ReadLines(read, lines[..k]).Err?
    ensures ReadLines(read, lines) == ReadLines(read, lines[..k])
    decreases |lines|
  {
    if k < |lines| {
      var n := |lines| - 1;
      assert lines[..n][..k] == lines[..k];
      BadLineStays(read, lines[..n], k);
    } else {
      assert lines[..k] == lines;
    }
  }

  /** The lines read as `want` exactly if each of them does. */
  lemma {:induction false} ReadIff<R, F>(read: string -> Result<R, F>, lines: seq<string>, want: seq<R>)
    requires |want| == |lines|
    ensures ReadLines(read, lines) == Ok(want) <==> forall k :: 0 <= k < |lines| ==> read(lines[k]) == Ok(want[k])
  {
    if lines == [] {
      assert want == [];
    } else {
      var n := |lines| - 1;
      ReadIff(read, lines[..n], want[..n]);
      assert want == want[..n] + [want[n]];
      var before, last := ReadLines(read, lines[..n]), read(lines[n]);
      if before.Ok? && last.Ok? {
        LastOfBoth(before.value, last.value, want[..n], want[n]);
      }
    }
  }

  lemma {:induction false} LastOfBoth<T>(a: seq<T>, x: T, b: seq<T>, y: T)
    ensures a + [x] == b + [y] <==> a == b && x == y
  {
    if a + [x] == b + [y] {
      assert |a + [x]| == |a| + 1 && |b + [y]| == |b| + 1;
      assert a == (a + [x])[..|a|] && b == (b + [y])[..|b|];
      assert x == (a + [x])[|a|] && y == (b + [y])[|b|];
    }
  }
}
