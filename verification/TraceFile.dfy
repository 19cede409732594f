/** Whole instruction dependency traces, printed and read back. */
module TraceFile {
  import opened Results
  import opened LineFile
  import opened InstTrace

  function LinesOf(rs: seq<Record>): seq<string> {
    seq(|rs|, k requires 0 <= k < |rs| => Line(rs[k]))
  }

  method WriteTrace(rs: seq<Record>) returns (out: string)
    ensures out == Unlines(LinesOf(rs))
  {
    out := "";
    ghost var lines := LinesOf(rs);
    for k := 0 to |rs|
      invariant out == Unlines(lines[..k])
    {
      UnlinesOneMore(lines, k);
      var line := WriteRecord(rs[k]);
      assert line == lines[k] + "\n";
      out := out + line;
    }
    assert lines[..|rs|] == lines;
  }

  method ReadTrace(text: string) returns (r: Result<seq<Record>, Failure>)
    ensures r == ReadLines(Parse, FileLines(text))
  {
    var lines := FileLines(text);
    var records := [];
    for k := 0 to |lines|
      invariant ReadLines(Parse, lines[..k]) == Ok(records)
    {
      assert lines[..k + 1][..k] == lines[..k];
      var record := ReadRecord(lines[k]);
      if record.Err? {
        BadLineStays(Parse, lines, k + 1);
        return Err(record.error);
      }
      records := records + [record.value];
    }
    assert lines[..|lines|] == lines;
    r := Ok(records);
  }

  function FilledAll(rs: seq<Record>): seq<Record> {
    seq(|rs|, k requires 0 <= k < |rs| => Filled(rs[k]))
  }

  /** Reading a printed trace gives the same records, with the defaults filled in,
      exactly if every record is well shaped. */
  lemma {:induction false} TraceRoundTrip(rs: seq<Record>)
    ensures ReadLines(Parse, FileLines(Unlines(LinesOf(rs)))) == Ok(FilledAll(rs))
       <==> forall k :: 0 <= k < |rs| ==> Shaped(rs[k])
  {
    var lines := LinesOf(rs);
    forall k | 0 <= k < |lines|
      ensures '\n' !in lines[k]
    {
      LineHasNoBreak(rs[k]);
    }
    LinesOfFile(lines);
    ReadIff(Parse, Ended(lines), FilledAll(rs));
    forall k | 0 <= k < |rs|
      ensures Parse(Ended(lines)[k]) == Ok(FilledAll(rs)[k]) <==> Shaped(rs[k])
    {
      RecordRoundTrip(rs[k]);
    }
  }
}
