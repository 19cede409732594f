/** Instruction dependency traces as text: the printer writes one line per record,
    the parser reads such lines back. */
module InstTrace {
  import opened Results
  import opened Numerals
  import opened Fields

  datatype Kind = Invalid | Load | Store | Comp

  /** The field types of the message. */
  const MAX32: nat := 0xFFFF_FFFF
  const MAX64: nat := 0xFFFF_FFFF_FFFF_FFFF

  type U32 = n: nat | n <= MAX32
  type U64 = n: nat | n <= MAX64

  datatype Record = Record(
    seqNum: U64,
    pc: Option<U64>,
    weight: Option<U32>,
    kind: Kind,
    addr: Option<U64>,
    size: Option<U32>,
    flags: Option<U32>,
    delay: U64,
    robDeps: seq<U64>,
    regDeps: seq<U64>)

  function Name(kind: Kind): string {
    match kind
    case Invalid => "INVALID"
    case Load => "LOAD"
    case Store => "STORE"
    case Comp => "COMP"
  }

  function KindOf(name: string): Option<Kind> {
    if name == "INVALID" then Some(Invalid)
    else if name == "LOAD" then Some(Load)
    else if name == "STORE" then Some(Store)
    else if name == "COMP" then Some(Comp)
    else None
  }

  function Default(field: Option<nat>, value: nat): nat {
    if field.Some? then field.value else value
  }

  // ---- Printing ----

  function Optional(field: Option<nat>): seq<string> {
    if field.Some? then [Show(field.value)] else []
  }

  function ShowAll(ns: seq<nat>): seq<string> {
    seq(|ns|, k requires 0 <= k < |ns| => Show(ns[k]))
  }

  function Head(r: Record): seq<string> {
    [Show(r.seqNum), Show(Default(r.pc, 0)), Show(Default(r.weight, 1)), Name(r.kind)]
  }

  function Rest(r: Record): seq<string> {
    Optional(r.addr) + Optional(r.size) + Optional(r.flags) + [Show(r.delay)]
  }

  /** The fields of a line before the first colon. */
  function Info(r: Record): seq<string> {
    Head(r) + Rest(r)
  }

  function Line(r: Record): string {
    JoinOn(Info(r), ',') + ":" + Tail(ShowAll(r.robDeps), ',') + ":" + Tail(ShowAll(r.regDeps), ',')
  }

  method WriteDeps(out0: string, deps: seq<nat>) returns (out: string)
    ensures out == out0 + Tail(ShowAll(deps), ',')
  {
    out := out0;
    for k := 0 to |deps|
      invariant out == out0 + Tail(ShowAll(deps[..k]), ',')
    {
      TailAppend(ShowAll(deps[..k]), Show(deps[k]), ',');
      assert ShowAll(deps[..k + 1]) == ShowAll(deps[..k]) + [Show(deps[k])];
      out := out + "," + Show(deps[k]);
    }
    assert deps[..|deps|] == deps;
  }

  /** Writes a field that may be missing. */
  method WriteOptional(out0: string, field: Option<nat>, ghost first: string, ghost parts: seq<string>)
    returns (out: string)
    requires out0 == first + Tail(parts, ',')
    ensures out == first + Tail(parts + Optional(field), ',')
  {
    out := out0;
    if field.Some? {
      TailAppend(parts, Show(field.value), ',');
      out := out + "," + Show(field.value);
    } else {
      assert parts + Optional(field) == parts;
    }
  }

  method WriteDefault(out0: string, field: Option<nat>, ghost first: string, ghost parts: seq<string>, value: nat)
    returns (out: string)
    requires out0 == first + Tail(parts, ',')
    ensures out == first + Tail(parts + [Show(Default(field, value))], ',')
  {
    TailAppend(parts, Show(Default(field, value)), ',');
    if field.Some? {
      out := out0 + "," + Show(field.value);
    } else {
      out := out0 + "," + Show(value);
    }
  }

  /** The fields up to the type. */
  method WriteHead(r: Record) returns (out: string)
    ensures out == Show(r.seqNum) + Tail(Head(r)[1..], ',')
  {
    ghost var first := Show(r.seqNum);
    out := Show(r.seqNum);
    assert out == first + Tail([], ',');
    out := WriteDefault(out, r.pc, first, [], 0);
    ghost var parts := [] + [Show(Default(r.pc, 0))];
    out := WriteDefault(out, r.weight, first, parts, 1);
    parts := parts + [Show(Default(r.weight, 1))];
    TailAppend(parts, Name(r.kind), ',');
    out := out + "," + Name(r.kind);
    assert Head(r)[1..] == parts + [Name(r.kind)];
  }

  /** The fields after the type. */
  method WriteRest(out0: string, r: Record, ghost first: string, ghost parts: seq<string>) returns (out: string)
    requires out0 == first + Tail(parts, ',')
    ensures out == first + Tail(parts + Rest(r), ',')
  {
    out := WriteOptional(out0, r.addr, first, parts);
    ghost var three := parts + Optional(r.addr);
    out := WriteOptional(out, r.size, first, three);
    three := three + Optional(r.size);
    out := WriteOptional(out, r.flags, first, three);
    three := three + Optional(r.flags);
    TailAppend(three, Show(r.delay), ',');
    out := out + "," + Show(r.delay);
    RestBehind(parts, r);
  }

  lemma {:induction false} RestBehind(parts: seq<string>, r: Record)
    ensures parts + Rest(r) == parts + Optional(r.addr) + Optional(r.size) + Optional(r.flags) + [Show(r.delay)]
  {
    FourBehind(parts, Optional(r.addr), Optional(r.size), Optional(r.flags), [Show(r.delay)]);
  }

  lemma {:induction false} FourBehind<T>(s: seq<T>, a: seq<T>, b: seq<T>, c: seq<T>, d: seq<T>)
    ensures s + (a + b + c + d) == s + a + b + c + d
  {
    assert a + b + c + d == a + (b + (c + d));
    assert s + (a + (b + (c + d))) == s + a + (b + (c + d));
    assert s + a + (b + (c + d)) == s + a + b + (c + d);
  }

  /** Writes the record field by field. */
  method WriteRecord(r: Record) returns (out: string)
    ensures out == Line(r) + "\n"
  {
    out := WriteHead(r);
    out := WriteRest(out, r, Show(r.seqNum), Head(r)[1..]);
    assert out == JoinOn(Info(r), ',') by {
      assert Info(r)[1..] == Head(r)[1..] + Rest(r);
    }
    out := WriteDeps(out + ":", r.robDeps);
    out := WriteDeps(out + ":", r.regDeps);
    out := out + "\n";
  }

  // ---- Parsing ----

  datatype Failure = WrongParts | MissingField | BadNumber | UnknownType | InvalidType | WrongCount

  /** A number that was read, if it fits its field. */
  function Fit64(n: Option<int>): Result<U64, Failure> {
    if n.Some? && 0 <= n.value <= MAX64 then Ok(n.value) else Err(BadNumber)
  }

  function Fit32(n: Option<int>): Result<U32, Failure> {
    if n.Some? && 0 <= n.value <= MAX32 then Ok(n.value) else Err(BadNumber)
  }

  function Field(info: seq<string>, i: nat): Result<U64, Failure> {
    if i < |info| then Fit64(ReadLong(info[i])) else Err(MissingField)
  }

  function WeightField(info: seq<string>): Result<U32, Failure> {
    if |info| > 2 then Fit32(ReadLong(info[2])) else Err(MissingField)
  }

  /** Dependences are read up to the first bad one; empty parts are passed over. */
  function ReadDeps(parts: seq<string>): Result<seq<U64>, Failure> {
    if parts == [] then Ok([])
    else
      var n := |parts| - 1;
      match ReadDeps(parts[..n])
      case Err(e) => Err(e)
      case Ok(deps) =>
        if parts[n] == [] then Ok(deps)
        else match Fit64(ReadLong(parts[n]))
          case Err(e) => Err(e)
          case Ok(d) => Ok(deps + [d])
  }

  /** The fields after the type. Loads and stores have four, others one. */
  function ReadRest(r: Record, info: seq<string>): Result<Record, Failure> {
    if r.kind == Load || r.kind == Store then
      if |info| < 8 then Err(WrongCount)
      else
        var (addr, delay) := (Field(info, 4), Field(info, 7));
        var (size, flags) := (Fit32(ReadInt(info[5])), Fit32(ReadInt(info[6])));
        if addr.Err? || size.Err? || flags.Err? || delay.Err? then Err(BadNumber)
        else Ok(r.(addr := Some(addr.value), size := Some(size.value), flags := Some(flags.value),
                   delay := delay.value))
    else match Field(info, 4)
      case Err(e) => Err(e)
      case Ok(delay) => Ok(r.(delay := delay))
  }

  function ReadInfo(info: seq<string>): Result<Record, Failure> {
    var (seqNum, pc, weight) := (Field(info, 0), Field(info, 1), WeightField(info));
    if seqNum.Err? then Err(seqNum.error)
    else if pc.Err? then Err(pc.error)
    else if weight.Err? then Err(weight.error)
    else if |info| <= 3 then Err(MissingField)
    else
      match KindOf(info[3])
      case None => Err(UnknownType)
      case Some(kind) =>
        if kind == Invalid then Err(InvalidType)
        else ReadRest(Record(seqNum.value, Some(pc.value), Some(weight.value), kind, None, None, None, 0, [], []), info)
  }

  function Parse(line: string): Result<Record, Failure> {
    var parts := SplitOn(Strip(line), ':');
    if |parts| != 3 then Err(WrongParts)
    else
      Combine(ReadInfo(SplitOn(parts[0], ',')),
              ReadDeps(SplitOn(Strip(parts[1]), ',')), ReadDeps(SplitOn(parts[2], ',')))
  }

  /** The first part that failed decides. */
  function Combine(info: Result<Record, Failure>, rob: Result<seq<U64>, Failure>, reg: Result<seq<U64>, Failure>)
    : Result<Record, Failure>
  {
    if info.Err? then info
    else if rob.Err? then Err(rob.error)
    else if reg.Err? then Err(reg.error)
    else Ok(info.value.(robDeps := rob.value, regDeps := reg.value))
  }

  method ReadDepList(text: string) returns (r: Result<seq<U64>, Failure>)
    ensures r == ReadDeps(SplitOn(text, ','))
  {
    var parts := SplitOn(text, ',');
    var deps: seq<U64> := [];
    for k := 0 to |parts|
      invariant ReadDeps(parts[..k]) == Ok(deps)
    {
      assert parts[..k + 1][..k] == parts[..k];
      if parts[k] != [] {
        var d := Fit64(ReadLong(parts[k]));
        if d.Err? {
          FirstBadStays(parts, k + 1);
          return Err(d.error);
        }
        deps := deps + [d.value];
      }
    }
    assert parts[..|parts|] == parts;
    r := Ok(deps);
  }

  lemma {:induction false} FirstBadStays(parts: seq<string>, k: nat)
    requires k <= |parts| && ReadDeps(parts[..k]).Err?
    ensures ReadDeps(parts) == ReadDeps(parts[..k])
    decreases |parts|
  {
    if k < |parts| {
      var n := |parts| - 1;
      assert parts[..n][..k] == parts[..k];
      FirstBadStays(parts[..n], k);
    } else {
      assert parts[..k] == parts;
    }
  }

  method ReadRecord(line: string) returns (r: Result<Record, Failure>)
    ensures r == Parse(line)
  {
    var parts := SplitOn(Strip(line), ':');
    if |parts| != 3 {
      return Err(WrongParts);
    }
    var info := ReadInfo(SplitOn(parts[0], ','));
    if info.Err? {
      return Err(info.error);
    }
    var rob := ReadDepList(Strip(parts[1]));
    if rob.Err? {
      return Err(rob.error);
    }
    var reg := ReadDepList(parts[2]);
    if reg.Err? {
      return Err(reg.error);
    }
    r := Ok(info.value.(robDeps := rob.value, regDeps := reg.value));
  }

  // ---- Round trip ----

  /** The record with the printer's defaults filled in. */
  function Filled(r: Record): Record {
    r.(pc := Some(Default(r.pc, 0)), weight := Some(Default(r.weight, 1)))
  }

  /** The request's fields are there exactly if the record is a load or a store. */
  predicate Shaped(r: Record) {
    && r.kind != Invalid
    && (r.addr.Some? <==> r.kind != Comp) && (r.size.Some? <==> r.kind != Comp) && (r.flags.Some? <==> r.kind != Comp)
  }

  lemma {:induction false} ReadOfShow(n: nat)
    ensures ReadInt(Show(n)) == ReadLong(Show(n)) == Some(n as int)
    ensures Show(n) != [] && Trimmed(Show(n))
  {
    ValueOfShow(n);
    ReadOfDigits(Show(n));
  }

  lemma {:induction false} OneMoreDep(deps: seq<U64>, d: U64)
    requires ReadDeps([[]] + ShowAll(deps)) == Ok(deps)
    ensures ReadDeps([[]] + ShowAll(deps + [d])) == Ok(deps + [d])
  {
    var parts := [[]] + ShowAll(deps + [d]);
    assert parts[..|parts| - 1] == [[]] + ShowAll(deps);
    ReadOfShow(d);
  }

  lemma {:induction false} DepsReadBack(deps: seq<U64>)
    ensures ReadDeps([[]] + ShowAll(deps)) == Ok(deps)
  {
    if deps == [] {
      NoDeps();
      assert [[]] + ShowAll(deps) == [[]];
    } else {
      var before, d := deps[..|deps| - 1], deps[|deps| - 1];
      assert deps == before + [d];
      DepsReadBack(before);
      OneMoreDep(before, d);
    }
  }

  lemma {:induction false} NoDeps()
    ensures ReadDeps([[]]) == Ok([])
  {
    var parts: seq<string> := [[]];
    assert parts[..0] == [];
  }

  lemma {:induction false} DepsText(deps: seq<U64>)
    ensures var text := Tail(ShowAll(deps), ',');
            Strip(text) == text && SplitOn(text, ',') == [[]] + ShowAll(deps)
            && ':' !in text && '\n' !in text && ReadDeps(SplitOn(text, ',')) == Ok(deps)
  {
    var parts := ShowAll(deps);
    forall k | 0 <= k < |parts|
      ensures CleanPart(parts[k])
    {
      ShowClean(deps[k]);
    }
    SplitOfTail(parts, ',');
    TailLacks(parts, ',', ':');
    TailLacks(parts, ',', '\n');
    TailTrimmed(deps);
    StripOfLine(Tail(parts, ','));
    DepsReadBack(deps);
  }

  lemma {:induction false} TailTrimmed(deps: seq<U64>)
    ensures Trimmed(Tail(ShowAll(deps), ','))
  {
    if deps != [] {
      var n := |deps| - 1;
      TailTrimmed(deps[..n]);
      TailAppend(ShowAll(deps[..n]), Show(deps[n]), ',');
      assert ShowAll(deps) == ShowAll(deps[..n]) + [Show(deps[n])];
      ReadOfShow(deps[n]);
    }
  }

  /** No separator in any part. */
  ghost predicate Clean(parts: seq<string>) {
    forall k :: 0 <= k < |parts| ==> CleanPart(parts[k])
  }

  ghost predicate CleanPart(s: string) {
    ',' !in s && ':' !in s && '\n' !in s
  }

  lemma {:induction false} OptionalClean(field: Option<nat>)
    ensures Clean(Optional(field))
  {
    if field.Some? {
      ShowClean(field.value);
    }
  }

  lemma {:induction false} CleanAppend(a: seq<string>, b: seq<string>)
    requires Clean(a) && Clean(b)
    ensures Clean(a + b)
  {
  }

  lemma {:induction false} HeadClean(r: Record)
    ensures Clean(Head(r))
  {
    ShowClean(r.seqNum);
    ShowClean(Default(r.pc, 0));
    ShowClean(Default(r.weight, 1));
    NameClean(r.kind);
  }

  lemma {:induction false} ShowClean(n: nat)
    ensures CleanPart(Show(n))
  {
    ValueOfShow(n);
  }

  lemma {:induction false} NameClean(kind: Kind)
    ensures CleanPart(Name(kind))
  {
  }

  lemma {:induction false} RestClean(r: Record)
    ensures Clean(Rest(r))
  {
    OptionalClean(r.addr);
    OptionalClean(r.size);
    OptionalClean(r.flags);
    OptionalClean(Some(r.delay));
    CleanAppend(Optional(r.addr), Optional(r.size));
    CleanAppend(Optional(r.addr) + Optional(r.size), Optional(r.flags));
    CleanAppend(Optional(r.addr) + Optional(r.size) + Optional(r.flags), Optional(Some(r.delay)));
  }

  lemma {:induction false} InfoClean(r: Record)
    ensures Clean(Info(r))
  {
    HeadClean(r);
    RestClean(r);
    CleanAppend(Head(r), Rest(r));
  }

  lemma {:induction false} KindOfName(kind: Kind)
    ensures KindOf(Name(kind)) == Some(kind)
  {
  }

  /** The record as far as the first four fields give it. */
  function Begun(r: Record): Record {
    Record(r.seqNum, Some(Default(r.pc, 0)), Some(Default(r.weight, 1)), r.kind, None, None, None, 0, [], [])
  }

  lemma {:induction false} FieldReadBack(info: seq<string>, i: nat, n: U64)
    requires i < |info| && info[i] == Show(n)
    ensures Field(info, i) == Ok(n)
  {
    ReadOfShow(n);
  }

  lemma {:induction false} SmallFieldReadBack(s: string, n: U32)
    requires s == Show(n)
    ensures Fit32(ReadInt(s)) == Ok(n) && Fit32(ReadLong(s)) == Ok(n)
  {
    ReadOfShow(n);
  }

  lemma {:induction false} HeadReadBack(r: Record, rest: seq<string>)
    ensures ReadInfo(Head(r) + rest)
         == if r.kind == Invalid then Err(InvalidType) else ReadRest(Begun(r), Head(r) + rest)
  {
    var info := Head(r) + rest;
    FieldReadBack(info, 0, r.seqNum);
    FieldReadBack(info, 1, Default(r.pc, 0));
    SmallFieldReadBack(info[2], Default(r.weight, 1));
    KindOfName(r.kind);
  }

  lemma {:induction false} RequestReadBack(r: Record, info: seq<string>)
    requires Shaped(r) && r.kind != Comp && |info| == 8
    requires info[4] == Show(r.addr.value) && info[5] == Show(r.size.value)
    requires info[6] == Show(r.flags.value) && info[7] == Show(r.delay)
    ensures ReadRest(Begun(r), info) == Ok(Filled(r).(robDeps := [], regDeps := []))
  {
    FieldReadBack(info, 4, r.addr.value);
    SmallFieldReadBack(info[5], r.size.value);
    SmallFieldReadBack(info[6], r.flags.value);
    FieldReadBack(info, 7, r.delay);
  }

  lemma {:induction false} CompReadBack(r: Record, info: seq<string>)
    requires Shaped(r) && r.kind == Comp && |info| == 5 && info[4] == Show(r.delay)
    ensures ReadRest(Begun(r), info) == Ok(Filled(r).(robDeps := [], regDeps := []))
  {
    FieldReadBack(info, 4, r.delay);
  }

  /** Whatever is read for another kind than a load or a store has no request. */
  lemma {:induction false} UnshapedNotRead(r: Record, info: seq<string>)
    requires r.kind != Invalid && !Shaped(r)
    requires r.kind != Comp ==> |info| < 8
    ensures ReadRest(Begun(r), info) != Ok(Filled(r).(robDeps := [], regDeps := []))
  {
  }

  lemma {:induction false} RestReadBack(r: Record, head: seq<string>)
    requires |head| == 4 && r.kind != Invalid
    ensures ReadRest(Begun(r), head + Rest(r)) == Ok(Filled(r).(robDeps := [], regDeps := [])) <==> Shaped(r)
  {
    var info := head + Rest(r);
    if !Shaped(r) {
      UnshapedNotRead(r, info);
    } else if r.kind == Comp {
      CompReadBack(r, info);
    } else {
      RequestReadBack(r, info);
    }
  }

  /** Reading the fields before the colon gives the record back, without its
      dependences, exactly if it is well shaped. */
  lemma {:induction false} InfoReadBack(r: Record)
    ensures ReadInfo(Info(r)) == Ok(Filled(r).(robDeps := [], regDeps := [])) <==> Shaped(r)
  {
    HeadReadBack(r, Rest(r));
    if r.kind != Invalid {
      RestReadBack(r, Head(r));
    }
  }

  lemma {:induction false} CleanTail(parts: seq<string>)
    requires Clean(parts)
    ensures ':' !in Tail(parts, ',') && '\n' !in Tail(parts, ',')
  {
    if parts != [] {
      CleanTail(parts[1..]);
    }
  }

  /** The text before the first colon. */
  function InfoText(r: Record): string {
    JoinOn(Info(r), ',')
  }

  function DepText(deps: seq<U64>): string {
    Tail(ShowAll(deps), ',')
  }

  lemma {:induction false} InfoTextClean(r: Record)
    ensures ':' !in InfoText(r) && '\n' !in InfoText(r)
  {
    InfoClean(r);
    CleanTail(Info(r)[1..]);
    assert CleanPart(Info(r)[0]);
  }

  lemma {:induction false} LineIsTrimmed(r: Record)
    ensures Trimmed(Line(r))
  {
    ReadOfShow(r.seqNum);
    TailTrimmed(r.regDeps);
    assert InfoText(r)[0] == Show(r.seqNum)[0];
    var reg := DepText(r.regDeps);
    if reg != [] {
      assert Line(r)[|Line(r)| - 1] == reg[|reg| - 1];
    }
  }

  lemma {:induction false} LineStripped(r: Record)
    ensures Strip(Line(r) + "\n") == Line(r)
  {
    LineIsTrimmed(r);
    StripOfLine(Line(r));
  }

  lemma {:induction false} LineHasNoBreak(r: Record)
    ensures '\n' !in Line(r)
  {
    InfoTextClean(r);
    DepsText(r.robDeps);
    DepsText(r.regDeps);
  }

  /** A printed line splits into its three parts, whatever the record. */
  lemma {:induction false} LineParts(r: Record)
    ensures SplitOn(Line(r), ':') == [InfoText(r), DepText(r.robDeps), DepText(r.regDeps)]
  {
    var info, rob, reg := InfoText(r), DepText(r.robDeps), DepText(r.regDeps);
    assert ':' !in info && ':' !in rob && ':' !in reg by {
      InfoTextClean(r);
      DepsText(r.robDeps);
      DepsText(r.regDeps);
    }
    JoinOfThree(info, rob, reg);
    SplitOfJoin([info, rob, reg], ':');
  }

  lemma {:induction false} JoinOfThree(a: string, b: string, c: string)
    ensures JoinOn([a, b, c], ':') == a + ":" + b + ":" + c
  {
    assert [a, b, c][1..] == [b, c] && [b, c][1..] == [c] && [c][1..] == [];
    assert Tail([c], ':') == ":" + c;
  }

  lemma {:induction false} ParseOfLine(r: Record)
    ensures Parse(Line(r) + "\n") == Combine(ReadInfo(Info(r)), Ok(r.robDeps), Ok(r.regDeps))
  {
    LineStripped(r);
    LineParts(r);
    InfoClean(r);
    SplitOfJoin(Info(r), ',');
    DepsText(r.robDeps);
    DepsText(r.regDeps);
  }

  /** Parsing a printed record gives it back, with the defaults filled in, exactly
      if it is well shaped. */
  lemma {:induction false} RecordRoundTrip(r: Record)
    ensures Parse(Line(r) + "\n") == Ok(Filled(r)) <==> Shaped(r)
  {
    ParseOfLine(r);
    InfoReadBack(r);
    var info := ReadInfo(Info(r));
    if info.Ok? {
      DepsKeptEmpty(Info(r));
    }
  }

  /** The fields before the colon say nothing about dependences. */
  lemma {:induction false} DepsKeptEmpty(info: seq<string>)
    requires ReadInfo(info).Ok?
    ensures ReadInfo(info).value.robDeps == [] && ReadInfo(info).value.regDeps == []
  {
  }
}
