/** The checkpoint aggregator: several single-process checkpoints merged into one
    whose memory holds theirs one after the other. */
module Aggregator {
  import opened Basics
  import opened Results
  import opened Numerals

  const PAGE := 4096

  /** Padding is written as the character '0'. */
  const PAD: Byte := 48

  datatype Setting = Number(n: int) | Text(s: string)

  type Items = seq<(string, Setting)>

  datatype Section = Section(name: string, items: Items)

  /** One checkpoint: its configuration, memory image, pages in use and tick. */
  datatype Source = Source(sections: seq<Section>, mem: seq<Byte>, pages: nat, tick: int)

  // ---- Memory ----

  /** What the page reads take from a memory image: all declared pages, or what
      there is if the image ends earlier. */
  function Taken(c: Source): seq<Byte> {
    c.mem[..Min(PAGE * c.pages, |c.mem|)]
  }

  /** The image holds at least the declared pages. */
  predicate Full(c: Source) {
    PAGE * c.pages <= |c.mem|
  }

  /** Pages of the first i checkpoints. */
  function PagePtr(cs: seq<Source>, i: nat): nat
    requires i <= |cs|
  {
    if i == 0 then 0 else PagePtr(cs, i - 1) + cs[i - 1].pages
  }

  function Merged(cs: seq<Source>, i: nat): seq<Byte>
    requires i <= |cs|
  {
    if i == 0 then [] else Merged(cs, i - 1) + Taken(cs[i - 1])
  }

  ghost predicate AllFull(cs: seq<Source>, i: nat)
    requires i <= |cs|
  {
    forall j :: 0 <= j < i ==> Full(cs[j])
  }

  /** The merged memory has the declared size exactly when every image holds its
      declared pages; otherwise it is shorter. */
  lemma {:induction false} MergedLength(cs: seq<Source>, i: nat)
    requires i <= |cs|
    ensures |Merged(cs, i)| <= PAGE * PagePtr(cs, i)
    ensures |Merged(cs, i)| == PAGE * PagePtr(cs, i) <==> AllFull(cs, i)
  {
    if i > 0 {
      MergedLength(cs, i - 1);
    }
  }

  lemma {:induction false} MergedPrefix(cs: seq<Source>, i: nat, k: nat)
    requires i <= k <= |cs|
    ensures Merged(cs, i) <= Merged(cs, k)
  {
    if i < k {
      MergedPrefix(cs, i, k - 1);
    }
  }

  lemma {:induction false} PagePtrGrows(cs: seq<Source>, i: nat, k: nat)
    requires i <= k <= |cs|
    ensures PagePtr(cs, i) <= PagePtr(cs, k)
  {
    if i < k {
      PagePtrGrows(cs, i, k - 1);
    }
  }

  /** Reading page by page is reading the declared prefix. */
  method ReadPages(c: Source) returns (bytes: seq<Byte>)
    ensures bytes == Taken(c)
  {
    bytes := [];
    var at := 0;
    var x := 0;
    while x < c.pages
      invariant 0 <= x <= c.pages && at == Min(PAGE * x, |c.mem|)
      invariant bytes == c.mem[..at]
    {
      var end := Min(at + PAGE, |c.mem|);
      bytes := bytes + c.mem[at..end];
      at := end;
      x := x + 1;
    }
  }

  // ---- Configuration ----

  /** Physical addresses move with the memory they point into. */
  function Relocate(item: (string, Setting), pagePtr: nat): (string, Setting) {
    match item.1
    case Number(n) => if item.0 == "paddr" then (item.0, Number(n + PAGE * pagePtr)) else item
    case Text(_) => item
  }

  /** The section belongs to a processor. */
  predicate IsCpu(s: string) {
    |s| >= 3 && (s[..3] == "cpu" || IsCpu(s[1..]))
  }

  /** Every "cpu" in a section's name gets the checkpoint's number appended. */
  function Rename(tag: string, s: string): string {
    if |s| < 3 then s
    else if s[..3] == "cpu" then "cpu" + tag + Rename(tag, s[3..])
    else [s[0]] + Rename(tag, s[1..])
  }

  /** Takes n characters out again after every "cpu". */
  ghost function Strip(n: nat, s: string): string
    decreases |s|
  {
    if |s| < 3 then s
    else if s[..3] == "cpu" then "cpu" + (if |s| >= 3 + n then Strip(n, s[3 + n..]) else "")
    else [s[0]] + Strip(n, s[1..])
  }

  /** Renaming leaves the first two characters alone. */
  lemma {:induction false} RenameStart(tag: string, s: string)
    ensures |Rename(tag, s)| >= |s|
    ensures |s| >= 1 ==> Rename(tag, s)[0] == s[0]
    ensures |s| >= 2 ==> Rename(tag, s)[1] == s[1]
    decreases |s|
  {
    if |s| >= 3 {
      if s[..3] == "cpu" {
        RenameStart(tag, s[3..]);
        assert s[0] == s[..3][0] && s[1] == s[..3][1];
      } else {
        RenameStart(tag, s[1..]);
      }
    }
  }

  /** The original name can be read back from the new one. */
  lemma {:induction false} StripOfRename(tag: string, s: string)
    ensures Strip(|tag|, Rename(tag, s)) == s
    decreases |s|
  {
    if |s| >= 3 {
      var r := Rename(tag, s);
      RenameStart(tag, s);
      if s[..3] == "cpu" {
        StripOfRename(tag, s[3..]);
        assert r[..3] == "cpu" && r[3 + |tag|..] == Rename(tag, s[3..]);
        assert s == s[..3] + s[3..];
      } else {
        StripOfRename(tag, s[1..]);
        RenameStart(tag, s[1..]);
        assert r[..3] != "cpu" by {
          assert r[0] == s[0] && r[1] == s[1] && r[2] == s[2];
          assert s[..3] == [s[0], s[1], s[2]] && r[..3] == [r[0], r[1], r[2]];
        }
        assert r[1..] == Rename(tag, s[1..]);
        assert s == [s[0]] + s[1..];
      }
    }
  }

  lemma {:induction false} RenameShowsTag(t: string, u: string, s: string)
    requires |t| == |u| && IsCpu(s) && Rename(t, s) == Rename(u, s)
    ensures t == u
    decreases |s|
  {
    if s[..3] == "cpu" {
      assert Rename(t, s)[3..3 + |t|] == t && Rename(u, s)[3..3 + |u|] == u;
    } else {
      assert Rename(t, s)[1..] == Rename(t, s[1..]) && Rename(u, s)[1..] == Rename(u, s[1..]);
      RenameShowsTag(t, u, s[1..]);
    }
  }

  /** The number of checkpoint i among n, padded with zeros to a common width. */
  function Tag(i: nat, n: nat): string
    requires i < n
  {
    Zfill(Show(i), |Show(n - 1)|)
  }

  lemma {:induction false} TagWidth(i: nat, n: nat)
    requires i < n
    ensures |Tag(i, n)| == |Show(n - 1)| && AllDigits(Tag(i, n)) && Value(Tag(i, n)) == i
  {
    ValueOfShow(i);
    ShowWidens(i, n - 1);
    ZfillKeepsValue(Show(i), |Show(n - 1)|);
  }

  /** Processor sections of different checkpoints, or of different names, never
      end up with the same name. */
  lemma {:induction false} RenameInjective(i: nat, j: nat, n: nat, r: string, s: string)
    requires i < n && j < n && IsCpu(r) && Rename(Tag(i, n), r) == Rename(Tag(j, n), s)
    ensures r == s && i == j
  {
    TagWidth(i, n);
    TagWidth(j, n);
    StripOfRename(Tag(i, n), r);
    StripOfRename(Tag(j, n), s);
    RenameShowsTag(Tag(i, n), Tag(j, n), r);
  }

  lemma {:induction false} RenamedIsCpu(tag: string, s: string)
    requires IsCpu(s)
    ensures IsCpu(Rename(tag, s))
    decreases |s|
  {
    if s[..3] == "cpu" {
      assert Rename(tag, s)[..3] == "cpu";
    } else {
      RenamedIsCpu(tag, s[1..]);
      assert Rename(tag, s)[1..] == Rename(tag, s[1..]);
    }
  }

  /** Setting an option replaces its value or adds it at the end. */
  function SetItem(items: Items, key: string, v: Setting): Items {
    if items == [] then [(key, v)]
    else if items[0].0 == key then [(key, v)] + items[1..]
    else [items[0]] + SetItem(items[1..], key, v)
  }

  predicate IsFdMap(s: string) {
    && |s| >= 17 && s[|s| - 17..|s| - 9] == "workload" && s[|s| - 9] != '\n'
    && s[|s| - 8..] == "FdMap256"
  }

  function RelocateAll(items: Items, pagePtr: nat): Items {
    seq(|items|, k requires 0 <= k < |items| => Relocate(items[k], pagePtr))
  }

  /** A processor section of checkpoint i among n. */
  function CpuSection(s: Section, i: nat, n: nat, pagePtr: nat): Section
    requires i < n
  {
    var items := RelocateAll(s.items, pagePtr);
    Section(Rename(Tag(i, n), s.name), if IsFdMap(s.name) then SetItem(items, "M5_pid", Number(i)) else items)
  }

  /** What becomes of one section: processors' are renamed and relocated, of the
      others only the last checkpoint's are kept. */
  function Keep(s: Section, i: nat, n: nat, pagePtr: nat): seq<Section>
    requires i < n
  {
    if IsCpu(s.name) then [CpuSection(s, i, n, pagePtr)]
    else if s.name != "system" && s.name != "Globals" && i == n - 1 then [s]
    else []
  }

  function Config(secs: seq<Section>, i: nat, n: nat, pagePtr: nat): seq<Section>
    requires i < n
  {
    if secs == [] then []
    else Config(secs[..|secs| - 1], i, n, pagePtr) + Keep(secs[|secs| - 1], i, n, pagePtr)
  }

  /** A processor's section with a physical address that is not a number. */
  predicate BadItem(item: (string, Setting)) {
    item.0 == "paddr" && item.1.Text?
  }

  predicate BadSection(s: Section) {
    IsCpu(s.name) && exists j :: 0 <= j < |s.items| && BadItem(s.items[j])
  }

  predicate BadConfig(secs: seq<Section>) {
    secs != [] && (BadConfig(secs[..|secs| - 1]) || BadSection(secs[|secs| - 1]))
  }

  lemma {:induction false} BadConfigIff(secs: seq<Section>)
    ensures BadConfig(secs) <==> exists k :: 0 <= k < |secs| && BadSection(secs[k])
  {
    if secs != [] {
      var n := |secs| - 1;
      BadConfigIff(secs[..n]);
      if BadConfig(secs[..n]) {
        var k :| 0 <= k < n && BadSection(secs[..n][k]);
        assert BadSection(secs[k]);
      }
      if k :| 0 <= k < n && BadSection(secs[k]) {
        assert BadSection(secs[..n][k]);
      }
    }
  }

  /** Copies the items, moving addresses; none if an address cannot be read. */
  method MergeItems(items: Items, pagePtr: nat) returns (r: Option<Items>)
    ensures r.None? <==> exists j :: 0 <= j < |items| && BadItem(items[j])
    ensures r.Some? ==> r.value == RelocateAll(items, pagePtr)
  {
    var out: Items := [];
    for j := 0 to |items|
      invariant out == RelocateAll(items, pagePtr)[..j]
      invariant forall k :: 0 <= k < j ==> !BadItem(items[k])
    {
      if BadItem(items[j]) {
        return None;
      }
      out := out + [Relocate(items[j], pagePtr)];
    }
    return Some(out);
  }

  method MergeSections(secs: seq<Section>, i: nat, n: nat, pagePtr: nat) returns (r: Option<seq<Section>>)
    requires i < n
    ensures r.None? <==> BadConfig(secs)
    ensures r.Some? ==> r.value == Config(secs, i, n, pagePtr)
  {
    var out: seq<Section> := [];
    for k := 0 to |secs|
      invariant out == Config(secs[..k], i, n, pagePtr) && !BadConfig(secs[..k])
    {
      assert secs[..k + 1][..k] == secs[..k];
      var s := secs[k];
      if IsCpu(s.name) {
        var moved := MergeItems(s.items, pagePtr);
        if moved.None? {
          assert BadSection(s);
          BadConfigIff(secs);
          return None;
        }
        var items := moved.value;
        if IsFdMap(s.name) {
          items := SetItem(items, "M5_pid", Number(i));
        }
        out := out + [Section(Rename(Tag(i, n), s.name), items)];
      } else if s.name != "system" && s.name != "Globals" && i == n - 1 {
        out := out + [s];
      }
    }
    assert secs[..|secs|] == secs;
    return Some(out);
  }

  // ---- The whole merge ----

  const STORE := "system.physmem.store0"

  datatype Failure = BadAddress | NoCheckpoints | NoStoreSection

  /** The merged memory and configuration. */
  datatype Merge = Merge(mem: seq<Byte>, sections: seq<Section>)

  ghost function Padding(n: nat): seq<Byte> {
    seq(n, i => PAD)
  }

  /** Pages after padding to the requested size. */
  ghost function PaddedPages(pages: nat, memorySize: int): (r: nat)
    ensures r >= pages && PAGE * r >= memorySize
  {
    if PAGE * pages >= memorySize then pages else (memorySize + PAGE - 1) / PAGE
  }

  /** The latest tick of the first i checkpoints, from 0 on. */
  function MaxTick(cs: seq<Source>, i: nat): int
    requires i <= |cs|
  {
    if i == 0 then 0
    else if cs[i - 1].tick > MaxTick(cs, i - 1) then cs[i - 1].tick else MaxTick(cs, i - 1)
  }

  lemma {:induction false} MaxTickIs(cs: seq<Source>, i: nat)
    requires i <= |cs|
    ensures forall k :: 0 <= k < i ==> cs[k].tick <= MaxTick(cs, i)
    ensures MaxTick(cs, i) >= 0
    ensures MaxTick(cs, i) == 0 || exists k :: 0 <= k < i && cs[k].tick == MaxTick(cs, i)
  {
    if i > 0 {
      MaxTickIs(cs, i - 1);
    }
  }

  /** The configurations of the first i checkpoints, one after the other. */
  function AllSections(cs: seq<Source>, i: nat): seq<Section>
    requires i <= |cs|
  {
    if i == 0 then []
    else AllSections(cs, i - 1) + Config(cs[i - 1].sections, i - 1, |cs|, PagePtr(cs, i - 1))
  }

  ghost function LastConfig(cs: seq<Source>): seq<Section>
    requires cs != []
  {
    var n := |cs|;
    Config(cs[n - 1].sections, n - 1, n, PagePtr(cs, n - 1))
  }

  predicate HasSection(secs: seq<Section>, name: string) {
    exists k :: 0 <= k < |secs| && secs[k].name == name
  }

  /** Sets an option of the section with the given name. */
  function SetIn(secs: seq<Section>, name: string, key: string, v: Setting): (r: seq<Section>)
    ensures |r| == |secs|
    ensures forall k :: 0 <= k < |secs| ==> r[k].name == secs[k].name
  {
    if secs == [] then []
    else if secs[0].name == name then [Section(name, SetItem(secs[0].items, key, v))] + secs[1..]
    else [secs[0]] + SetIn(secs[1..], name, key, v)
  }

  /** The configuration that belongs to the last checkpoint, with the merged
      system's own sections. */
  function Closing(config: seq<Section>, pagePtr: nat, processes: nat, rangeSize: nat, tick: int): seq<Section> {
    SetIn(config + [Section("system", [("pagePtr", Number(pagePtr)), ("nextPID", Number(processes))])],
          STORE, "range_size", Number(rangeSize))
    + [Section("Globals", [("curTick", Number(tick))])]
  }

  /** Appends padding pages until the memory has the requested size. */
  method Pad(mem0: seq<Byte>, pages0: nat, memorySize: int) returns (mem: seq<Byte>, pages: nat)
    ensures pages == PaddedPages(pages0, memorySize)
    ensures mem == mem0 + Padding(PAGE * (pages - pages0))
  {
    mem, pages := mem0, pages0;
    var fileSize := pages * PAGE;
    while fileSize < memorySize
      invariant fileSize == pages * PAGE && pages >= pages0
      invariant pages > pages0 ==> (pages - 1) * PAGE < memorySize
      invariant mem == mem0 + Padding(PAGE * (pages - pages0))
      decreases memorySize - fileSize
    {
      ghost var done := PAGE * (pages - pages0);
      mem := mem + seq(PAGE, i => PAD);
      fileSize := fileSize + PAGE;
      pages := pages + 1;
      assert Padding(done) + Padding(PAGE) == Padding(PAGE * (pages - pages0));
    }
  }

  /** The merged memory: the checkpoints' pages in order, then padding. */
  ghost predicate IsMergedMemory(cs: seq<Source>, memorySize: int, mem: seq<Byte>, rangeSize: nat) {
    var pages := PagePtr(cs, |cs|);
    && rangeSize == PAGE * PaddedPages(pages, memorySize)
    && mem == Merged(cs, |cs|) + Padding(PAGE * (PaddedPages(pages, memorySize) - pages))
  }

  /** The merged configuration. */
  ghost predicate IsMergedConfig(cs: seq<Source>, secs: seq<Section>, rangeSize: nat, tick: int)
    requires cs != []
  {
    && tick == MaxTick(cs, |cs|)
    && secs == AllSections(cs, |cs| - 1) + Closing(LastConfig(cs), PagePtr(cs, |cs|), |cs|, rangeSize, tick)
  }

  ghost predicate SomeBad(cs: seq<Source>) {
    exists i :: 0 <= i < |cs| && BadConfig(cs[i].sections)
  }

  /** Goes through the checkpoints: what is written before the last one, the last
      one's configuration, and the figures gathered on the way. Ends early at an
      address that cannot be read. */
  method ReadAll(cs: seq<Source>)
    returns (ok: bool, written: seq<Section>, config: seq<Section>, mem: seq<Byte>, pagePtr: nat, tick: int)
    ensures ok <==> !SomeBad(cs)
    ensures ok ==> pagePtr == PagePtr(cs, |cs|) && mem == Merged(cs, |cs|) && tick == MaxTick(cs, |cs|)
    ensures ok && cs != [] ==> written == AllSections(cs, |cs| - 1) && config == LastConfig(cs)
  {
    ok, written, config, mem, pagePtr, tick := true, [], [], [], 0, 0;
    var n := |cs|;
    for i := 0 to n
      invariant ok && forall j :: 0 <= j < i ==> !BadConfig(cs[j].sections)
      invariant pagePtr == PagePtr(cs, i) && mem == Merged(cs, i) && tick == MaxTick(cs, i)
      invariant written == AllSections(cs, if i == n > 0 then n - 1 else i)
      invariant i == n > 0 ==> config == LastConfig(cs)
    {
      var merged := MergeSections(cs[i].sections, i, n, pagePtr);
      if merged.None? {
        ok := false;
        return;
      }
      config := merged.value;
      if cs[i].tick > tick {
        tick := cs[i].tick;
      }
      if i != n - 1 {
        written := written + config;
      }
      pagePtr := pagePtr + cs[i].pages;
      var bytes := ReadPages(cs[i]);
      mem := mem + bytes;
    }
  }

  method Aggregate(cs: seq<Source>, memorySize: int)
    returns (r: Result<Merge, Failure>, rangeSize: nat, tick: int)
    ensures r == Err(BadAddress) <==> SomeBad(cs)
    ensures r == Err(NoCheckpoints) <==> cs == []
    ensures r == Err(NoStoreSection) <==> cs != [] && !SomeBad(cs) && !HasSection(LastConfig(cs), STORE)
    ensures r.Ok? ==>
      IsMergedMemory(cs, memorySize, r.value.mem, rangeSize) && IsMergedConfig(cs, r.value.sections, rangeSize, tick)
  {
    var ok, written, config, mem, pagePtr, t := ReadAll(cs);
    rangeSize, tick := 0, t;
    if !ok {
      return Err(BadAddress), rangeSize, tick;
    }
    if cs == [] {
      return Err(NoCheckpoints), rangeSize, tick;
    }
    var padded, pages := Pad(mem, pagePtr, memorySize);
    rangeSize := pages * PAGE;
    if !HasSection(config, STORE) {
      return Err(NoStoreSection), rangeSize, tick;
    }
    r := Ok(Merge(padded, written + Closing(config, pagePtr, |cs|, rangeSize, tick)));
  }

  // ---- What the merge means ----

  lemma {:induction false} MergedAt(cs: seq<Source>, i: nat, paddr: nat)
    requires i < |cs| && AllFull(cs, i) && paddr < |Taken(cs[i])|
    ensures paddr + PAGE * PagePtr(cs, i) < |Merged(cs, i + 1)|
    ensures Merged(cs, i + 1)[paddr + PAGE * PagePtr(cs, i)] == cs[i].mem[paddr]
  {
    MergedLength(cs, i);
    var before := Merged(cs, i);
    assert (before + Taken(cs[i]))[|before| + paddr] == Taken(cs[i])[paddr];
  }

  /** A physical address recorded by checkpoint i still finds its byte after
      relocation, provided the checkpoints before it hold the pages they declare. */
  lemma {:induction false} Relocation(cs: seq<Source>, memorySize: int, mem: seq<Byte>, rangeSize: nat, i: nat,
          paddr: nat, moved: int)
    requires IsMergedMemory(cs, memorySize, mem, rangeSize) && i < |cs| && AllFull(cs, i)
    requires paddr < |Taken(cs[i])|
    requires Relocate(("paddr", Number(paddr)), PagePtr(cs, i)) == ("paddr", Number(moved))
    ensures 0 <= moved < |mem| && mem[moved] == cs[i].mem[paddr]
  {
    MergedAt(cs, i, paddr);
    MergedPrefix(cs, i + 1, |cs|);
    MergedComesFirst(cs, memorySize, mem, rangeSize);
  }

  lemma {:induction false} MergedComesFirst(cs: seq<Source>, memorySize: int, mem: seq<Byte>, rangeSize: nat)
    requires IsMergedMemory(cs, memorySize, mem, rangeSize)
    ensures Merged(cs, |cs|) <= mem
  {
  }

  /** The address ranges of different checkpoints do not overlap. */
  lemma {:induction false} RegionsDisjoint(cs: seq<Source>, i: nat, j: nat, a: nat, b: nat)
    requires i < j < |cs| && a < PAGE * cs[i].pages && b < PAGE * cs[j].pages
    ensures a + PAGE * PagePtr(cs, i) < b + PAGE * PagePtr(cs, j)
  {
    PagePtrGrows(cs, i + 1, j);
  }

  /** The recorded range size is the number of bytes written exactly when every
      checkpoint holds the pages it declares. */
  lemma {:induction false} RangeSizeIff(cs: seq<Source>, memorySize: int, mem: seq<Byte>, rangeSize: nat)
    requires IsMergedMemory(cs, memorySize, mem, rangeSize)
    ensures rangeSize == |mem| <==> AllFull(cs, |cs|)
    ensures rangeSize >= memorySize
  {
    MergedLength(cs, |cs|);
  }

  // ---- Names ----

  ghost predicate DistinctNames(secs: seq<Section>) {
    forall a, b :: 0 <= a < b < |secs| ==> secs[a].name != secs[b].name
  }

  /** A section of the merged configuration comes from section k of checkpoint i. */
  ghost predicate ComesFrom(name: string, secs: seq<Section>, i: nat, n: nat, k: nat)
    requires i < n
  {
    && k < |secs|
    && if IsCpu(secs[k].name) then name == Rename(Tag(i, n), secs[k].name)
       else i == n - 1 && name == secs[k].name && name != "system" && name != "Globals"
  }

  lemma {:induction false} Origin(secs: seq<Section>, i: nat, n: nat, pagePtr: nat, a: nat) returns (k: nat)
    requires i < n && a < |Config(secs, i, n, pagePtr)|
    ensures ComesFrom(Config(secs, i, n, pagePtr)[a].name, secs, i, n, k)
    decreases |secs|
  {
    var rest := secs[..|secs| - 1];
    if a < |Config(rest, i, n, pagePtr)| {
      k := Origin(rest, i, n, pagePtr, a);
    } else {
      k := |secs| - 1;
    }
  }

  /** Names of different origin differ. */
  lemma {:induction false} OriginsDiffer(cs: seq<Source>, i: nat, j: nat, k: nat, l: nat, name: string)
    requires i < |cs| && j < |cs| && DistinctNames(cs[i].sections)
    requires ComesFrom(name, cs[i].sections, i, |cs|, k) && ComesFrom(name, cs[j].sections, j, |cs|, l)
    ensures i == j && k == l
  {
    var n, r, s := |cs|, cs[i].sections[k].name, cs[j].sections[l].name;
    if IsCpu(r) {
      RenamedIsCpu(Tag(i, n), r);
    }
    if IsCpu(s) {
      RenamedIsCpu(Tag(j, n), s);
      RenameInjective(j, i, n, s, r);
    }
    assert r == s && i == j;
    assert !(k < l) && !(l < k);
  }

  lemma {:induction false} ConfigDistinct(cs: seq<Source>, m: nat, i: nat, pagePtr: nat)
    requires i < |cs| && DistinctNames(cs[i].sections) && m <= |cs[i].sections|
    ensures DistinctNames(Config(cs[i].sections[..m], i, |cs|, pagePtr))
  {
    var secs := cs[i].sections;
    if m > 0 {
      ConfigDistinct(cs, m - 1, i, pagePtr);
      assert secs[..m][..m - 1] == secs[..m - 1];
      var rest, last := Config(secs[..m - 1], i, |cs|, pagePtr), Keep(secs[m - 1], i, |cs|, pagePtr);
      forall a | 0 <= a < |rest| && last != []
        ensures rest[a].name != last[0].name
      {
        LastDiffers(cs, m - 1, i, pagePtr, a);
      }
    }
  }

  lemma {:induction false} LastDiffers(cs: seq<Source>, m: nat, i: nat, pagePtr: nat, a: nat)
    requires i < |cs| && DistinctNames(cs[i].sections) && m < |cs[i].sections|
    requires a < |Config(cs[i].sections[..m], i, |cs|, pagePtr)|
    requires Keep(cs[i].sections[m], i, |cs|, pagePtr) != []
    ensures Config(cs[i].sections[..m], i, |cs|, pagePtr)[a].name != Keep(cs[i].sections[m], i, |cs|, pagePtr)[0].name
  {
    var name := Keep(cs[i].sections[m], i, |cs|, pagePtr)[0].name;
    var k := Origin(cs[i].sections[..m], i, |cs|, pagePtr, a);
    if Config(cs[i].sections[..m], i, |cs|, pagePtr)[a].name == name {
      OriginsDiffer(cs, i, i, k, m, name);
    }
  }

  /** Each section of the first i configurations comes from one of those checkpoints. */
  lemma {:induction false} OriginAll(cs: seq<Source>, i: nat, a: nat) returns (j: nat, k: nat)
    requires i <= |cs| && a < |AllSections(cs, i)|
    ensures j < i && ComesFrom(AllSections(cs, i)[a].name, cs[j].sections, j, |cs|, k)
  {
    if a < |AllSections(cs, i - 1)| {
      j, k := OriginAll(cs, i - 1, a);
    } else {
      j := i - 1;
      k := Origin(cs[j].sections, j, |cs|, PagePtr(cs, j), a - |AllSections(cs, j)|);
    }
  }

  lemma {:induction false} AllDistinct(cs: seq<Source>, i: nat)
    requires i <= |cs| && forall j :: 0 <= j < |cs| ==> DistinctNames(cs[j].sections)
    ensures DistinctNames(AllSections(cs, i))
  {
    if i > 0 {
      AllDistinct(cs, i - 1);
      var secs := cs[i - 1].sections;
      ConfigDistinct(cs, |secs|, i - 1, PagePtr(cs, i - 1));
      assert secs[..|secs|] == secs;
      var before, now := AllSections(cs, i - 1), Config(secs, i - 1, |cs|, PagePtr(cs, i - 1));
      forall a, b | 0 <= a < |before| && 0 <= b < |now|
        ensures before[a].name != now[b].name
      {
        if before[a].name == now[b].name {
          var j, k := OriginAll(cs, i - 1, a);
          var l := Origin(secs, i - 1, |cs|, PagePtr(cs, i - 1), b);
          OriginsDiffer(cs, j, i - 1, k, l, before[a].name);
        }
      }
    }
  }

  /** The merged configuration names no section twice. */
  lemma {:induction false} NoSectionTwice(cs: seq<Source>, secs: seq<Section>, rangeSize: nat, tick: int)
    requires cs != [] && IsMergedConfig(cs, secs, rangeSize, tick)
    requires forall j :: 0 <= j < |cs| ==> DistinctNames(cs[j].sections)
    ensures DistinctNames(secs)
  {
    var n := |cs|;
    AllDistinct(cs, n);
    var all := AllSections(cs, n);
    forall a | 0 <= a < |all|
      ensures all[a].name != "system" && all[a].name != "Globals" && secs[a].name == all[a].name
    {
      var j, k := OriginAll(cs, n, a);
      if IsCpu(cs[j].sections[k].name) {
        RenamedIsCpu(Tag(j, n), cs[j].sections[k].name);
      }
      NotCpu();
    }
    assert |secs| == |all| + 2;
  }

  lemma {:induction false} NotCpu()
    ensures !IsCpu("system") && !IsCpu("Globals")
  {
    NotCpuTail("system");
    NotCpuTail("Globals");
  }

  lemma {:induction false} NotCpuTail(s: string)
    requires 'c' !in s
    ensures !IsCpu(s)
    decreases |s|
  {
    if |s| >= 3 {
      assert s[..3][0] == s[0] && s[0] in s;
      NotCpuTail(s[1..]);
    }
  }
}
