/** What can be looked up in the merged configuration of the checkpoint aggregator. */
module MergedConfig {
  import opened Results
  import opened Aggregator

  /** The value of an option, if it is set. */
  function ItemOf(items: Items, key: string): Option<Setting> {
    if items == [] then None
    else if items[0].0 == key then Some(items[0].1)
    else ItemOf(items[1..], key)
  }

  lemma {:induction false} SetItemSets(items: Items, key: string, v: Setting, k: string)
    ensures ItemOf(SetItem(items, key, v), k) == if k == key then Some(v) else ItemOf(items, k)
  {
    if items != [] {
      var r := SetItem(items, key, v);
      if items[0].0 == key {
        assert r[1..] == items[1..];
      } else {
        SetItemSets(items[1..], key, v, k);
        assert r[1..] == SetItem(items[1..], key, v);
      }
    }
  }

  lemma {:induction false} RelocateMoves(items: Items, pagePtr: nat, k: string)
    ensures ItemOf(RelocateAll(items, pagePtr), k) ==
      match ItemOf(items, k)
      case None => None
      case Some(v) => Some(Relocate((k, v), pagePtr).1)
  {
    if items != [] {
      RelocateMoves(items[1..], pagePtr, k);
      assert RelocateAll(items, pagePtr)[1..] == RelocateAll(items[1..], pagePtr);
    }
  }

  /** A processor's section keeps all its options, except that physical addresses
      move and a file descriptor map gets the number of its process. */
  lemma {:induction false} CpuSectionItems(s: Section, i: nat, n: nat, pagePtr: nat, k: string)
    requires i < n
    ensures ItemOf(CpuSection(s, i, n, pagePtr).items, k) ==
      if k == "M5_pid" && IsFdMap(s.name) then Some(Number(i))
      else match ItemOf(s.items, k)
        case None => None
        case Some(v) => Some(Relocate((k, v), pagePtr).1)
  {
    RelocateMoves(s.items, pagePtr, k);
    if IsFdMap(s.name) {
      SetItemSets(RelocateAll(s.items, pagePtr), "M5_pid", Number(i), k);
    }
  }

  // ---- Nothing is dropped ----

  lemma {:induction false} KeptInConfig(secs: seq<Section>, i: nat, n: nat, pagePtr: nat, k: nat)
    requires i < n && k < |secs| && Keep(secs[k], i, n, pagePtr) != []
    ensures Keep(secs[k], i, n, pagePtr)[0] in Config(secs, i, n, pagePtr)
    decreases |secs|
  {
    if k < |secs| - 1 {
      KeptInConfig(secs[..|secs| - 1], i, n, pagePtr, k);
    }
  }

  lemma {:induction false} KeptInAll(cs: seq<Source>, m: nat, i: nat, x: Section)
    requires i < m <= |cs| && x in Config(cs[i].sections, i, |cs|, PagePtr(cs, i))
    ensures x in AllSections(cs, m)
    decreases m
  {
    if i < m - 1 {
      KeptInAll(cs, m - 1, i, x);
    }
  }

  lemma {:induction false} SetInKeeps(secs: seq<Section>, name: string, key: string, v: Setting, x: Section)
    requires x in secs && x.name != name
    ensures x in SetIn(secs, name, key, v)
  {
    if secs[0].name != name && x != secs[0] {
      SetInKeeps(secs[1..], name, key, v, x);
    }
  }

  lemma {:induction false} SetInSets(secs: seq<Section>, name: string, key: string, v: Setting)
    requires HasSection(secs, name)
    ensures Holds(SetIn(secs, name, key, v), name, key, v)
  {
    var r := SetIn(secs, name, key, v);
    if secs[0].name == name {
      SetItemSets(secs[0].items, key, v, key);
      assert IsHolder(r[0], name, key, v);
    } else {
      var k :| 0 <= k < |secs| && secs[k].name == name;
      assert secs[1..][k - 1].name == name;
      SetInSets(secs[1..], name, key, v);
      var x :| x in SetIn(secs[1..], name, key, v) && IsHolder(x, name, key, v);
      assert x in r;
    }
  }

  ghost predicate IsHolder(s: Section, name: string, key: string, v: Setting) {
    s.name == name && ItemOf(s.items, key) == Some(v)
  }

  /** The configuration sets an option of a section to a value. */
  ghost predicate Holds(secs: seq<Section>, name: string, key: string, v: Setting) {
    exists s :: s in secs && IsHolder(s, name, key, v)
  }

  /** What is in the last checkpoint's part, under another name than the memory's,
      or in an earlier part, is in the merged configuration. */
  lemma {:induction false} KeptInMerge(cs: seq<Source>, secs: seq<Section>, rangeSize: nat, tick: int, i: nat,
          x: Section)
    requires cs != [] && IsMergedConfig(cs, secs, rangeSize, tick) && i < |cs|
    requires x in Config(cs[i].sections, i, |cs|, PagePtr(cs, i)) && x.name != STORE
    ensures x in secs
  {
    var n := |cs|;
    if i < n - 1 {
      KeptInAll(cs, n - 1, i, x);
    } else {
      var config := LastConfig(cs) + [Section("system", [("pagePtr", Number(PagePtr(cs, n))), ("nextPID", Number(n))])];
      assert x in config;
      SetInKeeps(config, STORE, "range_size", Number(rangeSize), x);
    }
  }

  /** Every processor section of every checkpoint is in the merged configuration,
      under its new name and with its physical addresses moved. */
  lemma {:induction false} CpuSectionsKept(cs: seq<Source>, secs: seq<Section>, rangeSize: nat, tick: int, i: nat,
          k: nat)
    requires cs != [] && IsMergedConfig(cs, secs, rangeSize, tick)
    requires i < |cs| && k < |cs[i].sections| && IsCpu(cs[i].sections[k].name)
    ensures CpuSection(cs[i].sections[k], i, |cs|, PagePtr(cs, i)) in secs
  {
    var s := cs[i].sections[k];
    KeptInConfig(cs[i].sections, i, |cs|, PagePtr(cs, i), k);
    RenamedIsCpu(Tag(i, |cs|), s.name);
    NotCpuTail(STORE);
    KeptInMerge(cs, secs, rangeSize, tick, i, CpuSection(s, i, |cs|, PagePtr(cs, i)));
  }

  /** The last checkpoint's other sections are kept as they are, except for the
      system's own. */
  lemma {:induction false} OtherSectionsKept(cs: seq<Source>, secs: seq<Section>, rangeSize: nat, tick: int, s: Section)
    requires cs != [] && IsMergedConfig(cs, secs, rangeSize, tick) && s in cs[|cs| - 1].sections
    requires !IsCpu(s.name) && s.name != "system" && s.name != "Globals" && s.name != STORE
    ensures s in secs
  {
    OtherInConfig(cs, s);
    KeptInMerge(cs, secs, rangeSize, tick, |cs| - 1, s);
  }

  lemma {:induction false} OtherInConfig(cs: seq<Source>, s: Section)
    requires cs != [] && s in cs[|cs| - 1].sections
    requires !IsCpu(s.name) && s.name != "system" && s.name != "Globals"
    ensures s in Config(cs[|cs| - 1].sections, |cs| - 1, |cs|, PagePtr(cs, |cs| - 1))
  {
    var n := |cs|;
    var k :| 0 <= k < |cs[n - 1].sections| && cs[n - 1].sections[k] == s;
    KeptInConfig(cs[n - 1].sections, n - 1, n, PagePtr(cs, n - 1), k);
  }

  /** The figures a simulator reads back: pages in use without padding, the next
      process number, the memory's size with padding, and the latest tick. */
  lemma {:induction false} FiguresRecorded(cs: seq<Source>, secs: seq<Section>, rangeSize: nat, tick: int)
    requires cs != [] && IsMergedConfig(cs, secs, rangeSize, tick) && HasSection(LastConfig(cs), STORE)
    ensures Holds(secs, "system", "pagePtr", Number(PagePtr(cs, |cs|)))
    ensures Holds(secs, "system", "nextPID", Number(|cs|))
    ensures Holds(secs, STORE, "range_size", Number(rangeSize))
    ensures Holds(secs, "Globals", "curTick", Number(tick))
  {
    var n := |cs|;
    var system := Section("system", [("pagePtr", Number(PagePtr(cs, n))), ("nextPID", Number(n))]);
    var config := LastConfig(cs) + [system];
    assert system in config;
    SetInKeeps(config, STORE, "range_size", Number(rangeSize), system);
    SystemItems(PagePtr(cs, n), n);
    assert IsHolder(system, "system", "pagePtr", Number(PagePtr(cs, n))) && system in secs;
    assert IsHolder(system, "system", "nextPID", Number(n));
    var k :| 0 <= k < |LastConfig(cs)| && LastConfig(cs)[k].name == STORE;
    assert config[k].name == STORE;
    SetInSets(config, STORE, "range_size", Number(rangeSize));
    var size := Number(rangeSize);
    var x :| x in SetIn(config, STORE, "range_size", size) && IsHolder(x, STORE, "range_size", size);
    assert x in secs;
    var globals := Section("Globals", [("curTick", Number(tick))]);
    assert IsHolder(globals, "Globals", "curTick", Number(tick)) && globals in secs;
  }

  lemma {:induction false} SystemItems(pages: nat, n: nat)
    ensures ItemOf([("pagePtr", Number(pages)), ("nextPID", Number(n))], "pagePtr") == Some(Number(pages))
    ensures ItemOf([("pagePtr", Number(pages)), ("nextPID", Number(n))], "nextPID") == Some(Number(n))
  {
    var items := [("pagePtr", Number(pages)), ("nextPID", Number(n))];
    assert items[1..] == [("nextPID", Number(n))];
    assert ItemOf(items[1..], "nextPID") == Some(Number(n));
    assert "pagePtr" != "nextPID" by {
      assert "pagePtr"[0] == 'p' && "nextPID"[0] == 'n';
    }
  }
}
