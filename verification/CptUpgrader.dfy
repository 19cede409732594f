/** The checkpoint upgrader: migrations applied in dependence order until every
    known tag is in the checkpoint, or no further one is ready. */
module CptUpgrader {
  import opened Results
  import opened Words

  type Tag = string

  // ---- Which tags can be reached ----

  /** Every dependence of every known tag. */
  type Depends = map<Tag, seq<Tag>>

  predicate Ready(deps: Depends, t: Tag, tags: set<Tag>)
    requires t in deps
  {
    forall d :: d in deps[t] ==> d in tags
  }

  /** Nothing more is ready. */
  ghost predicate Closed(deps: Depends, tags: set<Tag>) {
    forall t :: t in deps && Ready(deps, t, tags) ==> t in tags
  }

  /** The least closed set that holds the starting tags. */
  ghost predicate IsLeast(deps: Depends, start: set<Tag>, tags: set<Tag>) {
    && start <= tags && Closed(deps, tags)
    && forall c: set<Tag> :: start <= c && Closed(deps, c) ==> tags <= c
  }

  /** There is only one such set. */
  lemma {:induction false} LeastIsUnique(deps: Depends, start: set<Tag>, a: set<Tag>, b: set<Tag>)
    requires IsLeast(deps, start, a) && IsLeast(deps, start, b)
    ensures a == b
  {
  }

  ghost function TagSet(s: seq<Tag>): set<Tag> {
    set t | t in s
  }

  /** Upgrades applied in an order that respects dependences: each is known, was
      missing, is applied once, and only when all it depends on is there. */
  ghost predicate InOrder(deps: Depends, start: set<Tag>, applied: seq<Tag>) {
    applied == [] ||
    (var before, t := applied[..|applied| - 1], applied[|applied| - 1];
     InOrder(deps, start, before) && CanFollow(deps, start + TagSet(before), t))
  }

  /** The upgrade is known, missing and ready. */
  ghost predicate CanFollow(deps: Depends, tags: set<Tag>, t: Tag) {
    t in deps && t !in tags && Ready(deps, t, tags)
  }

  /** The order, at each of its places. */
  lemma {:induction false} InOrderAt(deps: Depends, start: set<Tag>, applied: seq<Tag>, j: nat)
    requires InOrder(deps, start, applied) && j < |applied|
    ensures CanFollow(deps, start + TagSet(applied[..j]), applied[j])
  {
    var n := |applied| - 1;
    if j < n {
      InOrderAt(deps, start, applied[..n], j);
      assert applied[..n][..j] == applied[..j];
    }
  }

  lemma {:induction false} AppliedWereMissing(deps: Depends, start: set<Tag>, applied: seq<Tag>)
    requires InOrder(deps, start, applied)
    ensures forall t :: t in applied ==> t in deps && t !in start
  {
    if applied != [] {
      AppliedWereMissing(deps, start, applied[..|applied| - 1]);
    }
  }

  /** Whatever is applied in dependence order stays below every closed set. */
  lemma {:induction false} AppliedBelowClosed(deps: Depends, start: set<Tag>, applied: seq<Tag>, c: set<Tag>)
    requires InOrder(deps, start, applied) && start <= c && Closed(deps, c)
    ensures start + TagSet(applied) <= c
  {
    if applied != [] {
      var k := |applied| - 1;
      AppliedBelowClosed(deps, start, applied[..k], c);
      assert Ready(deps, applied[k], c);
      assert TagSet(applied) == TagSet(applied[..k]) + {applied[k]};
    }
  }

  // ---- The resolution loop ----

  /** One more tag of a round: what was ready when the round began still is. */
  lemma {:induction false} RoundStep(deps: Depends, start: set<Tag>, tags0: set<Tag>, applied: seq<Tag>, t: Tag)
    requires InOrder(deps, start, applied) && tags0 <= start + TagSet(applied)
    requires t in deps && t !in start + TagSet(applied) && Ready(deps, t, tags0)
    ensures InOrder(deps, start, applied + [t])
    ensures start + TagSet(applied + [t]) == start + TagSet(applied) + {t}
  {
    var more := applied + [t];
    assert more[..|applied|] == applied;
  }

  /** One round: the tags that are ready, applied in any order. */
  method ApplyRound(deps: Depends, ghost start: set<Tag>, ready: set<Tag>, tags0: set<Tag>, applied0: seq<Tag>)
    returns (tags: set<Tag>, applied: seq<Tag>)
    requires InOrder(deps, start, applied0) && tags0 == start + TagSet(applied0)
    requires forall t :: t in ready ==> t in deps && t !in tags0 && Ready(deps, t, tags0)
    ensures InOrder(deps, start, applied) && tags == start + TagSet(applied)
    ensures tags == tags0 + ready && applied0 <= applied
  {
    tags, applied := tags0, applied0;
    var left := ready;
    while left != {}
      invariant left <= ready && tags == tags0 + (ready - left)
      invariant InOrder(deps, start, applied) && tags == start + TagSet(applied)
      invariant applied0 <= applied
      decreases left
    {
      var t :| t in left;
      assert t in ready;
      RoundStep(deps, start, tags0, applied, t);
      tags := tags + {t};
      applied := applied + [t];
      left := left - {t};
    }
  }

  /** Applies rounds until nothing is missing (success) or nothing is ready.
      Either way the tags are then the least closed set over the starting ones,
      whatever order the rounds were visited in. */
  method Resolve(deps: Depends, start: set<Tag>) returns (ok: bool, tags: set<Tag>, applied: seq<Tag>)
    ensures InOrder(deps, start, applied) && tags == start + TagSet(applied)
    ensures IsLeast(deps, start, tags)
    ensures ok <==> deps.Keys <= tags
  {
    tags, applied := start, [];
    var toApply := deps.Keys - tags;
    ok := true;
    while toApply != {}
      invariant InOrder(deps, start, applied) && tags == start + TagSet(applied)
      invariant ok && toApply == deps.Keys - tags
      decreases toApply
    {
      var ready := set t | t in toApply && Ready(deps, t, tags);
      if ready == {} {
        assert forall t :: t in toApply ==> t in ready || !Ready(deps, t, tags);
        ok := false;
        break;
      }
      ghost var before := toApply;
      tags, applied := ApplyRound(deps, start, ready, tags, applied);
      toApply := toApply - ready;
      assert toApply < before;
    }
    assert forall t :: t in deps.Keys ==> t in tags || t in toApply;
    assert ok <==> deps.Keys <= tags by {
      if t :| t in toApply {
        assert t !in tags;
      }
    }
    assert Closed(deps, tags) by {
      forall t | t in deps && Ready(deps, t, tags)
        ensures t in tags
      {
        assert t in tags || t in toApply;
      }
    }
    forall c: set<Tag> | start <= c && Closed(deps, c)
      ensures tags <= c
    {
      AppliedBelowClosed(deps, start, applied, c);
    }
  }

  // ---- The registry and the legacy chain ----

  datatype LoadError = KeyError | NoUpgrader

  /** What an upgrader's file says of itself. */
  datatype DependsField = NoDepends | OneTag(tag: Tag) | Tags(tags: seq<Tag>)

  datatype UpgraderField = Missing | NotAFunction | Function

  datatype UpgraderFile =
    UpgraderFile(name: string, tag: Option<Tag>, depends: DependsField, upgrader: UpgraderField, legacy: Option<int>)

  /** The tag, by default the name of the file without its suffix. */
  function TagOf(f: UpgraderFile): Tag {
    if f.tag.Some? then f.tag.value
    else if |f.name| <= 3 then "" else f.name[..|f.name| - 3]
  }

  function DependsOf(f: UpgraderFile): seq<Tag> {
    match f.depends
    case NoDepends => []
    case OneTag(t) => [t]
    case Tags(ts) => ts
  }

  /** File i is the last that gives tag t, or legacy version v. */
  ghost predicate GivesTag(files: seq<UpgraderFile>, t: Tag, i: nat) {
    i < |files| && TagOf(files[i]) == t && forall j :: i < j < |files| ==> TagOf(files[j]) != t
  }

  ghost predicate GivesVersion(files: seq<UpgraderFile>, v: int, i: nat) {
    i < |files| && files[i].legacy == Some(v) && forall j :: i < j < |files| ==> files[j].legacy != Some(v)
  }

  ghost predicate TagsApart(files: seq<UpgraderFile>) {
    forall i, j :: 0 <= i < j < |files| ==> TagOf(files[i]) != TagOf(files[j])
  }

  /** What the registry holds once the files are loaded, one after the other. */
  ghost function Loaded(files: seq<UpgraderFile>): Depends {
    if files == [] then map[]
    else
      var f := files[|files| - 1];
      Loaded(files[..|files| - 1])[TagOf(f) := DependsOf(f)]
  }

  ghost function LoadedVersions(files: seq<UpgraderFile>): map<int, Tag> {
    if files == [] then map[]
    else
      var f, before := files[|files| - 1], LoadedVersions(files[..|files| - 1]);
      if f.legacy.Some? then before[f.legacy.value := TagOf(f)] else before
  }

  /** Every file's tag is known. */
  lemma {:induction false} TagIsLoaded(files: seq<UpgraderFile>, i: nat)
    requires i < |files|
    ensures TagOf(files[i]) in Loaded(files)
  {
    var n := |files| - 1;
    if i < n {
      TagIsLoaded(files[..n], i);
    }
  }

  /** A known tag is some file's, and depends on what the last such file says. */
  lemma {:induction false} LoadedTag(files: seq<UpgraderFile>, t: Tag) returns (i: nat)
    requires t in Loaded(files)
    ensures GivesTag(files, t, i) && Loaded(files)[t] == DependsOf(files[i])
  {
    var n := |files| - 1;
    if TagOf(files[n]) == t {
      i := n;
    } else {
      i := LoadedTag(files[..n], t);
    }
  }

  /** A legacy version stands for the last file that claims it. */
  lemma {:induction false} LoadedVersion(files: seq<UpgraderFile>, v: int) returns (i: nat)
    requires v in LoadedVersions(files)
    ensures GivesVersion(files, v, i) && LoadedVersions(files)[v] == TagOf(files[i])
  {
    var n := |files| - 1;
    if files[n].legacy == Some(v) {
      i := n;
    } else {
      i := LoadedVersion(files[..n], v);
    }
  }

  /** If no two files give the same tag, each legacy version has a tag of its own. */
  lemma {:induction false} LoadedIsValid(files: seq<UpgraderFile>)
    requires TagsApart(files)
    ensures Injective(LoadedVersions(files))
    ensures forall v :: v in LoadedVersions(files) ==> LoadedVersions(files)[v] in Loaded(files)
  {
    var legacy := LoadedVersions(files);
    forall v | v in legacy
      ensures legacy[v] in Loaded(files)
    {
      var i := LoadedVersion(files, v);
      TagIsLoaded(files, i);
    }
    forall v, w | v in legacy && w in legacy && legacy[v] == legacy[w]
      ensures v == w
    {
      var i := LoadedVersion(files, v);
      var j := LoadedVersion(files, w);
      assert i == j;
    }
  }

  /** Loads the files; one without an upgrader function ends the program. */
  method LoadFiles(files: seq<UpgraderFile>) returns (r: Result<(Depends, map<int, Tag>), LoadError>)
    ensures r.Ok? <==> forall f :: f in files ==> f.upgrader.Function?
    ensures r.Ok? ==> r.value == (Loaded(files), LoadedVersions(files))
  {
    var deps: Depends, legacy: map<int, Tag> := map[], map[];
    for k := 0 to |files|
      invariant forall i :: 0 <= i < k ==> files[i].upgrader.Function?
      invariant deps == Loaded(files[..k]) && legacy == LoadedVersions(files[..k])
    {
      var f := files[k];
      if !f.upgrader.Function? {
        return Err(NoUpgrader);
      }
      assert files[..k + 1][..k] == files[..k];
      if f.legacy.Some? {
        legacy := legacy[f.legacy.value := TagOf(f)];
      }
      deps := deps[TagOf(f) := DependsOf(f)];
    }
    assert files[..|files|] == files;
    return Ok((deps, legacy));
  }

  /** Upgraders by tag, and those that stand for a legacy version number. */
  class Registry {
    var deps: Depends
    var legacy: map<int, Tag>

    ghost predicate Valid()
      reads this
    {
      (forall v :: v in legacy ==> legacy[v] in deps) && Injective(legacy)
    }

    constructor (deps: Depends, legacy: map<int, Tag>)
      requires (forall v :: v in legacy ==> legacy[v] in deps) && Injective(legacy)
      ensures Valid() && this.deps == deps && this.legacy == legacy
    {
      this.deps := deps;
      this.legacy := legacy;
    }

    /** Makes each legacy version from 3 on depend on exactly the one before, up
        to the first missing version. */
    method LinkLegacy() returns (r: Result<int, LoadError>)
      requires Valid()
      modifies this`deps
      ensures Valid() && legacy == old(legacy) && deps.Keys == old(deps.Keys)
      ensures r.Err? <==> 3 in legacy && 2 !in legacy
      ensures r.Err? ==> deps == old(deps)
      ensures r.Ok? ==> IsChain(deps, legacy, r.value)
      ensures r.Ok? ==> forall t :: t in deps && !InChain(legacy, t, r.value) ==> deps[t] == old(deps)[t]
    {
      var i := 3;
      ghost var seen: set<int> := {};
      while i in legacy
        invariant 3 <= i && (i > 3 ==> 2 in legacy)
        invariant forall v :: 3 <= v < i ==> v in legacy
        invariant deps.Keys == old(deps.Keys)
        invariant forall v :: 3 <= v < i ==> LinkedBelow(deps, legacy, v)
        invariant forall t :: t in deps && !InChain(legacy, t, i) ==> deps[t] == old(deps)[t]
        invariant i == 3 ==> deps == old(deps)
        invariant seen <= legacy.Keys && forall v :: v in seen ==> v < i
        decreases legacy.Keys - seen
      {
        if i - 1 !in legacy {
          return Err(KeyError);
        }
        ghost var before := deps;
        deps := deps[legacy[i] := [legacy[i - 1]]];
        LinkOneMore(before, deps, legacy, i);
        seen := seen + {i};
        i := i + 1;
      }
      return Ok(i);
    }
  }

  /** Version v depends on exactly the version before it. */
  ghost predicate LinkedBelow(deps: Depends, legacy: map<int, Tag>, v: int) {
    v in legacy && v - 1 in legacy && legacy[v] in deps && deps[legacy[v]] == [legacy[v - 1]]
  }

  lemma {:induction false} LinkOneMore(before: Depends, deps: Depends, legacy: map<int, Tag>, i: int)
    requires Injective(legacy) && i in legacy && i - 1 in legacy
    requires deps == before[legacy[i] := [legacy[i - 1]]]
    requires forall v :: 3 <= v < i ==> LinkedBelow(before, legacy, v)
    ensures forall v :: 3 <= v <= i ==> LinkedBelow(deps, legacy, v)
    ensures forall t :: !InChain(legacy, t, i + 1) ==> !InChain(legacy, t, i)
    ensures i >= 3 ==> InChain(legacy, legacy[i], i + 1)
  {
    forall v | 3 <= v <= i
      ensures LinkedBelow(deps, legacy, v)
    {
      assert v < i ==> LinkedBelow(before, legacy, v);
    }
  }

  /** The tag belongs to a version from 3 up to (not including) `top`. */
  ghost predicate InChain(legacy: map<int, Tag>, t: Tag, top: int) {
    exists v :: v in legacy && 3 <= v < top && legacy[v] == t
  }

  /** Legacy versions 3 up to (not including) `top` form a chain of dependences,
      and version `top` does not exist. */
  ghost predicate IsChain(deps: Depends, legacy: map<int, Tag>, top: int) {
    && top >= 3 && top !in legacy
    && forall v :: 3 <= v < top ==> LinkedBelow(deps, legacy, v)
  }

  /** The tags of versions 2 to n. */
  ghost function VersionTags(legacy: map<int, Tag>, n: int): set<Tag> {
    set v | v in legacy && 2 <= v <= n :: legacy[v]
  }

  ghost predicate Injective(legacy: map<int, Tag>) {
    forall v, w :: v in legacy && w in legacy && legacy[v] == legacy[w] ==> v == w
  }

  /** Starting from legacy version n, the remaining versions of the chain are
      upgraded in strictly increasing order: before version w comes every
      version between n and w. */
  lemma {:induction false} LegacyInVersionOrder(deps: Depends, legacy: map<int, Tag>, top: int, n: int,
          applied: seq<Tag>, v: int, w: int, j: nat)
    returns (i: nat)
    requires IsChain(deps, legacy, top) && Injective(legacy) && n >= 2
    requires InOrder(deps, VersionTags(legacy, n), applied)
    requires n < v < w < top && w in legacy && j < |applied| && applied[j] == legacy[w]
    ensures i < j && v in legacy && applied[i] == legacy[v]
    decreases w
  {
    assert LinkedBelow(deps, legacy, w);
    var start := VersionTags(legacy, n);
    InOrderAt(deps, start, applied, j);
    assert legacy[w - 1] in deps[legacy[w]];
    assert legacy[w - 1] !in start;
    var k :| 0 <= k < j && applied[k] == legacy[w - 1];
    if v == w - 1 {
      i := k;
    } else {
      i := LegacyInVersionOrder(deps, legacy, top, n, applied, v, w - 1, k);
    }
  }

  // ---- Processing a file ----

  /** The parts of a checkpoint file the upgrader looks at; `body` stands for the
      rest, as the upgrades that have been applied to it. */
  datatype Checkpoint = Checkpoint(version: Option<int>, globals: Option<Option<string>>, body: seq<Tag>)

  /** The version tags, if the file has a section for them and it holds any. */
  function VersionLine(c: Checkpoint): Option<string> {
    if c.globals.Some? then c.globals.value else None
  }

  datatype Outcome =
    | NothingToDo
    | Written(file: Checkpoint)
    | Aborted
    | NoVersionInformation
    | UnknownVersion
    | NoGlobals

  /** The tags a checkpoint starts from. */
  ghost function StartTags(legacy: map<int, Tag>, c: Checkpoint): set<Tag>
    requires c.version.Some? || VersionLine(c).Some?
  {
    if c.version.Some? then VersionTags(legacy, c.version.value)
    else TagSet(Split(VersionLine(c).value))
  }

  ghost predicate VersionsKnown(legacy: map<int, Tag>, n: int) {
    forall v :: 2 <= v <= n ==> v in legacy
  }

  /** A file that has every known tag and no version number. */
  ghost predicate UpToDate(deps: Depends, c: Checkpoint) {
    c.version.None? && VersionLine(c).Some? && deps.Keys <= TagSet(Split(VersionLine(c).value))
  }

  /** Converts a legacy version number to the tags of its chain. */
  method LegacyTags(legacy: map<int, Tag>, n: int) returns (r: Result<set<Tag>, LoadError>)
    ensures r.Ok? <==> VersionsKnown(legacy, n)
    ensures r.Ok? ==> r.value == VersionTags(legacy, n)
  {
    var tags: set<Tag> := {};
    var i := 2;
    while i <= n
      invariant 2 <= i && forall v :: 2 <= v < i ==> v in legacy
      invariant i <= n + 1 || i == 2
      invariant tags == VersionTags(legacy, i - 1)
    {
      if i !in legacy {
        return Err(KeyError);
      }
      assert VersionTags(legacy, i) == VersionTags(legacy, i - 1) + {legacy[i]};
      tags := tags + {legacy[i]};
      i := i + 1;
    }
    assert VersionTags(legacy, i - 1) == VersionTags(legacy, n);
    return Ok(tags);
  }

  /** The tags as one line of text, in any order. */
  method TagLine(tags: set<Tag>) returns (line: string)
    requires forall t :: t in tags ==> IsWord(t)
    ensures TagSet(Split(line)) == tags
  {
    var left := tags;
    var words: seq<string> := [];
    while left != {}
      invariant left <= tags && TagSet(words) == tags - left
      decreases left
    {
      var t :| t in left;
      assert TagSet(words + [t]) == TagSet(words) + {t};
      left := left - {t};
      words := words + [t];
    }
    forall w | w in words
      ensures IsWord(w)
    {
      assert w in TagSet(words);
    }
    SplitOfJoin(words);
    line := Join(words);
  }

  /** Upgrades one checkpoint.  Known tags are words, as their files' names are. */
  method ProcessFile(deps: Depends, legacy: map<int, Tag>, c: Checkpoint) returns (r: Outcome, ghost applied: seq<Tag>)
    requires forall t :: t in deps ==> IsWord(t)
    requires forall v :: v in legacy ==> legacy[v] in deps
    ensures r.NoVersionInformation? <==> c.version.None? && VersionLine(c).None?
    ensures r.UnknownVersion? <==> c.version.Some? && !VersionsKnown(legacy, c.version.value)
    ensures r.NothingToDo? <==> UpToDate(deps, c)
    ensures r.Aborted? || r.NoGlobals? || r.Written? ==>
      InOrder(deps, StartTags(legacy, c), applied)
      && IsLeast(deps, StartTags(legacy, c), StartTags(legacy, c) + TagSet(applied))
    ensures r.Aborted? ==> !(deps.Keys <= StartTags(legacy, c) + TagSet(applied))
    ensures r.NoGlobals? ==> c.globals.None? && deps.Keys <= StartTags(legacy, c) + TagSet(applied)
    ensures r.Written? ==> c.globals.Some? && UpToDate(deps, r.file) && r.file.body == c.body + applied
    ensures r.Written? ==> TagSet(Split(VersionLine(r.file).value)) == StartTags(legacy, c) + TagSet(applied)
  {
    applied := [];
    var change := false;
    var tags: set<Tag>;
    if c.version.Some? {
      var conv := LegacyTags(legacy, c.version.value);
      if conv.Err? {
        return UnknownVersion, applied;
      }
      tags := conv.value;
      change := true;
    } else if VersionLine(c).Some? {
      SplitGivesWords(VersionLine(c).value);
      tags := set t | t in Split(VersionLine(c).value);
    } else {
      return NoVersionInformation, applied;
    }
    var ok, all, order := Resolve(deps, tags);
    applied := order;
    if !ok {
      return Aborted, applied;
    }
    AppliedWereMissing(deps, tags, order);
    if order != [] {
      assert order[0] in order;
      change := true;
    }
    if !change {
      return NothingToDo, applied;
    }
    if c.globals.None? {
      return NoGlobals, applied;
    }
    var line := TagLine(all);
    return Written(Checkpoint(None, Some(Some(line)), c.body + order)), applied;
  }

  /** Running the upgrader on its own output does nothing. */
  method ProcessTwice(deps: Depends, legacy: map<int, Tag>, c: Checkpoint) returns (first: Outcome, second: Outcome)
    requires forall t :: t in deps ==> IsWord(t)
    requires forall v :: v in legacy ==> legacy[v] in deps
    ensures first.Written? ==> second == NothingToDo
    ensures !first.Written? ==> second == first
  {
    ghost var applied, again;
    first, applied := ProcessFile(deps, legacy, c);
    second := first;
    if first.Written? {
      second, again := ProcessFile(deps, legacy, first.file);
    }
  }
}
