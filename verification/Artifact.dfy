/** The artifact directory: what a partial one holds, when it is finished, and the check it must pass. */
module Artifact {
  import opened Bytes
  import opened ExportLayout
  import opened FileNames
  import opened Options
  import opened PlanFacts
  import opened ShardWriter
  import opened Storage
  import opened StreamShard

  /** What the plan file freezes. Source fingerprints stand for the sources' contents. */
  datatype Frozen = Frozen(root: string, entries: map<string, Source>, layout: Plan, documents: map<string, seq<Byte>>,
    sources: map<string, seq<Byte>>)

  const INDEX: string := "model.safetensors.index.json"

  // ---------- the artifact ----------

  function PathOf(root: string, f: FileName): string {
    In(root, Render(f))
  }

  /** All documents of the artifact, the index among them. */
  function Documents(f: Frozen, index: Plan -> seq<Byte>): map<string, seq<Byte>> {
    f.documents[INDEX := index(f.layout)]
  }

  ghost predicate Wellformed(f: Frozen) {
    && Consecutive(f.layout.files) && Isolated(f.layout.files)
    && (forall g, n :: g in f.layout.files && n in f.layout.files[g] ==> n in f.entries)
    && (forall d :: d in f.documents ==> !IsShardName(d) && d != INDEX)
    && (forall n :: n in f.entries ==> !Under(f.root, f.entries[n].path))
  }

  predicate IsShardPath(f: Frozen, p: string) {
    exists g :: g in f.layout.files && p == PathOf(f.root, g)
  }

  predicate IsDocumentPath(f: Frozen, index: Plan -> seq<Byte>, p: string) {
    exists d :: d in Documents(f, index) && p == In(f.root, d)
  }

  function PlannedPaths(f: Frozen, index: Plan -> seq<Byte>): (r: set<string>)
    ensures forall p :: p in r <==> IsShardPath(f, p) || IsDocumentPath(f, index, p)
  {
    (set g | g in f.layout.files :: PathOf(f.root, g)) + (set d | d in Documents(f, index) :: In(f.root, d))
  }

  /** Only planned names are in the artifact directory. */
  predicate NoForeign(files: map<string, seq<Byte>>, f: Frozen, index: Plan -> seq<Byte>) {
    forall p :: p in files && Under(f.root, p) ==> IsShardPath(f, p) || IsDocumentPath(f, index, p)
  }

  /** The same, up to temporaries that were left behind. */
  ghost predicate OnlyLeftovers(files: Files, f: Frozen, index: Plan -> seq<Byte>, left: set<string>) {
    forall p :: p in files && Under(f.root, p) ==> IsShardPath(f, p) || IsDocumentPath(f, index, p) || p in left
  }

  /** What is there under a planned name is right: shards hold their tensors, documents say what the plan
      says. */
  ghost predicate Rightful(files: map<string, seq<Byte>>, f: Frozen, index: Plan -> seq<Byte>, decode: seq<Byte> -> Option<seq<Entry>>)
    requires Wellformed(f)
  {
    && (forall g :: g in f.layout.files && PathOf(f.root, g) in files ==>
          ShardHolds(f.sources, files[PathOf(f.root, g)], decode, f.layout.files[g], f.entries))
    && (forall d :: d in Documents(f, index) && In(f.root, d) in files ==> files[In(f.root, d)] == Documents(f, index)[d])
  }

  /** Whatever is in the artifact directory belongs there. */
  ghost predicate Partial(files: map<string, seq<Byte>>, f: Frozen, index: Plan -> seq<Byte>, decode: seq<Byte> -> Option<seq<Entry>>)
    requires Wellformed(f)
  {
    NoForeign(files, f, index) && Rightful(files, f, index, decode)
  }

  /** The artifact is complete: nothing is missing and nothing else is there. */
  ghost predicate Finished(files: map<string, seq<Byte>>, f: Frozen, index: Plan -> seq<Byte>, decode: seq<Byte> -> Option<seq<Entry>>)
    requires Wellformed(f)
  {
    && Partial(files, f, index, decode)
    && (forall g :: g in f.layout.files ==> PathOf(f.root, g) in files)
    && (forall d :: d in Documents(f, index) ==> In(f.root, d) in files)
  }

  /** The disk has grown by planned files, and by temporaries that were left beside them. */
  ghost predicate Extends(f: Frozen, index: Plan -> seq<Byte>, before: Files, left: set<string>, after: Files, leftAfter: set<string>) {
    && Kept(before, after) && left <= leftAfter
    && (forall p :: p in after && p !in before ==> p in PlannedPaths(f, index) || p in leftAfter - left)
    && (forall t :: t in leftAfter - left ==> Under(f.root, t) && t !in PlannedPaths(f, index) && t in after && t !in before)
  }

  lemma ExtendsOn(f: Frozen, index: Plan -> seq<Byte>, a: Files, la: set<string>, b: Files, lb: set<string>, c: Files, lc: set<string>)
    requires Extends(f, index, a, la, b, lb) && Extends(f, index, b, lb, c, lc)
    ensures Extends(f, index, a, la, c, lc) && Kept(b, c)
  {
    hide PlannedPaths, Under;
  }

  lemma ExtendsItself(f: Frozen, index: Plan -> seq<Byte>, files: Files, left: set<string>)
    ensures Extends(f, index, files, left, files, left)
  {
    hide PlannedPaths;
  }

  lemma ExtendingStaysApart(f: Frozen, index: Plan -> seq<Byte>, before: Files, left: set<string>, after: Files, leftAfter: set<string>)
    requires Extends(f, index, before, left, after, leftAfter) && NotPlanned(f, index, left) && left <= before.Keys
    ensures NotPlanned(f, index, leftAfter) && leftAfter <= after.Keys
  {
    hide PlannedPaths, Under;
  }

  lemma NoForeignNoLeftovers(files: Files, f: Frozen, index: Plan -> seq<Byte>, left: set<string>)
    requires NoForeign(files, f, index)
    ensures OnlyLeftovers(files, f, index, left)
  {
    hide IsShardPath, IsDocumentPath, Under;
  }

  /** Growing keeps everything outside, and brings in nothing foreign but the temporaries. */
  lemma ExtendingKeeps(f: Frozen, index: Plan -> seq<Byte>, before: Files, left: set<string>, after: Files, leftAfter: set<string>)
    requires Extends(f, index, before, left, after, leftAfter)
    ensures Kept(before, after) && SameOutside(before, after, f.root) && left <= leftAfter
    ensures left == leftAfter && NoForeign(before, f, index) ==> NoForeign(after, f, index)
    ensures OnlyLeftovers(before, f, index, left) ==> OnlyLeftovers(after, f, index, leftAfter)
    ensures Agree(before, f.sources, f.entries) ==> Agree(after, f.sources, f.entries)
  {
    hide PlannedPaths, In, PathOf;
    forall q | !Under(f.root, q) ensures q in after ==> q in before {
      if q in after && q !in before && (IsShardPath(f, q) || IsDocumentPath(f, index, q)) {
        PlannedIsUnder(f, index, q);
      }
    }
  }

  /** Temporaries that were left in the directory are not taken for planned files. */
  ghost predicate NotPlanned(f: Frozen, index: Plan -> seq<Byte>, left: set<string>) {
    forall t :: t in left && Under(f.root, t) ==> t !in PlannedPaths(f, index)
  }

  /** A shard that may be linked, and so needs no temporary. */
  ghost predicate Linkable(f: Frozen, p: string) {
    exists g :: g in f.layout.files && p == PathOf(f.root, g) && (forall n :: n in f.layout.files[g] ==> n in f.entries)
      && SingleSource(f.layout.files[g], f.entries).Some?
  }

  /** Where the process died: at a planned file, leaving its temporary if it had one. */
  ghost predicate DiedAt(f: Frozen, index: Plan -> seq<Byte>, files: Files, left: set<string>, after: set<string>, fates: string -> Fate, p: string) {
    && p in PlannedPaths(f, index) && !fates(p).Finishes?
    && (after == left + Remnant(files, p, PlannedPaths(f, index), fates(p)) || (Linkable(f, p) && after == left))
  }

  ghost predicate Died(f: Frozen, index: Plan -> seq<Byte>, files: Files, left: set<string>, after: set<string>, fates: string -> Fate) {
    exists p :: DiedAt(f, index, files, left, after, fates, p)
  }

  lemma SomebodyDied(f: Frozen, index: Plan -> seq<Byte>, files: Files, left: set<string>, after: set<string>, fates: string -> Fate)
    requires Died(f, index, files, left, after, fates)
    ensures exists p :: !fates(p).Finishes?
  {
    hide PlannedPaths, Remnant;
  }

  lemma DiedLater(f: Frozen, index: Plan -> seq<Byte>, a: Files, b: Files, left: set<string>, after: set<string>, fates: string -> Fate)
    requires Extends(f, index, a, left, b, left) && Died(f, index, b, left, after, fates)
    ensures Died(f, index, a, left, after, fates)
  {
    hide PlannedPaths, TemporaryPath;
    var p :| DiedAt(f, index, b, left, after, fates, p);
    assert DiedAt(f, index, a, left, after, fates, p);
  }

  /** Strays under no planned name change nothing that is planned. */
  lemma StraysDoNoHarm(before: Files, after: Files, f: Frozen, index: Plan -> seq<Byte>, decode: seq<Byte> -> Option<seq<Entry>>, strays: set<string>)
    requires Wellformed(f) && Rightful(before, f, index, decode) && Strays(before, after, strays) && strays !! PlannedPaths(f, index)
    ensures Rightful(after, f, index, decode)
  {
    hide ShardHolds, Documents, PathOf, In, Wellformed;
    forall g | g in f.layout.files ensures PathOf(f.root, g) !in strays {
      assert IsShardPath(f, PathOf(f.root, g));
    }
    forall d | d in Documents(f, index) ensures In(f.root, d) !in strays {
      assert IsDocumentPath(f, index, In(f.root, d));
    }
  }

  /** No document is planned under this name. */
  ghost predicate NotADocument(f: Frozen, p: string) {
    forall d :: d in f.documents ==> In(f.root, d) != p
  }

  lemma TemporaryIsUnplanned(f: Frozen, index: Plan -> seq<Byte>, p: string, word: string)
    requires NotADocument(f, TemporaryPath(p, word))
    ensures TemporaryPath(p, word) !in PlannedPaths(f, index)
  {
    hide PlannedPaths, PathOf, TemporaryPath;
    forall g | g in f.layout.files ensures TemporaryPath(p, word) != PathOf(f.root, g) {
      TemporaryIsNoShardPath(f.root, g, p, word);
    }
    IndexIsNoTemporary(f.root, p, word);
  }

  lemma TemporaryIsNoShardPath(root: string, g: FileName, p: string, word: string)
    ensures TemporaryPath(p, word) != PathOf(root, g)
  {
    hide TemporaryPath, Render;
    TemporaryIsNoShard(p, word);
    RenderedIsShardName(g);
  }

  lemma IndexIsNoTemporary(root: string, p: string, word: string)
    ensures TemporaryPath(p, word) != In(root, INDEX)
  {
    var t, i := TemporaryPath(p, word), In(root, INDEX);
    assert t[|t| - 1] == 'l' && i[|i| - 1] == 'n';
  }

  /** Shard and document paths never collide. */
  lemma PathsDiffer(f: Frozen, g: FileName, d: string, index: Plan -> seq<Byte>)
    requires Wellformed(f) && d in Documents(f, index)
    ensures PathOf(f.root, g) != In(f.root, d)
  {
    RenderedIsShardName(g);
    InIsInjective(f.root, Render(g), d);
    assert INDEX[|INDEX| - 12..] == "s.index.json";
  }

  /** A written shard joins the artifact. */
  lemma ShardJoins(before: map<string, seq<Byte>>, after: map<string, seq<Byte>>, f: Frozen, index: Plan -> seq<Byte>,
      decode: seq<Byte> -> Option<seq<Entry>>, g: FileName)
    requires Wellformed(f) && Rightful(before, f, index, decode) && Agree(before, f.sources, f.entries) && g in f.layout.files
    requires Placed(before, after, PathOf(f.root, g), decode, f.layout.files[g], f.entries)
    ensures Rightful(after, f, index, decode) && Agree(after, f.sources, f.entries)
    ensures NoForeign(before, f, index) ==> NoForeign(after, f, index)
  {
    hide ShardHolds, Render;
    InIsInjective(f.root, Render(g), Render(g));
    HoldsFrame(before, f.sources, after[PathOf(f.root, g)], decode, f.layout.files[g], f.entries);
    forall h | h in f.layout.files && h != g ensures PathOf(f.root, h) != PathOf(f.root, g) {
      InIsInjective(f.root, Render(h), Render(g));
      if Render(h) == Render(g) {
        RenderIsInjective(h, g);
      }
    }
    forall d | d in Documents(f, index) ensures PathOf(f.root, g) != In(f.root, d) {
      PathsDiffer(f, g, d, index);
    }
    assert IsShardPath(f, PathOf(f.root, g));
  }

  /** So does one whose writer died, with or without the shard. */
  lemma ShardMayJoin(before: Files, left: set<string>, after: Files, f: Frozen, index: Plan -> seq<Byte>,
      decode: seq<Byte> -> Option<seq<Entry>>, g: FileName, strays: set<string>)
    requires Wellformed(f) && Rightful(before, f, index, decode) && Agree(before, f.sources, f.entries) && g in f.layout.files
    requires PathOf(f.root, g) !in before && strays !! PlannedPaths(f, index) && forall t :: t in strays ==> Under(f.root, t)
    requires PlacedOrNot(before, after, PathOf(f.root, g), decode, f.layout.files[g], f.entries, strays) && left <= before.Keys
    ensures Rightful(after, f, index, decode) && Extends(f, index, before, left, after, left + strays)
  {
    hide ShardHolds, Wellformed, Rightful, Agree, PathOf, PlannedPaths, Under;
    var destination := PathOf(f.root, g);
    assert IsShardPath(f, destination);
    if Strays(before, after, strays) {
      StraysDoNoHarm(before, after, f, index, decode, strays);
    } else {
      var placed := before[destination := after[destination]];
      ShardJoins(before, placed, f, index, decode, g);
      StraysDoNoHarm(placed, after, f, index, decode, strays);
    }
  }

  /** A published document joins the artifact. */
  lemma DocumentJoins(before: map<string, seq<Byte>>, f: Frozen, index: Plan -> seq<Byte>, decode: seq<Byte> -> Option<seq<Entry>>, d: string)
    requires Wellformed(f) && Rightful(before, f, index, decode) && Agree(before, f.sources, f.entries) && d in Documents(f, index)
    ensures var after := before[In(f.root, d) := Documents(f, index)[d]];
      Rightful(after, f, index, decode) && Agree(after, f.sources, f.entries) && (NoForeign(before, f, index) ==> NoForeign(after, f, index))
  {
    hide ShardHolds, Render;
    InIsInjective(f.root, d, d);
    forall e | e in Documents(f, index) && e != d ensures In(f.root, e) != In(f.root, d) {
      InIsInjective(f.root, e, d);
    }
    forall g | g in f.layout.files ensures PathOf(f.root, g) != In(f.root, d) {
      PathsDiffer(f, g, d, index);
    }
    assert IsDocumentPath(f, index, In(f.root, d));
  }

  /** So does one whose writer died, with or without the document. */
  lemma DocumentMayJoin(before: Files, left: set<string>, after: Files, f: Frozen, index: Plan -> seq<Byte>,
      decode: seq<Byte> -> Option<seq<Entry>>, d: string, fate: Fate)
    requires Wellformed(f) && Rightful(before, f, index, decode) && Agree(before, f.sources, f.entries) && d in Documents(f, index)
    requires In(f.root, d) !in before && left <= before.Keys
    requires Through(before, after, In(f.root, d), Documents(f, index)[d], PlannedPaths(f, index), fate)
    ensures Rightful(after, f, index, decode)
    ensures Extends(f, index, before, left, after, left + Remnant(before, In(f.root, d), PlannedPaths(f, index), fate))
  {
    hide Wellformed, Rightful, Agree, PathOf, PlannedPaths, Documents, Remnant;
    var path := In(f.root, d);
    assert IsDocumentPath(f, index, path);
    InIsInjective(f.root, d, d);
    RemnantIsBeside(before, path, PlannedPaths(f, index), fate, f.root);
    var placed := if Places(before, path, PlannedPaths(f, index), fate) then before[path := Documents(f, index)[d]] else before;
    DocumentJoins(before, f, index, decode, d);
    StraysDoNoHarm(placed, after, f, index, decode, Remnant(before, path, PlannedPaths(f, index), fate));
  }

  // ---------- the finished artifact verifies ----------

  function TensorsOf(names: seq<string>, entries: map<string, Source>): (r: seq<Tensor>)
    requires forall n :: n in names ==> n in entries
    ensures |r| == |names| && forall i :: 0 <= i < |r| ==> r[i] == Tensor(names[i], entries[names[i]].bytes)
  {
    seq(|names|, i requires 0 <= i < |names| => Tensor(names[i], entries[names[i]].bytes))
  }

  function BytesOf(entries: map<string, Source>): (r: map<string, int>)
    ensures forall n :: n in r <==> n in entries
  {
    map n | n in entries :: entries[n].bytes
  }

  /** The names are the inventory's keys, in some order. */
  ghost predicate KeysOf(names: seq<string>, entries: map<string, Source>) {
    DistinctStrings(names) && forall n :: n in names <==> n in entries
  }

  /** Every planned tensor has an inventory entry. */
  ghost predicate Known(f: Frozen) {
    forall g, n :: g in f.layout.files && n in f.layout.files[g] ==> n in f.entries
  }

  /** What `verify_files` accepts. */
  ghost predicate ArtifactVerifies(files: map<string, seq<Byte>>, f: Frozen, index: Plan -> seq<Byte>, decode: seq<Byte> -> Option<seq<Entry>>)
    requires Consecutive(f.layout.files) && Known(f)
  {
    && OnlyPlanned(files, f, index)
    && (forall d :: d in Documents(f, index) ==> In(f.root, d) in files && files[In(f.root, d)] == Documents(f, index)[d])
    && (forall g :: g in f.layout.files ==> FileVerifies(files, f, decode, g))
    && CoversInventory(f) && f.layout.total == PlanSize(f.layout, BytesOf(f.entries), |f.layout.files|)
  }

  /** The directory holds the planned files and no others. */
  ghost predicate OnlyPlanned(files: map<string, seq<Byte>>, f: Frozen, index: Plan -> seq<Byte>) {
    forall p :: Under(f.root, p) ==> (p in files <==> IsShardPath(f, p) || IsDocumentPath(f, index, p))
  }

  /** The shards, and the index's weight map, cover exactly the inventory. */
  ghost predicate CoversInventory(f: Frozen) {
    && (forall n :: n in f.entries <==> n in f.layout.weightMap)
    && (forall n :: n in f.entries ==> exists g :: g in f.layout.files && n in f.layout.files[g])
  }

  ghost predicate FileVerifies(files: map<string, seq<Byte>>, f: Frozen, decode: seq<Byte> -> Option<seq<Entry>>, g: FileName)
    requires Known(f) && g in f.layout.files
  {
    && OneGroup(f.layout.files[g]) && PathOf(f.root, g) in files
    && (forall n :: n in f.layout.files[g] ==> n in f.layout.weightMap && f.layout.weightMap[n] == g)
    && ShardVerifies(files[PathOf(f.root, g)], decode, f.layout.files[g], f.entries)
  }

  /** A finished artifact of a matching inventory passes. */
  lemma FinishedVerifies(files: map<string, seq<Byte>>, f: Frozen, index: Plan -> seq<Byte>, decode: seq<Byte> -> Option<seq<Entry>>,
      names: seq<string>, target: int)
    requires Wellformed(f) && Finished(files, f, index, decode) && Matches(f.sources, decode, f.entries) && KeysOf(names, f.entries)
    requires Acceptable(TensorsOf(names, f.entries), target) && Planned(TensorsOf(names, f.entries), target, f.layout)
    ensures Known(f) && ArtifactVerifies(files, f, index, decode)
  {
    hide Acceptable, Planned, OneGroup, ShardHolds, ShardVerifies, Matches, Render, Documents, PlanSize, Known, KeysOf, OnlyPlanned, CoversInventory,
      FileVerifies, Isolated, Inverse;
    LayoutReads(f, names, target);
    OnlyPlannedFiles(files, f, index, decode);
    forall g | g in f.layout.files ensures FileVerifies(files, f, decode, g) {
      ShardIsThere(files, f, index, decode, g);
      EachFileVerifies(files, f, decode, g);
    }
  }

  lemma OnlyPlannedFiles(files: map<string, seq<Byte>>, f: Frozen, index: Plan -> seq<Byte>, decode: seq<Byte> -> Option<seq<Entry>>)
    requires Wellformed(f) && Finished(files, f, index, decode)
    ensures OnlyPlanned(files, f, index)
  {
    hide Documents, Render, ShardHolds, Isolated;
  }

  lemma ShardIsThere(files: map<string, seq<Byte>>, f: Frozen, index: Plan -> seq<Byte>, decode: seq<Byte> -> Option<seq<Entry>>, g: FileName)
    requires Wellformed(f) && Finished(files, f, index, decode) && g in f.layout.files
    ensures (forall n :: n in f.layout.files[g] ==> n in f.entries) && PathOf(f.root, g) in files
    ensures ShardHolds(f.sources, files[PathOf(f.root, g)], decode, f.layout.files[g], f.entries)
  {
    hide ShardHolds, Documents, PathOf, In, Isolated, Consecutive;
  }

  lemma EachFileVerifies(files: map<string, seq<Byte>>, f: Frozen, decode: seq<Byte> -> Option<seq<Entry>>, g: FileName)
    requires Isolated(f.layout.files) && Inverse(f.layout) && Known(f) && g in f.layout.files && Matches(f.sources, decode, f.entries)
    requires PathOf(f.root, g) in files && ShardHolds(f.sources, files[PathOf(f.root, g)], decode, f.layout.files[g], f.entries)
    ensures FileVerifies(files, f, decode, g)
  {
    hide OneGroup, ShardHolds, ShardVerifies, Matches, PathOf, DistinctStrings;
    HoldingVerifies(f.sources, files[PathOf(f.root, g)], decode, f.layout.files[g], f.entries);
  }

  lemma LayoutReads(f: Frozen, names: seq<string>, target: int)
    requires KeysOf(names, f.entries)
    requires Acceptable(TensorsOf(names, f.entries), target) && Planned(TensorsOf(names, f.entries), target, f.layout)
    ensures Consecutive(f.layout.files) && Isolated(f.layout.files) && Inverse(f.layout) && Known(f) && CoversInventory(f)
    ensures f.layout.total == PlanSize(f.layout, BytesOf(f.entries), |f.layout.files|)
  {
    var tensors := TensorsOf(names, f.entries);
    hide Acceptable, Planned, PlanSize, Consecutive, Isolated, NamesOf, KeysOf, Keyed, Priced, Inverse, AllPriced, Known, CoversInventory, BytesOf, TensorsOf;
    TensorsAreKeyed(names, f.entries);
    PlanIsWellLaid(tensors, target, f.layout, BytesOf(f.entries));
    LaidOutCovers(f, tensors);
  }

  lemma LaidOutCovers(f: Frozen, tensors: seq<Tensor>)
    requires Inverse(f.layout) && AllPriced(f.layout, BytesOf(f.entries))
    requires forall n :: n in f.layout.weightMap <==> n in NamesOf(tensors)
    requires forall n :: n in NamesOf(tensors) <==> n in f.entries
    ensures Known(f) && CoversInventory(f)
  {
    hide NamesOf;
  }

  lemma TensorsAreKeyed(names: seq<string>, entries: map<string, Source>)
    requires KeysOf(names, entries)
    ensures Keyed(TensorsOf(names, entries)) && Priced(TensorsOf(names, entries), BytesOf(entries))
    ensures forall n :: n in NamesOf(TensorsOf(names, entries)) <==> n in entries
  {
    var tensors := TensorsOf(names, entries);
    forall n | n in entries ensures n in NamesOf(tensors) {
      var i :| 0 <= i < |names| && names[i] == n;
      assert tensors[i].name == n && tensors[i] in tensors;
    }
  }

  // ---------- the check ----------

  /** The part of the check that reads files `1..n`. */
  ghost predicate CheckedUpTo(files: map<string, seq<Byte>>, f: Frozen, decode: seq<Byte> -> Option<seq<Entry>>, n: nat)
    requires Known(f)
  {
    forall g :: g in f.layout.files && g.ordinal <= n ==> FileVerifies(files, f, decode, g)
  }

  /** The tensors in files `1..n`. */
  ghost predicate CoveredUpTo(f: Frozen, covered: set<string>, n: nat) {
    forall name :: name in covered <==> exists g :: g in f.layout.files && g.ordinal <= n && name in f.layout.files[g]
  }

  /** `verify_files` on one shard. */
  method VerifyFile(files: map<string, seq<Byte>>, f: Frozen, decode: seq<Byte> -> Option<seq<Entry>>, g: FileName) returns (ok: bool)
    requires Known(f) && g in f.layout.files
    ensures ok <==> FileVerifies(files, f, decode, g)
  {
    hide ShardVerifies, Render, TensorGroup;
    var names := f.layout.files[g];
    if !OneGroup(names) || PathOf(f.root, g) !in files {
      return false;
    }
    if exists n :: n in names && (n !in f.layout.weightMap || f.layout.weightMap[n] != g) {
      return false;
    }
    ok := VerifyShard(files[PathOf(f.root, g)], decode, names, f.entries);
  }

  /** `verify_files` */
  method VerifyFiles(files: map<string, seq<Byte>>, f: Frozen, index: Plan -> seq<Byte>, decode: seq<Byte> -> Option<seq<Entry>>)
    returns (ok: bool)
    requires Consecutive(f.layout.files) && Known(f)
    ensures ok <==> ArtifactVerifies(files, f, index, decode)
  {
    hide FileVerifies, PlanSize, Documents, OnlyPlanned, CoversInventory, CoveredUpTo, CheckedUpTo, NamesSize, PathOf, In, Under, PlannedPaths;
    var documents := Documents(f, index);
    OnlyPlannedBySets(files, f, index);
    var actual := set p | p in files && Under(f.root, p);
    var expected := PlannedPaths(f, index);
    if actual != expected {
      return false;
    }
    if exists d :: d in documents && (In(f.root, d) !in files || files[In(f.root, d)] != documents[d]) {
      return false;
    }
    var covered: set<string>, payload, k := {}, 0, 0;
    NothingCovered(files, f, decode);
    while k < |f.layout.files|
      invariant 0 <= k <= |f.layout.files| && payload == PlanSize(f.layout, BytesOf(f.entries), k)
      invariant CoveredUpTo(f, covered, k) && CheckedUpTo(files, f, decode, k)
    {
      var g := FileName(k + 1, |f.layout.files|);
      var verified := VerifyFile(files, f, decode, g);
      NextFile(files, f, decode, covered, k);
      if !verified {
        return false;
      }
      covered := covered + set n | n in f.layout.files[g];
      payload := payload + NamesSize(f.layout.files[g], BytesOf(f.entries));
      assert payload == PlanSize(f.layout, BytesOf(f.entries), k + 1) by {
        SizeOfNext(f, k);
      }
      k := k + 1;
    }
    AllFiles(files, f, decode, covered);
    ok := covered == f.entries.Keys && covered == f.layout.weightMap.Keys && f.layout.total == payload;
  }

  lemma SizeOfNext(f: Frozen, k: nat)
    requires Consecutive(f.layout.files) && Known(f) && k < |f.layout.files|
    ensures FileName(k + 1, |f.layout.files|) in f.layout.files
    ensures PlanSize(f.layout, BytesOf(f.entries), k + 1)
         == PlanSize(f.layout, BytesOf(f.entries), k) + NamesSize(f.layout.files[FileName(k + 1, |f.layout.files|)], BytesOf(f.entries))
  {
    hide NamesSize;
  }

  lemma OnlyPlannedBySets(files: map<string, seq<Byte>>, f: Frozen, index: Plan -> seq<Byte>)
    ensures (set p | p in files && Under(f.root, p)) == PlannedPaths(f, index) <==> OnlyPlanned(files, f, index)
  {
    hide Documents, Render, PlannedPaths;
    var actual := set p | p in files && Under(f.root, p);
    var expected := PlannedPaths(f, index);
    forall p | p in expected ensures Under(f.root, p) {
      PlannedIsUnder(f, index, p);
    }
    hide IsShardPath, IsDocumentPath, In, PathOf;
    if OnlyPlanned(files, f, index) {
      assert actual == expected;
    }
    if actual == expected {
      forall p | Under(f.root, p) ensures p in files <==> IsShardPath(f, p) || IsDocumentPath(f, index, p) {
        assert p in actual <==> p in expected;
      }
    }
  }

  lemma PlannedIsUnder(f: Frozen, index: Plan -> seq<Byte>, p: string)
    requires IsShardPath(f, p) || IsDocumentPath(f, index, p)
    ensures Under(f.root, p)
  {
    hide Documents, Render;
    if IsShardPath(f, p) {
      var g :| g in f.layout.files && p == PathOf(f.root, g);
      InIsInjective(f.root, Render(g), Render(g));
    } else {
      var d :| d in Documents(f, index) && p == In(f.root, d);
      InIsInjective(f.root, d, d);
    }
  }

  lemma NothingCovered(files: map<string, seq<Byte>>, f: Frozen, decode: seq<Byte> -> Option<seq<Entry>>)
    requires Consecutive(f.layout.files) && Known(f)
    ensures CoveredUpTo(f, {}, 0) && CheckedUpTo(files, f, decode, 0) && PlanSize(f.layout, BytesOf(f.entries), 0) == 0
  {
    hide FileVerifies;
  }

  lemma NextFile(files: map<string, seq<Byte>>, f: Frozen, decode: seq<Byte> -> Option<seq<Entry>>, covered: set<string>, k: nat)
    requires Consecutive(f.layout.files) && Known(f) && k < |f.layout.files|
    requires CoveredUpTo(f, covered, k) && CheckedUpTo(files, f, decode, k)
    ensures var g := FileName(k + 1, |f.layout.files|);
      && g in f.layout.files && CoveredUpTo(f, covered + (set n | n in f.layout.files[g]), k + 1)
      && (FileVerifies(files, f, decode, g) ==> CheckedUpTo(files, f, decode, k + 1))
  {
    hide FileVerifies;
    var g := FileName(k + 1, |f.layout.files|);
    assert g in f.layout.files;
    forall h | h in f.layout.files && h.ordinal <= k + 1 ensures h.ordinal <= k || h == g {
    }
    var next := covered + set n | n in f.layout.files[g];
    forall name ensures name in next <==> exists h :: h in f.layout.files && h.ordinal <= k + 1 && name in f.layout.files[h] {
      if name in covered {
        var h :| h in f.layout.files && h.ordinal <= k && name in f.layout.files[h];
        assert h.ordinal <= k + 1;
      } else if name in f.layout.files[g] {
        assert g.ordinal <= k + 1;
      }
    }
  }

  lemma AllFiles(files: map<string, seq<Byte>>, f: Frozen, decode: seq<Byte> -> Option<seq<Entry>>, covered: set<string>)
    requires Consecutive(f.layout.files) && Known(f) && CoveredUpTo(f, covered, |f.layout.files|)
    requires CheckedUpTo(files, f, decode, |f.layout.files|)
    ensures forall g :: g in f.layout.files ==> FileVerifies(files, f, decode, g)
    ensures covered == f.entries.Keys && covered == f.layout.weightMap.Keys <==> CoversInventory(f)
  {
    hide FileVerifies;
    if CoversInventory(f) {
      forall n ensures n in covered <==> n in f.entries {
        if n in f.entries {
          var g :| g in f.layout.files && n in f.layout.files[g];
          assert g.ordinal <= |f.layout.files|;
        }
      }
      assert covered == f.entries.Keys;
    }
    if covered == f.entries.Keys {
      forall n | n in f.entries ensures exists g :: g in f.layout.files && n in f.layout.files[g] {
        assert n in covered;
      }
    }
  }

  // ---------- what an artifact carries ----------

  /** The directory holds every tensor of the inventory as its source has it, every document, the index, and
      nothing else. */
  ghost predicate Carries(files: Files, sources: Files, root: string, entries: map<string, Source>, documents: map<string, seq<Byte>>,
      layout: Plan, index: Plan -> seq<Byte>, decode: seq<Byte> -> Option<seq<Entry>>)
  {
    && (forall n :: n in entries ==> CarriesTensor(files, sources, root, entries[n], layout, decode, n))
    && CarriesDocuments(files, root, documents, layout, index) && CarriesNothingElse(files, root, entries, documents, layout)
  }

  ghost predicate CarriesDocuments(files: Files, root: string, documents: map<string, seq<Byte>>, layout: Plan, index: Plan -> seq<Byte>) {
    && (forall d :: d in documents ==> d != "model.safetensors.index.json" && root + "/" + d in files && files[root + "/" + d] == documents[d])
    && root + "/" + "model.safetensors.index.json" in files && files[root + "/" + "model.safetensors.index.json"] == index(layout)
  }

  ghost predicate CarriesNothingElse(files: Files, root: string, entries: map<string, Source>, documents: map<string, seq<Byte>>, layout: Plan) {
    forall p :: p in files && root + "/" <= p ==>
      || p == root + "/" + "model.safetensors.index.json" || (exists d :: d in documents && p == root + "/" + d)
      || exists n :: n in entries && n in layout.weightMap && p == root + "/" + Render(layout.weightMap[n])
  }

  ghost predicate CarriesTensor(files: Files, sources: Files, root: string, source: Source, layout: Plan, decode: seq<Byte> -> Option<seq<Entry>>,
      n: string)
  {
    && n in layout.weightMap && source.path in sources
    && var p := root + "/" + Render(layout.weightMap[n]);
      p in files && Read(files[p], decode, n).Some? && Read(files[p], decode, n) == Read(sources[source.path], decode, source.tensor)
  }

  lemma ShardOf(files: Files, f: Frozen, index: Plan -> seq<Byte>, decode: seq<Byte> -> Option<seq<Entry>>, n: string) returns (g: FileName)
    requires Wellformed(f) && Finished(files, f, index, decode) && Known(f) && ArtifactVerifies(files, f, index, decode) && n in f.entries
    ensures g in f.layout.files && n in f.layout.files[g] && n in f.layout.weightMap && f.layout.weightMap[n] == g
    ensures PathOf(f.root, g) in files && ShardHolds(f.sources, files[PathOf(f.root, g)], decode, f.layout.files[g], f.entries)
  {
    hide OnlyPlanned, PlanSize, BytesOf, OneGroup, Documents, ShardVerifies, ShardHolds, Wellformed, Finished, PathOf;
    g :| g in f.layout.files && n in f.layout.files[g];
    assert FileVerifies(files, f, decode, g);
    ShardIsThere(files, f, index, decode, g);
  }

  lemma HeldIsRead(sources: Files, file: seq<Byte>, decode: seq<Byte> -> Option<seq<Entry>>, names: seq<string>, entries: map<string, Source>, n: string)
    requires (forall m :: m in names ==> m in entries) && ShardHolds(sources, file, decode, names, entries) && n in names
    ensures entries[n].path in sources && Read(file, decode, n).Some?
    ensures Read(file, decode, n) == Read(sources[entries[n].path], decode, entries[n].tensor)
  {
    hide Read, Open;
  }

  lemma FinishedCarriesTensor(files: Files, sources: Files, f: Frozen, index: Plan -> seq<Byte>, decode: seq<Byte> -> Option<seq<Entry>>, n: string)
    requires Wellformed(f) && Finished(files, f, index, decode) && Known(f) && ArtifactVerifies(files, f, index, decode)
    requires Agree(sources, f.sources, f.entries) && n in f.entries
    ensures CarriesTensor(files, sources, f.root, f.entries[n], f.layout, decode, n)
  {
    var g := ShardOf(files, f, index, decode, n);
    PathIs(f.root, g);
    assert forall m :: m in f.layout.files[g] ==> m in f.entries;
    hide Read, ShardHolds, Wellformed, Finished, Known, ArtifactVerifies, PathOf, Render;
    HeldIsRead(f.sources, files[PathOf(f.root, g)], decode, f.layout.files[g], f.entries, n);
  }

  lemma PathIs(root: string, g: FileName)
    ensures PathOf(root, g) == root + "/" + Render(g)
  {
    hide Render;
  }

  /** A finished and verified artifact carries all of that. */
  lemma FinishedCarries(files: Files, sources: Files, f: Frozen, index: Plan -> seq<Byte>, decode: seq<Byte> -> Option<seq<Entry>>)
    requires Wellformed(f) && Finished(files, f, index, decode) && Known(f) && ArtifactVerifies(files, f, index, decode)
    requires Agree(sources, f.sources, f.entries)
    ensures Carries(files, sources, f.root, f.entries, f.documents, f.layout, index, decode)
  {
    forall n | n in f.entries ensures CarriesTensor(files, sources, f.root, f.entries[n], f.layout, decode, n) {
      FinishedCarriesTensor(files, sources, f, index, decode, n);
    }
    VerifiedDocuments(files, f, index, decode);
    VerifiedAlone(files, f, index, decode);
    hide Wellformed, Finished, Known, ArtifactVerifies, Agree, CarriesTensor, CarriesDocuments, CarriesNothingElse;
  }

  lemma VerifiedDocuments(files: Files, f: Frozen, index: Plan -> seq<Byte>, decode: seq<Byte> -> Option<seq<Entry>>)
    requires Wellformed(f) && Known(f) && ArtifactVerifies(files, f, index, decode)
    ensures CarriesDocuments(files, f.root, f.documents, f.layout, index)
  {
    hide OnlyPlanned, FileVerifies, CoversInventory, PlanSize, BytesOf, Known, Consecutive, Isolated;
    assert INDEX in Documents(f, index) && INDEX == "model.safetensors.index.json";
    forall d | d in f.documents ensures d != INDEX && In(f.root, d) in files && files[In(f.root, d)] == f.documents[d] {
      assert d in Documents(f, index) && Documents(f, index)[d] == f.documents[d];
    }
  }

  lemma VerifiedAlone(files: Files, f: Frozen, index: Plan -> seq<Byte>, decode: seq<Byte> -> Option<seq<Entry>>)
    requires Wellformed(f) && Known(f) && ArtifactVerifies(files, f, index, decode)
    ensures CarriesNothingElse(files, f.root, f.entries, f.documents, f.layout)
  {
    hide Render, ShardVerifies, PlanSize, BytesOf, CoversInventory, Consecutive, Isolated;
    forall p | p in files && f.root + "/" <= p
      ensures p == In(f.root, INDEX) || (exists d :: d in f.documents && p == f.root + "/" + d)
        || exists n :: n in f.entries && n in f.layout.weightMap && p == f.root + "/" + Render(f.layout.weightMap[n])
    {
      assert Under(f.root, p);
      if IsShardPath(f, p) {
        var g :| g in f.layout.files && p == PathOf(f.root, g);
        assert FileVerifies(files, f, decode, g);
        assert OneGroup(f.layout.files[g]);
        var n := f.layout.files[g][0];
        assert n in f.layout.files[g] && f.layout.weightMap[n] == g;
      } else {
        var d :| d in Documents(f, index) && p == In(f.root, d);
        assert d == INDEX || d in f.documents;
      }
    }
  }
}
