/** The resumable export: freeze a plan, write what is missing, publish the documents. */
module WriteExport {
  import opened Artifact
  import opened Bytes
  import opened ExportLayout
  import opened FileNames
  import opened Options
  import opened PlanFacts
  import opened ShardWriter
  import opened Storage
  import opened StreamShard

  /** The sources' contents, frozen with the plan. */
  function SourcesOf(files: map<string, seq<Byte>>, entries: map<string, Source>): map<string, seq<Byte>> {
    map p | p in files && p in (set n | n in entries :: entries[n].path) :: files[p]
  }

  /** What the caller must have right, apart from the inventory itself. */
  ghost predicate Placeable(files: map<string, seq<Byte>>, root: string, entries: map<string, Source>, documents: map<string, seq<Byte>>) {
    && (forall d :: d in documents ==> !IsShardName(d) && d != INDEX)
    && (forall n :: n in entries ==> entries[n].path in files && !Under(root, entries[n].path))
  }

  /** The inventories that can be exported. */
  ghost predicate Exportable(files: map<string, seq<Byte>>, root: string, names: seq<string>, entries: map<string, Source>, target: int,
      documents: map<string, seq<Byte>>, encode: seq<Entry> -> seq<Byte>, decode: seq<Byte> -> Option<seq<Entry>>)
    requires KeysOf(names, entries)
  {
    && Acceptable(TensorsOf(names, entries), target) && Placeable(files, root, entries, documents)
    && Matches(files, decode, entries)
    && forall layout, g :: Planned(TensorsOf(names, entries), target, layout) && g in layout.files && Included(layout.files[g], entries)
         ==> HeaderFits(files, encode, decode, layout.files[g], entries)
  }

  predicate Included(names: seq<string>, entries: map<string, Source>) {
    forall n :: n in names ==> n in entries
  }

  /** A planned shard that its sources do not allow to be written. */
  ghost predicate Blocked(f: Frozen, encode: seq<Entry> -> seq<Byte>, decode: seq<Byte> -> Option<seq<Entry>>, g: FileName)
    requires g in f.layout.files
  {
    Included(f.layout.files[g], f.entries) && !Writable(f.sources, encode, decode, f.layout.files[g], f.entries)
  }

  /** The descriptors of a shard's tensors are those of their sources. */
  ghost predicate SourcesMatch(f: Frozen, decode: seq<Byte> -> Option<seq<Entry>>, g: FileName)
    requires g in f.layout.files
  {
    forall n :: n in f.layout.files[g] ==> n in f.entries && SourceMatches(f.sources, decode, f.entries[n])
  }

  lemma VerifiedMatches(f: Frozen, decode: seq<Byte> -> Option<seq<Entry>>, g: FileName, file: seq<Byte>)
    requires g in f.layout.files && (forall n :: n in f.layout.files[g] ==> n in f.entries)
    requires ShardHolds(f.sources, file, decode, f.layout.files[g], f.entries) && ShardVerifies(file, decode, f.layout.files[g], f.entries)
    ensures SourcesMatch(f, decode, g)
  {
    hide Open, Read, AsDescribed;
  }

  /** Once every shard is verified, the whole inventory is known to match its sources. */
  lemma AllMatch(f: Frozen, decode: seq<Byte> -> Option<seq<Entry>>)
    requires CoversInventory(f) && forall g :: g in f.layout.files ==> SourcesMatch(f, decode, g)
    ensures Matches(f.sources, decode, f.entries)
  {
    hide Open, Read, AsDescribed;
  }

  lemma EmptyIsPartial(files: map<string, seq<Byte>>, f: Frozen, index: Plan -> seq<Byte>, decode: seq<Byte> -> Option<seq<Entry>>)
    requires Wellformed(f) && forall p :: p in files ==> !Under(f.root, p)
    ensures Partial(files, f, index, decode)
  {
    hide ShardHolds, Documents, Render;
    forall g | g in f.layout.files ensures PathOf(f.root, g) !in files {
      InIsInjective(f.root, Render(g), Render(g));
    }
    forall d | d in Documents(f, index) ensures In(f.root, d) !in files {
      InIsInjective(f.root, d, d);
    }
  }

  lemma NotWritable(files: map<string, seq<Byte>>, f: Frozen, encode: seq<Entry> -> seq<Byte>, decode: seq<Byte> -> Option<seq<Entry>>, names: seq<string>)
    requires (forall n :: n in names ==> n in f.entries) && Agree(files, f.sources, f.entries)
    requires !Writable(files, encode, decode, names, f.entries)
    ensures !Writable(f.sources, encode, decode, names, f.entries)
  {
    hide Writable;
    if Writable(f.sources, encode, decode, names, f.entries) {
      WritableFrame(f.sources, files, encode, decode, names, f.entries);
    }
  }

  lemma PresentHolds(files: map<string, seq<Byte>>, f: Frozen, index: Plan -> seq<Byte>, decode: seq<Byte> -> Option<seq<Entry>>, g: FileName)
    requires Wellformed(f) && Rightful(files, f, index, decode) && g in f.layout.files && PathOf(f.root, g) in files
    ensures ShardHolds(f.sources, files[PathOf(f.root, g)], decode, f.layout.files[g], f.entries)
  {
    hide ShardHolds, Documents, PathOf, In, Isolated, Consecutive;
  }

  lemma PresentDocument(files: map<string, seq<Byte>>, f: Frozen, index: Plan -> seq<Byte>, decode: seq<Byte> -> Option<seq<Entry>>, d: string)
    requires Wellformed(f) && Rightful(files, f, index, decode) && d in Documents(f, index) && In(f.root, d) in files
    ensures files[In(f.root, d)] == Documents(f, index)[d]
  {
    hide ShardHolds, Documents, PathOf, In, Isolated, Consecutive;
  }

  lemma UnverifiedShard(f: Frozen, encode: seq<Entry> -> seq<Byte>, decode: seq<Byte> -> Option<seq<Entry>>, names: seq<string>, file: seq<Byte>)
    requires (forall n :: n in names ==> n in f.entries) && ShardHolds(f.sources, file, decode, names, f.entries)
    requires !ShardVerifies(file, decode, names, f.entries)
    ensures !Writable(f.sources, encode, decode, names, f.entries)
  {
    hide ShardHolds, ShardVerifies, Matches, HeaderFits;
    if Matches(f.sources, decode, f.entries) {
      HoldingVerifies(f.sources, file, decode, names, f.entries);
    }
  }

  /** The frozen sources are the entries' files. */
  lemma SourcesAgree(files: map<string, seq<Byte>>, root: string, entries: map<string, Source>, documents: map<string, seq<Byte>>)
    requires Placeable(files, root, entries, documents)
    ensures Agree(files, SourcesOf(files, entries), entries)
  {
  }

  lemma SourcesStay(files: map<string, seq<Byte>>, sources: map<string, seq<Byte>>, entries: map<string, Source>)
    requires Agree(files, sources, entries) && forall p :: p in sources ==> exists n :: n in entries && entries[n].path == p
    ensures SourcesOf(files, entries) == sources
  {
    var now := SourcesOf(files, entries);
    forall p ensures p in now <==> p in sources {
      if p in sources {
        var n :| n in entries && entries[n].path == p;
      }
    }
    forall p | p in sources ensures now[p] == sources[p] {
      var n :| n in entries && entries[n].path == p;
    }
  }

  lemma FrozenIsWellformed(f: Frozen, names: seq<string>, target: int, files: map<string, seq<Byte>>)
    requires KeysOf(names, f.entries) && Placeable(files, f.root, f.entries, f.documents)
    requires Acceptable(TensorsOf(names, f.entries), target) && Planned(TensorsOf(names, f.entries), target, f.layout)
    ensures Wellformed(f) && Known(f) && CoversInventory(f)
  {
    hide Acceptable, Planned, KeysOf, PlanSize, Consecutive, Isolated, Inverse, CoversInventory;
    LayoutReads(f, names, target);
  }

  lemma OnePlan(tensors: seq<Tensor>, target: int, plan: Plan)
    requires Keyed(tensors) && Acceptable(tensors, target) && Planned(tensors, target, plan)
    ensures forall layout :: Planned(tensors, target, layout) ==> layout == plan
  {
    hide Acceptable, Planned, Keyed;
    forall layout | Planned(tensors, target, layout) ensures layout == plan {
      PlanIsUnique(tensors, target, layout, plan);
    }
  }

  /** A blocked shard means the inventory was not exportable to begin with. */
  lemma BlockedIsNotExportable(files: map<string, seq<Byte>>, f: Frozen, names: seq<string>, target: int,
      encode: seq<Entry> -> seq<Byte>, decode: seq<Byte> -> Option<seq<Entry>>)
    requires KeysOf(names, f.entries) && Agree(files, f.sources, f.entries) && Planned(TensorsOf(names, f.entries), target, f.layout)
    requires exists g :: g in f.layout.files && Blocked(f, encode, decode, g)
    ensures !Exportable(files, f.root, names, f.entries, target, f.documents, encode, decode)
  {
    hide KeysOf, Acceptable, Planned, Matches, HeaderFits, Placeable, Agree;
    var g :| g in f.layout.files && Blocked(f, encode, decode, g);
    if Exportable(files, f.root, names, f.entries, target, f.documents, encode, decode) {
      NamesAreValid(names, f.entries, target);
      WritableFrame(files, f.sources, encode, decode, f.layout.files[g], f.entries);
    }
  }

  lemma NamesAreValid(names: seq<string>, entries: map<string, Source>, target: int)
    requires KeysOf(names, entries) && Acceptable(TensorsOf(names, entries), target)
    ensures "" !in entries && "__metadata__" !in entries
  {
    var tensors := TensorsOf(names, entries);
    forall n | n in entries ensures n != "" && n != "__metadata__" {
      var i :| 0 <= i < |names| && names[i] == n;
      assert ValidTensor(tensors[i]) && tensors[i].name == n;
    }
  }

  lemma FinishedRun(files: map<string, seq<Byte>>, f: Frozen, index: Plan -> seq<Byte>, decode: seq<Byte> -> Option<seq<Entry>>,
      names: seq<string>, target: int)
    requires Wellformed(f) && Partial(files, f, index, decode) && KeysOf(names, f.entries) && CoversInventory(f)
    requires Acceptable(TensorsOf(names, f.entries), target) && Planned(TensorsOf(names, f.entries), target, f.layout)
    requires (forall g :: g in f.layout.files ==> SourcesMatch(f, decode, g)) && forall p :: p in PlannedPaths(f, index) ==> p in files
    ensures Finished(files, f, index, decode) && Known(f) && ArtifactVerifies(files, f, index, decode)
  {
    hide Acceptable, Planned, KeysOf, Partial, Wellformed, CoversInventory, SourcesMatch, Matches, PathOf, In, Documents, ArtifactVerifies, Known, PlannedPaths;
    AllPlanned(files, f, index);
    AllMatch(f, decode);
    FinishedVerifies(files, f, index, decode, names, target);
  }

  lemma AllPlanned(files: Files, f: Frozen, index: Plan -> seq<Byte>)
    requires forall p :: p in PlannedPaths(f, index) ==> p in files
    ensures forall g :: g in f.layout.files ==> PathOf(f.root, g) in files
    ensures forall d :: d in Documents(f, index) ==> In(f.root, d) in files
  {
    hide PathOf, In, Documents, PlannedPaths;
    assert forall g :: g in f.layout.files ==> IsShardPath(f, PathOf(f.root, g));
    assert forall d :: d in Documents(f, index) ==> IsDocumentPath(f, index, In(f.root, d));
  }

  lemma SourcesAreTheirs(files: map<string, seq<Byte>>, entries: map<string, Source>)
    ensures forall p :: p in SourcesOf(files, entries) ==> exists n :: n in entries && entries[n].path == p
  {
  }

  lemma StraysOfShard(files: Files, f: Frozen, index: Plan -> seq<Byte>, g: FileName, strays: set<string>, fates: string -> Fate)
    requires g in f.layout.files
    requires strays in {{}, Remnant(files, PathOf(f.root, g), PlannedPaths(f, index), fates(PathOf(f.root, g)))}
    ensures strays !! PlannedPaths(f, index) && forall t :: t in strays ==> Under(f.root, t)
  {
    hide PathOf, PlannedPaths, Remnant;
    var path := PathOf(f.root, g);
    assert IsShardPath(f, path);
    PlannedIsUnder(f, index, path);
    RemnantIsBeside(files, path, PlannedPaths(f, index), fates(path), f.root);
  }

  lemma DiesAtShard(f: Frozen, index: Plan -> seq<Byte>, files: Files, left: set<string>, g: FileName, strays: set<string>, fates: string -> Fate)
    requires g in f.layout.files && !fates(PathOf(f.root, g)).Finishes? && forall n :: n in f.layout.files[g] ==> n in f.entries
    requires strays == Remnant(files, PathOf(f.root, g), PlannedPaths(f, index), fates(PathOf(f.root, g)))
      || (strays == {} && SingleSource(f.layout.files[g], f.entries).Some?)
    ensures Died(f, index, files, left, left + strays, fates)
  {
    hide PathOf, PlannedPaths, Remnant;
    var path := PathOf(f.root, g);
    assert IsShardPath(f, path);
    if strays == {} && SingleSource(f.layout.files[g], f.entries).Some? {
      assert Linkable(f, path) && left + strays == left;
    }
    hide SingleSource, Linkable;
    assert DiedAt(f, index, files, left, left + strays, fates, path);
  }

  lemma DiesAtDocument(f: Frozen, index: Plan -> seq<Byte>, files: Files, left: set<string>, d: string, fates: string -> Fate)
    requires d in Documents(f, index) && !fates(In(f.root, d)).Finishes?
    ensures Died(f, index, files, left, left + Remnant(files, In(f.root, d), PlannedPaths(f, index), fates(In(f.root, d))), fates)
  {
    hide PlannedPaths, Documents, Remnant, In;
    var path := In(f.root, d);
    assert IsDocumentPath(f, index, path);
    assert DiedAt(f, index, files, left, left + Remnant(files, path, PlannedPaths(f, index), fates(path)), fates, path);
  }

  lemma PlacedIsNoStray(before: Files, after: Files, destination: string, decode: seq<Byte> -> Option<seq<Entry>>,
      names: seq<string>, entries: map<string, Source>)
    requires (forall n :: n in names ==> n in entries) && Placed(before, after, destination, decode, names, entries)
    ensures PlacedOrNot(before, after, destination, decode, names, entries, {})
  {
    hide ShardHolds;
  }

  /** Of these files, those to do are still as they were; the others are there, and nobody died over them. */
  ghost predicate Settled(before: Files, files: Files, paths: set<string>, todo: set<string>, fates: string -> Fate) {
    && (forall p :: p in todo && p in files ==> p in before)
    && (forall p :: p in paths && p !in todo ==> p in files && (p in before || fates(p).Finishes?))
  }

  /** One file was made, or was there. */
  ghost predicate Made(before: Files, after: Files, p: string, fates: string -> Fate) {
    Kept(before, after) && p in after && (p in before || fates(p).Finishes?) && forall q :: q in after && q !in before ==> q == p
  }

  lemma NothingSettled(files: Files, paths: set<string>, fates: string -> Fate)
    ensures Settled(files, files, paths, paths, fates)
  {
  }

  lemma SettlesOne(before: Files, files: Files, after: Files, paths: set<string>, todo: set<string>, p: string, fates: string -> Fate)
    requires Settled(before, files, paths, todo, fates) && Made(files, after, p, fates) && p in todo
    ensures Settled(before, after, paths, todo - {p}, fates)
  {
  }

  /** The paths of the shards after the first `k`. */
  ghost function ShardPaths(f: Frozen, k: nat): set<string> {
    set g | g in f.layout.files && g.ordinal > k :: PathOf(f.root, g)
  }

  ghost function DocumentPaths(root: string, documents: set<string>): set<string> {
    set d | d in documents :: In(root, d)
  }

  lemma NextShardPath(f: Frozen, k: nat)
    requires Consecutive(f.layout.files) && k < |f.layout.files|
    ensures var p := PathOf(f.root, FileName(k + 1, |f.layout.files|)); p in ShardPaths(f, k) && ShardPaths(f, k + 1) == ShardPaths(f, k) - {p}
  {
    hide Render;
    var g := FileName(k + 1, |f.layout.files|);
    assert g in f.layout.files;
    forall h | h in f.layout.files && h != g ensures PathOf(f.root, h) != PathOf(f.root, g) {
      InIsInjective(f.root, Render(h), Render(g));
      if Render(h) == Render(g) {
        RenderIsInjective(h, g);
      }
    }
  }

  lemma NextDocumentPath(root: string, documents: set<string>, d: string)
    requires d in documents
    ensures In(root, d) in DocumentPaths(root, documents) && DocumentPaths(root, documents - {d}) == DocumentPaths(root, documents) - {In(root, d)}
  {
    forall e | e in documents && e != d ensures In(root, e) != In(root, d) {
      InIsInjective(root, e, d);
    }
  }

  lemma NoDocumentPaths(root: string)
    ensures DocumentPaths(root, {}) == {}
  {
  }

  lemma PlannedIsShardOrDocument(f: Frozen, index: Plan -> seq<Byte>)
    requires Consecutive(f.layout.files)
    ensures PlannedPaths(f, index) == ShardPaths(f, 0) + DocumentPaths(f.root, Documents(f, index).Keys)
    ensures ShardPaths(f, |f.layout.files|) == {}
  {
    hide PathOf, In, Documents;
  }

  /** What the shard loop adds is shards and leftovers. */
  ghost predicate OnlyShards(f: Frozen, before: Files, after: Files, left: set<string>) {
    forall p :: p in after && p !in before ==> IsShardPath(f, p) || p in left
  }

  lemma ShardIsOnlyShard(f: Frozen, before: Files, after: Files, left: set<string>, g: FileName, decode: seq<Byte> -> Option<seq<Entry>>, strays: set<string>)
    requires g in f.layout.files && (forall n :: n in f.layout.files[g] ==> n in f.entries)
    requires PlacedOrNot(before, after, PathOf(f.root, g), decode, f.layout.files[g], f.entries, strays)
    ensures OnlyShards(f, before, after, left + strays)
  {
    hide ShardHolds, PathOf;
  }

  lemma DocumentsStillMissing(f: Frozen, index: Plan -> seq<Byte>, before: Files, after: Files, left: set<string>)
    requires Wellformed(f) && OnlyShards(f, before, after, left) && left <= before.Keys
    ensures forall p :: p in DocumentPaths(f.root, Documents(f, index).Keys) && p in after ==> p in before
  {
    hide Wellformed, PathOf, In, Documents;
    forall d | d in Documents(f, index) && In(f.root, d) in after ensures In(f.root, d) in before {
      if IsShardPath(f, In(f.root, d)) {
        var g :| g in f.layout.files && In(f.root, d) == PathOf(f.root, g);
        PathsDiffer(f, g, d, index);
      }
    }
  }

  /** Shards, then documents: all that is planned is there, and nobody died over what was missing. */
  lemma AllSettled(f: Frozen, index: Plan -> seq<Byte>, before: Files, files: Files, after: Files, left: set<string>, fates: string -> Fate)
    requires Wellformed(f) && OnlyShards(f, before, files, left) && left <= before.Keys && Kept(before, files) && Kept(files, after)
    requires Settled(before, files, ShardPaths(f, 0), {}, fates)
    requires Settled(files, after, DocumentPaths(f.root, Documents(f, index).Keys), {}, fates)
    ensures Settled(before, after, PlannedPaths(f, index), {}, fates)
  {
    PlannedIsShardOrDocument(f, index);
    DocumentsStillMissing(f, index, before, files, left);
    hide ShardPaths, DocumentPaths, PlannedPaths, OnlyShards, Wellformed;
  }

  /** The plan of this inventory, with the sources as they are. */
  ghost predicate IsPlanOf(f: Frozen, files: Files, root: string, names: seq<string>, entries: map<string, Source>, target: int,
      documents: map<string, seq<Byte>>)
    requires KeysOf(names, entries)
  {
    exists layout :: Planned(TensorsOf(names, entries), target, layout) && f == Frozen(root, entries, layout, documents, SourcesOf(files, entries))
  }

  lemma PlanStays(f: Frozen, before: Files, after: Files, root: string, names: seq<string>, entries: map<string, Source>, target: int,
      documents: map<string, seq<Byte>>)
    requires KeysOf(names, entries) && SourcesOf(after, entries) == SourcesOf(before, entries)
    ensures IsPlanOf(f, before, root, names, entries, target, documents) <==> IsPlanOf(f, after, root, names, entries, target, documents)
  {
    hide KeysOf, Planned, TensorsOf, SourcesOf;
  }

  /** Writing in the export's own directory leaves the inventory as exportable as it was. */
  lemma ExportableStays(before: Files, after: Files, root: string, names: seq<string>, entries: map<string, Source>, target: int,
      documents: map<string, seq<Byte>>, encode: seq<Entry> -> seq<Byte>, decode: seq<Byte> -> Option<seq<Entry>>)
    requires KeysOf(names, entries) && SameOutside(before, after, root)
    requires Exportable(before, root, names, entries, target, documents, encode, decode)
    ensures Exportable(after, root, names, entries, target, documents, encode, decode)
    ensures SourcesOf(after, entries) == SourcesOf(before, entries)
  {
    assert Agree(before, after, entries) && SourcesOf(after, entries) == SourcesOf(before, entries) by {
      hide Acceptable, Planned, HeaderFits, Matches, KeysOf, In, Under;
    }
    hide DistinctStrings, Acceptable, Planned, Matches, HeaderFits, Agree, Under;
    NamesAreValid(names, entries, target);
    MatchesFrame(before, after, decode, entries);
    forall layout, g | Planned(TensorsOf(names, entries), target, layout) && g in layout.files && Included(layout.files[g], entries)
      ensures HeaderFits(after, encode, decode, layout.files[g], entries)
    {
      WritableFrame(before, after, encode, decode, layout.files[g], entries);
    }
  }

  lemma MatchesFrame(a: Files, b: Files, decode: seq<Byte> -> Option<seq<Entry>>, entries: map<string, Source>)
    requires Agree(a, b, entries) && Matches(a, decode, entries)
    ensures Matches(b, decode, entries)
  {
    hide Read, AsDescribed;
  }

  lemma IsAcceptable(files: Files, root: string, names: seq<string>, entries: map<string, Source>, target: int,
      documents: map<string, seq<Byte>>, encode: seq<Entry> -> seq<Byte>, decode: seq<Byte> -> Option<seq<Entry>>)
    requires KeysOf(names, entries) && Exportable(files, root, names, entries, target, documents, encode, decode)
    ensures Acceptable(TensorsOf(names, entries), target)
  {
    hide Acceptable, Planned, KeysOf, Matches, HeaderFits, Placeable;
  }

  /** A planned file that is made through a temporary, for which this word may be drawn. */
  ghost predicate NeedsTemporary(f: Frozen, index: Plan -> seq<Byte>, p: string, word: string) {
    p in PlannedPaths(f, index) && !Linkable(f, p) && TemporaryPath(p, word) !in PlannedPaths(f, index)
  }

  /** The index of every export is made through a temporary. */
  lemma IndexNeedsTemporary(f: Frozen, index: Plan -> seq<Byte>, word: string)
    requires Wellformed(f) && NotADocument(f, TemporaryPath(In(f.root, INDEX), word))
    ensures NeedsTemporary(f, index, In(f.root, INDEX), word)
  {
    var p := In(f.root, INDEX);
    TemporaryIsUnplanned(f, index, p, word);
    hide Wellformed, PathOf, In, TemporaryPath, PlannedPaths, SingleSource;
    assert IsDocumentPath(f, index, p);
    forall g | g in f.layout.files ensures PathOf(f.root, g) != p {
      PathsDiffer(f, g, INDEX, index);
    }
  }

  /** So is every shard that is not already a file of its own. */
  lemma ShardNeedsTemporary(f: Frozen, index: Plan -> seq<Byte>, g: FileName, word: string)
    requires Wellformed(f) && g in f.layout.files && SingleSource(f.layout.files[g], f.entries).None?
    requires NotADocument(f, TemporaryPath(PathOf(f.root, g), word))
    ensures NeedsTemporary(f, index, PathOf(f.root, g), word)
  {
    hide TemporaryPath, PlannedPaths, SingleSource, Render;
    TemporaryIsUnplanned(f, index, PathOf(f.root, g), word);
    assert IsShardPath(f, PathOf(f.root, g));
    forall h | h in f.layout.files && PathOf(f.root, h) == PathOf(f.root, g) ensures h == g {
      InIsInjective(f.root, Render(h), Render(g));
      RenderIsInjective(h, g);
    }
  }

  /** Only that file's temporary can have been left. */
  lemma DiedOver(f: Frozen, index: Plan -> seq<Byte>, files: Files, left: set<string>, after: set<string>, fates: string -> Fate, p: string,
      word: string, written: nat)
    requires Died(f, index, files, left, after, fates) && NeedsTemporary(f, index, p, word) && TemporaryPath(p, word) !in files
    requires fates(p) == DiesWriting(word, written) && forall q :: q != p ==> fates(q).Finishes?
    ensures after == left + {TemporaryPath(p, word)} && Under(f.root, TemporaryPath(p, word))
  {
    hide PlannedPaths, Linkable, TemporaryPath, Under;
    PlannedIsUnder(f, index, p);
    TemporaryIsBeside(f.root, p, word);
  }

  /** The layout, and the checks made before anything is written. */
  method Prepare(files: map<string, seq<Byte>>, root: string, names: seq<string>, entries: map<string, Source>, target: int,
      documents: map<string, seq<Byte>>) returns (layout: Option<Plan>)
    requires KeysOf(names, entries)
    ensures layout.Some? <==> Acceptable(TensorsOf(names, entries), target) && Placeable(files, root, entries, documents)
    ensures layout.Some? ==> Planned(TensorsOf(names, entries), target, layout.value)
  {
    hide Acceptable, Planned;
    TensorsAreKeyed(names, entries);
    layout := PlanShards(TensorsOf(names, entries), target);
    if exists d :: d in documents && (IsShardName(d) || d == INDEX) {
      return None;
    }
    if exists n :: n in entries && (entries[n].path !in files || Under(root, entries[n].path)) {
      return None;
    }
  }

  class Exporter {
    const disk: Disk
    const index: Plan -> seq<Byte>
    const encode: seq<Entry> -> seq<Byte>
    const decode: seq<Byte> -> Option<seq<Entry>>
    var plan: Option<Frozen>

    constructor (disk: Disk, index: Plan -> seq<Byte>, encode: seq<Entry> -> seq<Byte>, decode: seq<Byte> -> Option<seq<Entry>>)
      requires Codec(encode, decode) && disk.leftovers <= disk.files.Keys
      ensures Sound() && plan == None && this.disk == disk
      ensures this.index == index && this.encode == encode && this.decode == decode
    {
      hide Codec;
      this.disk, this.index, this.encode, this.decode := disk, index, encode, decode;
      plan := None;
    }

    /** What every run, finished or cut short, leaves behind. */
    ghost predicate Sound()
      reads this, disk
    {
      && Codec(encode, decode) && disk.leftovers <= disk.files.Keys
      && (plan.Some? ==> Wellformed(plan.value) && Rightful(disk.files, plan.value, index, decode) && NotPlanned(plan.value, index, disk.leftovers))
    }

    /** Nothing is in the directory beside the planned files. */
    ghost predicate Clean()
      reads this, disk
    {
      plan.Some? ==> NoForeign(disk.files, plan.value, index)
    }

    /** Nothing is in the directory beside the planned files and what deaths left. */
    ghost predicate Untouched()
      reads this, disk
    {
      plan.Some? ==> OnlyLeftovers(disk.files, plan.value, index, disk.leftovers)
    }

    /** The temporaries in the directory. */
    ghost function Leftovers(): set<string>
      reads this, disk
    {
      if plan.None? then {} else set t | t in disk.leftovers && Under(plan.value.root, t)
    }

    /** If nobody else writes there, the directory is clean exactly when no death left a temporary. */
    lemma CleanMeansNoLeftovers()
      requires Sound() && Untouched()
      ensures Clean() <==> Leftovers() == {}
    {
      hide Rightful, Wellformed, PlannedPaths, Codec, IsShardPath, IsDocumentPath;
    }

    /** The artifact is whole and passes the check. */
    ghost predicate Delivered()
      reads this, disk
    {
      && plan.Some? && Wellformed(plan.value) && Known(plan.value)
      && Finished(disk.files, plan.value, index, decode) && ArtifactVerifies(disk.files, plan.value, index, decode)
    }

    /** The state accepts this run: an empty directory, or the very same plan resumed and nothing foreign. */
    ghost predicate Startable(root: string, entries: map<string, Source>, layout: Plan, documents: map<string, seq<Byte>>, resume: bool)
      reads this, disk
    {
      if plan.None? then forall p :: p in disk.files ==> !Under(root, p)
      else resume && NoForeign(disk.files, plan.value, index) && plan.value == Frozen(root, entries, layout, documents, SourcesOf(disk.files, entries))
    }

    /** The plan step: freeze, or resume what is frozen. */
    method Freeze(root: string, entries: map<string, Source>, layout: Plan, documents: map<string, seq<Byte>>, resume: bool, fate: Fate)
      returns (o: Result<Frozen>)
      requires Sound() && Wellformed(Frozen(root, entries, layout, documents, SourcesOf(disk.files, entries)))
      modifies this`plan
      ensures Sound() && (old(plan).Some? ==> plan == old(plan))
      ensures o.Refused? || (o.Ok? && !NoForeign(disk.files, o.value, index)) <==> !old(Startable(root, entries, layout, documents, resume))
      ensures o.Ok? ==> plan == Some(o.value)
      ensures plan == old(plan) || (plan.Some? && !o.Refused? && NoForeign(disk.files, plan.value, index))
      ensures !o.Refused? && plan.Some? ==> plan.value == Frozen(root, entries, layout, documents, SourcesOf(disk.files, entries))
      ensures o.Stopped? ==> !fate.Finishes? && old(plan).None?
      ensures o.Ok? && old(plan).None? ==> fate.Finishes?
    {
      hide Codec, Wellformed, NoForeign, Rightful;
      var frozen := Frozen(root, entries, layout, documents, SourcesOf(disk.files, entries));
      if plan.Some? {
        if !resume || plan.value != frozen {
          return Refused;
        }
        return Ok(frozen);
      }
      if exists p :: p in disk.files && Under(root, p) {
        return Refused;
      }
      if fate.DiesBefore? || fate.DiesWriting? {
        return Stopped;
      }
      EmptyIsPartial(disk.files, frozen, index, decode);
      plan := Some(frozen);
      return if fate.Finishes? then Ok(frozen) else Stopped;
    }

    /** The shard loop. */
    method WriteShards(f: Frozen, fates: string -> Fate) returns (o: Result<()>)
      requires Sound() && plan == Some(f) && Agree(disk.files, f.sources, f.entries)
      modifies disk
      ensures Sound() && Extends(f, index, old(disk.files), old(disk.leftovers), disk.files, disk.leftovers)
      ensures OnlyShards(f, old(disk.files), disk.files, disk.leftovers) && (!o.Stopped? ==> disk.leftovers == old(disk.leftovers))
      ensures o.Ok? ==> Settled(old(disk.files), disk.files, ShardPaths(f, 0), {}, fates)
      ensures o.Ok? ==> forall g :: g in f.layout.files ==> SourcesMatch(f, decode, g)
      ensures o.Refused? ==> exists g :: g in f.layout.files && Blocked(f, encode, decode, g)
      ensures o.Stopped? ==> Died(f, index, old(disk.files), old(disk.leftovers), disk.leftovers, fates)
    {
      hide Codec, Rightful, Agree, PathOf, Blocked, SourcesMatch, Extends, Died, Isolated, NotPlanned, PlannedPaths, ShardPaths, Settled;
      ExtendsItself(f, index, disk.files, disk.leftovers);
      NothingSettled(disk.files, ShardPaths(f, 0), fates);
      var k := 0;
      while k < |f.layout.files|
        invariant 0 <= k <= |f.layout.files| && Sound() && disk.leftovers == old(disk.leftovers)
        invariant Extends(f, index, old(disk.files), disk.leftovers, disk.files, disk.leftovers)
        invariant OnlyShards(f, old(disk.files), disk.files, disk.leftovers)
        invariant Settled(old(disk.files), disk.files, ShardPaths(f, 0), ShardPaths(f, k), fates)
        invariant forall g :: g in f.layout.files && g.ordinal <= k ==> SourcesMatch(f, decode, g)
      {
        var g := FileName(k + 1, |f.layout.files|);
        assert g in f.layout.files;
        ghost var files := disk.files;
        ExtendingKeeps(f, index, old(disk.files), disk.leftovers, files, disk.leftovers);
        o := OneShard(f, g, fates);
        ExtendsOn(f, index, old(disk.files), old(disk.leftovers), files, old(disk.leftovers), disk.files, disk.leftovers);
        if !o.Ok? {
          if o.Stopped? {
            DiedLater(f, index, old(disk.files), files, old(disk.leftovers), disk.leftovers, fates);
          }
          return;
        }
        assert forall h :: h in f.layout.files && h.ordinal <= k + 1 ==> h.ordinal <= k || h == g;
        NextShardPath(f, k);
        SettlesOne(old(disk.files), files, disk.files, ShardPaths(f, 0), ShardPaths(f, k), PathOf(f.root, g), fates);
        k := k + 1;
      }
      PlannedIsShardOrDocument(f, index);
      return Ok(());
    }

    /** One shard: written if missing, and verified either way. */
    method OneShard(f: Frozen, g: FileName, fates: string -> Fate) returns (o: Result<()>)
      requires Sound() && plan == Some(f) && Agree(disk.files, f.sources, f.entries) && g in f.layout.files
      modifies disk
      ensures Sound() && Extends(f, index, old(disk.files), old(disk.leftovers), disk.files, disk.leftovers)
      ensures OnlyShards(f, old(disk.files), disk.files, disk.leftovers) && (!o.Stopped? ==> disk.leftovers == old(disk.leftovers))
      ensures o.Ok? ==> SourcesMatch(f, decode, g) && Made(old(disk.files), disk.files, PathOf(f.root, g), fates)
      ensures o.Refused? ==> Blocked(f, encode, decode, g)
      ensures o.Stopped? ==> Died(f, index, old(disk.files), old(disk.leftovers), disk.leftovers, fates)
    {
      hide Codec, Rightful, Agree, PathOf, Writable, ShardVerifies, ShardHolds, DistinctStrings, Consecutive, SourcesMatch, Extends, PlannedPaths, NotPlanned,
        Died, Isolated;
      var names, destination := f.layout.files[g], PathOf(f.root, g);
      ExtendsItself(f, index, disk.files, disk.leftovers);
      if destination !in disk.files {
        o := MissingShard(f, g, fates);
        if !o.Ok? {
          return;
        }
      }
      PresentHolds(disk.files, f, index, decode, g);
      var ok := VerifyShard(disk.files[destination], decode, names, f.entries);
      if !ok {
        UnverifiedShard(f, encode, decode, names, disk.files[destination]);
        return Refused;
      }
      VerifiedMatches(f, decode, g, disk.files[destination]);
      return Ok(());
    }

    method MissingShard(f: Frozen, g: FileName, fates: string -> Fate) returns (o: Result<()>)
      requires Sound() && plan == Some(f) && Agree(disk.files, f.sources, f.entries) && g in f.layout.files
      requires PathOf(f.root, g) !in disk.files
      modifies disk
      ensures Sound() && Extends(f, index, old(disk.files), old(disk.leftovers), disk.files, disk.leftovers)
      ensures OnlyShards(f, old(disk.files), disk.files, disk.leftovers) && (!o.Stopped? ==> disk.leftovers == old(disk.leftovers))
      ensures o.Ok? ==> Made(old(disk.files), disk.files, PathOf(f.root, g), fates)
      ensures o.Refused? ==> Blocked(f, encode, decode, g)
      ensures o.Stopped? ==> Died(f, index, old(disk.files), old(disk.leftovers), disk.leftovers, fates)
    {
      hide Codec, Rightful, Agree, PathOf, Writable, ShardHolds, DistinctStrings, Consecutive, Extends, PlannedPaths, NotPlanned,
        PlacedOrNot, Remnant, Died;
      var names, destination, reserved := f.layout.files[g], PathOf(f.root, g), PlannedPaths(f, index);
      ghost var before, left := disk.files, disk.leftovers;
      ExtendsItself(f, index, before, left);
      o := WriteShard(disk, destination, names, f.entries, encode, decode, reserved, fates(destination));
      if o.Refused? {
        NotWritable(disk.files, f, encode, decode, names);
        return;
      }
      ghost var strays: set<string> := {};
      if o.Stopped? {
        strays :| (strays == Remnant(before, destination, reserved, fates(destination)) || (strays == {} && SingleSource(names, f.entries).Some?))
          && disk.leftovers == left + strays && PlacedOrNot(before, disk.files, destination, decode, names, f.entries, strays);
        DiesAtShard(f, index, before, left, g, strays, fates);
      } else {
        PlacedIsNoStray(before, disk.files, destination, decode, names, f.entries);
        assert left + strays == left;
      }
      hide Placed;
      StraysOfShard(before, f, index, g, strays, fates);
      ShardMayJoin(before, left, disk.files, f, index, decode, g, strays);
      ShardIsOnlyShard(f, before, disk.files, left, g, decode, strays);
      ExtendingStaysApart(f, index, before, left, disk.files, disk.leftovers);
    }

    /** `_publish_json` or `publish_asset`: one document, created or found to be right. */
    method PublishOne(f: Frozen, d: string, fates: string -> Fate) returns (o: Result<()>)
      requires Sound() && plan == Some(f) && Agree(disk.files, f.sources, f.entries) && d in Documents(f, index)
      modifies disk
      ensures Sound() && Extends(f, index, old(disk.files), old(disk.leftovers), disk.files, disk.leftovers)
      ensures !o.Refused? && (o.Ok? ==> disk.leftovers == old(disk.leftovers) && Made(old(disk.files), disk.files, In(f.root, d), fates))
      ensures o.Stopped? ==> Died(f, index, old(disk.files), old(disk.leftovers), disk.leftovers, fates)
    {
      hide Codec, Wellformed, Agree, Documents, In, Rightful, Extends, Died, PlannedPaths, NotPlanned, Remnant;
      var path, payload := In(f.root, d), Documents(f, index)[d];
      ExtendsItself(f, index, disk.files, disk.leftovers);
      if path in disk.files {
        PresentDocument(disk.files, f, index, decode, d);
        return if disk.files[path] != payload then Refused else Ok(());
      }
      ghost var before, left := disk.files, disk.leftovers;
      var dies := WriteThrough(disk, path, payload, PlannedPaths(f, index), fates(path));
      DocumentMayJoin(before, left, disk.files, f, index, decode, d, fates(path));
      ExtendingStaysApart(f, index, before, left, disk.files, disk.leftovers);
      if dies {
        DiesAtDocument(f, index, before, left, d, fates);
        return Stopped;
      }
      return Ok(());
    }

    /** The index and the other documents, each published once. */
    method Publish(f: Frozen, fates: string -> Fate) returns (o: Result<()>)
      requires Sound() && plan == Some(f) && Agree(disk.files, f.sources, f.entries)
      modifies disk
      ensures Sound() && Extends(f, index, old(disk.files), old(disk.leftovers), disk.files, disk.leftovers)
      ensures !o.Refused? && (o.Ok? ==> disk.leftovers == old(disk.leftovers))
      ensures o.Ok? ==> Settled(old(disk.files), disk.files, DocumentPaths(f.root, Documents(f, index).Keys), {}, fates)
      ensures o.Stopped? ==> Died(f, index, old(disk.files), old(disk.leftovers), disk.leftovers, fates)
    {
      hide Codec, Wellformed, Agree, Documents, In, Rightful, Extends, Died, PlannedPaths, NotPlanned, Settled, Made, Kept, SameOutside, OnlyLeftovers,
        DocumentPaths;
      ghost var paths := DocumentPaths(f.root, Documents(f, index).Keys);
      NothingSettled(disk.files, paths, fates);
      var todo := Documents(f, index).Keys;
      ExtendsItself(f, index, disk.files, disk.leftovers);
      while todo != {}
        invariant (forall d :: d in todo ==> d in Documents(f, index)) && Sound() && disk.leftovers == old(disk.leftovers)
        invariant Extends(f, index, old(disk.files), disk.leftovers, disk.files, disk.leftovers)
        invariant Settled(old(disk.files), disk.files, paths, DocumentPaths(f.root, todo), fates)
        decreases |todo|
      {
        var d :| d in todo;
        ghost var files, left := disk.files, disk.leftovers;
        ExtendingKeeps(f, index, old(disk.files), left, files, left);
        o := PublishOne(f, d, fates);
        ExtendsOn(f, index, old(disk.files), left, files, left, disk.files, disk.leftovers);
        if !o.Ok? {
          DiedLater(f, index, old(disk.files), files, left, disk.leftovers, fates);
          return;
        }
        NextDocumentPath(f.root, todo, d);
        SettlesOne(old(disk.files), files, disk.files, paths, DocumentPaths(f.root, todo), In(f.root, d), fates);
        todo := todo - {d};
      }
      NoDocumentPaths(f.root);
      return Ok(());
    }

    /** Everything after the plan: shards, a last look at the sources, documents. */
    method Fill(f: Frozen, fates: string -> Fate) returns (o: Result<()>)
      requires Sound() && plan == Some(f) && Agree(disk.files, f.sources, f.entries)
      requires forall p :: p in f.sources ==> exists n :: n in f.entries && f.entries[n].path == p
      modifies disk
      ensures Sound() && Extends(f, index, old(disk.files), old(disk.leftovers), disk.files, disk.leftovers)
      ensures !o.Stopped? ==> disk.leftovers == old(disk.leftovers)
      ensures o.Ok? ==> Settled(old(disk.files), disk.files, PlannedPaths(f, index), {}, fates)
      ensures o.Ok? ==> forall g :: g in f.layout.files ==> SourcesMatch(f, decode, g)
      ensures o.Refused? ==> exists g :: g in f.layout.files && Blocked(f, encode, decode, g)
      ensures o.Stopped? ==> Died(f, index, old(disk.files), old(disk.leftovers), disk.leftovers, fates)
    {
      hide Codec, Wellformed, Agree, Documents, In, PathOf, Rightful, Extends, Died, PlannedPaths, NotPlanned, SourcesMatch, SourcesOf, Blocked, OnlyShards, Settled,
        ShardPaths, DocumentPaths;
      o := WriteShards(f, fates);
      if !o.Ok? {
        return;
      }
      ghost var files, left := disk.files, disk.leftovers;
      ExtendingKeeps(f, index, old(disk.files), left, files, left);
      SourcesStay(files, f.sources, f.entries);
      if SourcesOf(disk.files, f.entries) != f.sources {
        return Refused;
      }
      o := Publish(f, fates);
      ExtendsOn(f, index, old(disk.files), left, files, left, disk.files, disk.leftovers);
      if o.Ok? {
        AllSettled(f, index, old(disk.files), files, disk.files, left, fates);
      } else {
        DiedLater(f, index, old(disk.files), files, left, disk.leftovers, fates);
      }
    }

    /** `write_export`, for any place where the process may die. A run that finishes, resumed or not, leaves an
        artifact that the check accepts and in which every tensor is its source's; an exportable inventory is
        refused exactly in a state that does not accept it. */
    method Run(root: string, names: seq<string>, entries: map<string, Source>, target: int, documents: map<string, seq<Byte>>, resume: bool,
        freeze: Fate, fates: string -> Fate) returns (o: Result<()>)
      requires Sound() && KeysOf(names, entries)
      modifies this`plan, disk
      ensures Sound() && Kept(old(disk.files), disk.files) && SameOutside(old(disk.files), disk.files, root)
      ensures (old(Untouched()) ==> Untouched()) && (!o.Stopped? && old(Clean()) ==> Clean())
      ensures old(disk.leftovers) <= disk.leftovers && (!o.Stopped? ==> disk.leftovers == old(disk.leftovers))
      ensures !old(Clean()) ==> o.Refused? && !Clean()
      ensures (old(plan).Some? ==> plan == old(plan)) && (o.Ok? ==> plan.Some? && Delivered())
      ensures o.Ok? ==> Carries(disk.files, disk.files, root, entries, documents, plan.value.layout, index, decode)
      ensures !o.Refused? && plan.Some? ==> plan.value.root == root && plan.value.entries == entries && plan.value.documents == documents
      ensures o.Ok? ==> forall p :: p in PlannedPaths(plan.value, index) && p !in old(disk.files) ==> fates(p).Finishes?
      ensures forall layout :: Planned(TensorsOf(names, entries), target, layout) && !old(Startable(root, entries, layout, documents, resume)) ==>
        o.Refused? && disk.files == old(disk.files) && plan == old(plan)
      ensures o.Refused? && old(Exportable(disk.files, root, names, entries, target, documents, encode, decode)) ==>
        exists layout :: Planned(TensorsOf(names, entries), target, layout) && !old(Startable(root, entries, layout, documents, resume))
      ensures !o.Refused? && plan.Some? ==> IsPlanOf(plan.value, old(disk.files), root, names, entries, target, documents)
      ensures o.Stopped? && old(plan).None? && !freeze.Finishes? ==> disk.files == old(disk.files) && disk.leftovers == old(disk.leftovers)
      ensures o.Stopped? && (old(plan).Some? || freeze.Finishes?) ==>
        plan.Some? && Died(plan.value, index, old(disk.files), old(disk.leftovers), disk.leftovers, fates)
    {
      hide Codec, Acceptable, Planned, KeysOf, Matches, NoForeign, Rightful, Agree, Wellformed, ArtifactVerifies, Known, Startable, Placeable, CoversInventory,
        SourcesOf, Finished, TensorsOf, Documents, SourcesMatch, PathOf, In, Blocked, Extends, NotPlanned, PlannedPaths, Died, SameOutside, OnlyLeftovers, Carries;
      SameAsBefore(disk.files, root);
      var layout := Prepare(disk.files, root, names, entries, target, documents);
      if layout.None? {
        return Refused;
      }
      ghost var before, left := disk.files, disk.leftovers;
      SourcesAgree(disk.files, root, entries, documents);
      FrozenIsWellformed(Frozen(root, entries, layout.value, documents, SourcesOf(disk.files, entries)), names, target, disk.files);
      TensorsAreKeyed(names, entries);
      OnePlan(TensorsOf(names, entries), target, layout.value);
      var frozen := Freeze(root, entries, layout.value, documents, resume, freeze);
      if !frozen.Ok? {
        if plan != old(plan) {
          NoForeignNoLeftovers(disk.files, plan.value, index, left);
        }
        return if frozen.Refused? then Refused else Stopped;
      }
      var f := frozen.value;
      if !NoForeign(disk.files, f, index) {
        return Refused;
      }
      NoForeignNoLeftovers(disk.files, f, index, left);
      SourcesAreTheirs(before, entries);
      o := Fill(f, fates);
      ExtendingKeeps(f, index, before, left, disk.files, disk.leftovers);
      if !o.Ok? {
        if o.Refused? {
          BlockedIsNotExportable(before, f, names, target, encode, decode);
        }
        return;
      }
      FinishedRun(disk.files, f, index, decode, names, target);
      FinishedCarries(disk.files, disk.files, f, index, decode);
      return Ok(());
    }

    // ---------- over many lives ----------

    /** What this exporter's own runs for one inventory leave, when nobody else writes there. */
    ghost predicate Resumable(root: string, names: seq<string>, entries: map<string, Source>, target: int, documents: map<string, seq<Byte>>)
      requires KeysOf(names, entries)
      reads this, disk
    {
      if plan.None? then forall p :: p in disk.files ==> !Under(root, p)
      else Untouched() && IsPlanOf(plan.value, disk.files, root, names, entries, target, documents)
    }

    /** The exact condition: such a state accepts another run unless a death left a temporary. */
    lemma ResumesUnlessLeftover(root: string, names: seq<string>, entries: map<string, Source>, target: int, documents: map<string, seq<Byte>>,
        layout: Plan)
      requires Sound() && KeysOf(names, entries) && Resumable(root, names, entries, target, documents)
      requires Acceptable(TensorsOf(names, entries), target) && Planned(TensorsOf(names, entries), target, layout)
      ensures Startable(root, entries, layout, documents, true) <==> Leftovers() == {}
    {
      hide KeysOf, Planned, Codec, NoForeign, OnlyLeftovers, Wellformed, Rightful, NotPlanned, TensorsOf, SourcesOf, Acceptable, Keyed;
      TensorsAreKeyed(names, entries);
      OnePlan(TensorsOf(names, entries), target, layout);
      CleanMeansNoLeftovers();
    }

    /** Any number of lives, each dying anywhere, and then one that does not: it finishes if and only if no
        death fell between the creation and the removal of a temporary, and is refused otherwise. */
    method Lives(root: string, names: seq<string>, entries: map<string, Source>, target: int, documents: map<string, seq<Byte>>,
        lives: seq<(Fate, string -> Fate)>) returns (o: Result<()>)
      requires Sound() && KeysOf(names, entries) && Resumable(root, names, entries, target, documents)
      requires Exportable(disk.files, root, names, entries, target, documents, encode, decode)
      modifies this`plan, disk
      ensures Sound() && !o.Stopped? && (o.Ok? <==> Leftovers() == {}) && (o.Ok? ==> Delivered())
      ensures o.Ok? ==> plan.Some? && Carries(disk.files, disk.files, root, entries, documents, plan.value.layout, index, decode)
    {
      hide *;
      var i := 0;
      o := Stopped;
      while i < |lives| && o.Stopped?
        invariant 0 <= i <= |lives| && Sound()
        invariant Exportable(disk.files, root, names, entries, target, documents, encode, decode)
        invariant Resumable(root, names, entries, target, documents)
        invariant o.Refused? ==> Leftovers() != {}
        invariant o.Ok? ==> Leftovers() == {} && Delivered()
        invariant o.Ok? ==> plan.Some? && Carries(disk.files, disk.files, root, entries, documents, plan.value.layout, index, decode)
      {
        o := Life(root, names, entries, target, documents, lives[i].0, lives[i].1);
        i := i + 1;
      }
      if o.Stopped? {
        ghost var before, left := disk.files, disk.leftovers;
        o := Life(root, names, entries, target, documents, Finishes, _ => Finishes);
        if o.Stopped? {
          SomebodyDied(plan.value, index, before, left, disk.leftovers, _ => Finishes);
        }
      }
    }

    lemma NoneInThere(root: string, names: seq<string>, entries: map<string, Source>, target: int, documents: map<string, seq<Byte>>)
      requires Sound() && KeysOf(names, entries) && Resumable(root, names, entries, target, documents) && Leftovers() == {}
      ensures forall t :: t in disk.leftovers ==> !Under(root, t)
    {
      hide KeysOf, Codec, Wellformed, Rightful, NotPlanned, Planned, TensorsOf, SourcesOf, OnlyLeftovers;
      if plan.Some? {
        assert forall t :: t in disk.leftovers && Under(plan.value.root, t) ==> t in Leftovers();
      }
    }

    /** A life that dies while the temporary for `p` is being written. */
    method DieOver(root: string, names: seq<string>, entries: map<string, Source>, target: int, documents: map<string, seq<Byte>>,
        p: string, word: string, written: nat) returns (o: Result<()>)
      requires Sound() && KeysOf(names, entries) && Resumable(root, names, entries, target, documents) && Leftovers() == {}
      requires Exportable(disk.files, root, names, entries, target, documents, encode, decode)
      requires p !in disk.files && TemporaryPath(p, word) !in disk.files
      requires forall f :: IsPlanOf(f, disk.files, root, names, entries, target, documents) ==> NeedsTemporary(f, index, p, word)
      modifies this`plan, disk
      ensures Sound() && Resumable(root, names, entries, target, documents)
      ensures Exportable(disk.files, root, names, entries, target, documents, encode, decode)
      ensures o.Stopped? && plan.Some? && Leftovers() == {TemporaryPath(p, word)}
    {
      hide KeysOf, Codec, Exportable, PlannedPaths, Died, Delivered, TemporaryPath, Linkable, IsPlanOf, Sound, Resumable, Under;
      NoneInThere(root, names, entries, target, documents);
      ghost var before, left := disk.files, disk.leftovers;
      var fates := q => if q == p then DiesWriting(word, written) else Finishes;
      o := Life(root, names, entries, target, documents, Finishes, fates);
      assert o.Stopped?;
      DiedOver(plan.value, index, before, left, disk.leftovers, fates, p, word, written);
    }

    /** Such a death is final: the next life, and so every later one, is refused, although nothing is wrong
        with the inventory or with what was written. */
    method DieOverAndReturn(root: string, names: seq<string>, entries: map<string, Source>, target: int, documents: map<string, seq<Byte>>,
        p: string, word: string, written: nat) returns (first: Result<()>, next: Result<()>)
      requires Sound() && KeysOf(names, entries) && Resumable(root, names, entries, target, documents) && Leftovers() == {}
      requires Exportable(disk.files, root, names, entries, target, documents, encode, decode)
      requires p !in disk.files && TemporaryPath(p, word) !in disk.files
      requires forall f :: IsPlanOf(f, disk.files, root, names, entries, target, documents) ==> NeedsTemporary(f, index, p, word)
      modifies this`plan, disk
      ensures Sound() && first.Stopped? && next.Refused? && plan.Some? && Leftovers() == {TemporaryPath(p, word)}
    {
      hide *;
      first := DieOver(root, names, entries, target, documents, p, word, written);
      next := Life(root, names, entries, target, documents, Finishes, _ => Finishes);
    }

    /** One of these lives. */
    method Life(root: string, names: seq<string>, entries: map<string, Source>, target: int, documents: map<string, seq<Byte>>,
        freeze: Fate, fates: string -> Fate) returns (o: Result<()>)
      requires Sound() && KeysOf(names, entries) && Resumable(root, names, entries, target, documents)
      requires Exportable(disk.files, root, names, entries, target, documents, encode, decode)
      modifies this`plan, disk
      ensures Sound() && Resumable(root, names, entries, target, documents)
      ensures Exportable(disk.files, root, names, entries, target, documents, encode, decode)
      ensures o.Refused? <==> old(Leftovers()) != {}
      ensures o.Refused? ==> disk.files == old(disk.files) && Leftovers() == old(Leftovers()) && plan == old(plan)
      ensures !o.Refused? && plan.Some? ==> plan.value.root == root
      ensures o.Ok? ==> plan.Some? && Leftovers() == {} && Delivered()
      ensures o.Ok? ==> Carries(disk.files, disk.files, root, entries, documents, plan.value.layout, index, decode)
      ensures o.Ok? ==> forall p :: p in PlannedPaths(plan.value, index) && p !in old(disk.files) ==> fates(p).Finishes?
      ensures !o.Refused? && plan.Some? ==> IsPlanOf(plan.value, old(disk.files), root, names, entries, target, documents)
      ensures o.Stopped? && freeze.Finishes? ==>
        plan.Some? && Died(plan.value, index, old(disk.files), old(disk.leftovers), disk.leftovers, fates)
    {
      hide DistinctStrings, Planned, Codec, NoForeign, OnlyLeftovers, Wellformed, Rightful, NotPlanned, TensorsOf, SourcesOf, Exportable, Startable,
        Finished, Known, ArtifactVerifies, Documents, In, PlannedPaths, SameOutside, Kept, Acceptable, Died, Clean, Delivered, IsPlanOf, Carries;
      ghost var before, left := disk.files, disk.leftovers;
      IsAcceptable(disk.files, root, names, entries, target, documents, encode, decode);
      CleanMeansNoLeftovers();
      forall layout | Planned(TensorsOf(names, entries), target, layout)
        ensures Startable(root, entries, layout, documents, true) <==> Leftovers() == {}
      {
        ResumesUnlessLeftover(root, names, entries, target, documents, layout);
      }
      o := Run(root, names, entries, target, documents, true, freeze, fates);
      ExportableStays(before, disk.files, root, names, entries, target, documents, encode, decode);
      if plan.Some? {
        PlanStays(plan.value, before, disk.files, root, names, entries, target, documents);
      }
    }
  }
}
