/** The local half of a renumbering: every file of the published export is hard-linked under its new name, the
    index is written anew, and the result has to pass the export check under the relabelled plan. */
module RelabelExport {
  import opened Artifact
  import opened Bytes
  import opened ExportLayout
  import opened FileNames
  import opened Options
  import opened PlanFacts
  import opened Relabel
  import opened ShardWriter
  import opened Sorting
  import opened Storage
  import opened StreamShard

  /** A frozen plan whose shards may have any names. */
  datatype Published = Published(root: string, entries: map<string, Source>, files: map<string, seq<string>>,
    weightMap: map<string, string>, total: int, documents: map<string, seq<Byte>>, sources: map<string, seq<Byte>>)

  // ---------- the old export ----------

  /** The payload of some of the files. */
  ghost function FilesSize(some: set<string>, files: map<string, seq<string>>, bytes: map<string, int>): int
    requires some <= files.Keys && forall g, n :: g in files && n in files[g] ==> n in bytes
  {
    if some == {} then 0
    else
      var g :| g in some;
      NamesSize(files[g], bytes) + FilesSize(some - {g}, files, bytes)
  }

  /** The order of the files does not matter. */
  lemma {:induction false} SizeWithout(some: set<string>, g: string, files: map<string, seq<string>>, bytes: map<string, int>)
    requires some <= files.Keys && (forall h, n :: h in files && n in files[h] ==> n in bytes) && g in some
    ensures FilesSize(some, files, bytes) == NamesSize(files[g], bytes) + FilesSize(some - {g}, files, bytes)
    decreases |some|
  {
    var h :| h in some && FilesSize(some, files, bytes) == NamesSize(files[h], bytes) + FilesSize(some - {h}, files, bytes);
    if h != g {
      SizeWithout(some - {h}, g, files, bytes);
      SizeWithout(some - {g}, h, files, bytes);
      assert some - {h} - {g} == some - {g} - {h};
    }
  }

  ghost predicate Listed(p: Published) {
    forall g, n :: g in p.files && n in p.files[g] ==> n in p.entries
  }

  ghost predicate ShardPasses(disk: map<string, seq<Byte>>, p: Published, decode: seq<Byte> -> Option<seq<Entry>>, g: string)
    requires Listed(p) && g in p.files
  {
    && OneGroup(p.files[g]) && In(p.root, g) in disk
    && (forall n :: n in p.files[g] ==> n in p.weightMap && p.weightMap[n] == g)
    && ShardVerifies(disk[In(p.root, g)], decode, p.files[g], p.entries)
  }

  ghost predicate Covers(p: Published) {
    && (forall n :: n in p.entries <==> n in p.weightMap)
    && (forall n :: n in p.entries ==> exists g :: g in p.files && n in p.files[g])
  }

  /** What `verify_files` accepts in a published export's shards, plan and documents. */
  ghost predicate ContentVerifies(disk: map<string, seq<Byte>>, p: Published, decode: seq<Byte> -> Option<seq<Entry>>) {
    && Listed(p) && Covers(p)
    && (forall d :: d in p.documents ==> In(p.root, d) in disk && disk[In(p.root, d)] == p.documents[d])
    && (forall g :: g in p.files ==> ShardPasses(disk, p, decode, g))
    && p.total == FilesSize(p.files.Keys, p.files, BytesOf(p.entries))
  }

  // ---------- the revised plan ----------

  /** Every shard of the plan, and no other, has a new name of its own. */
  ghost predicate Renamable(p: Published, mapping: map<string, FileName>) {
    p.files.Keys == mapping.Keys && Injective(mapping) && forall n :: n in p.weightMap ==> p.weightMap[n] in mapping
  }

  /** The same tensors, documents and sources, under new names in a new directory. */
  function Revised(p: Published, root: string, mapping: map<string, FileName>): Frozen
    requires Renamable(p, mapping)
  {
    Frozen(root, p.entries, Plan(RenamedFiles(p.files, mapping), RenamedWeights(p.weightMap, mapping), p.total), p.documents, p.sources)
  }

  /** The mapping fits the plan. */
  ghost predicate Fitting(p: Published, names: seq<string>, mapping: map<string, FileName>) {
    Renumbers(names, mapping) && Renamable(p, mapping)
  }

  lemma RevisedIsConsecutive(p: Published, root: string, names: seq<string>, mapping: map<string, FileName>)
    requires Fitting(p, names, mapping)
    ensures Consecutive(Revised(p, root, mapping).layout.files) && |Revised(p, root, mapping).layout.files| == |ShardsOf(names)|
  {
    hide PlaceLe, IsShardName;
    var files, n := RenamedFiles(p.files, mapping), |ShardsOf(names)|;
    assert files.Keys == mapping.Values;
    forall f ensures f in files.Keys <==> f.total == n && 1 <= f.ordinal <= n {
      if f in files.Keys {
        assert mapping[SourceOf(mapping, f)] == f;
      }
    }
    CountFiles(files.Keys, n, n);
  }

  // ---------- the relabelled export verifies ----------

  /** The new directory holds every file of the old one under its new name, and a new index. */
  ghost predicate Relinked(before: map<string, seq<Byte>>, after: map<string, seq<Byte>>, p: Published, mapping: map<string, FileName>,
      f: Frozen, index: Plan -> seq<Byte>)
  {
    && OnlyPlanned(after, f, index)
    && (forall g :: g in p.files && g in mapping ==>
          In(p.root, g) in before && PathOf(f.root, mapping[g]) in after && after[PathOf(f.root, mapping[g])] == before[In(p.root, g)])
    && (forall d :: d in p.documents ==>
          In(p.root, d) in before && In(f.root, d) in after && after[In(f.root, d)] == before[In(p.root, d)])
    && In(f.root, INDEX) in after && after[In(f.root, INDEX)] == index(f.layout)
  }

  /** The revised plan lists what the published one lists, name by name. */
  ghost predicate Mirrors(p: Published, f: Frozen, mapping: map<string, FileName>) {
    && f.entries == p.entries && f.documents == p.documents && f.layout.total == p.total
    && p.files.Keys == mapping.Keys && Injective(mapping)
    && (forall g :: g in p.files ==> mapping[g] in f.layout.files && f.layout.files[mapping[g]] == p.files[g])
    && (forall h :: h in f.layout.files ==> h in mapping.Values)
    && (forall n :: n in p.weightMap ==> p.weightMap[n] in mapping)
    && f.layout.weightMap == RenamedWeights(p.weightMap, mapping)
  }

  lemma RevisedMirrors(p: Published, root: string, names: seq<string>, mapping: map<string, FileName>)
    requires Fitting(p, names, mapping)
    ensures Mirrors(p, Revised(p, root, mapping), mapping)
  {
    RenumberingIsInjective(names, mapping);
    hide Renumbers, Injective, RenamedWeights, RenamedFiles;
    RenamedFilesMirror(p.files, mapping);
  }

  lemma RenumberingIsInjective(names: seq<string>, mapping: map<string, FileName>)
    requires Renumbers(names, mapping)
    ensures Injective(mapping)
  {
    hide PlaceLe, IsShardName;
  }

  lemma MirrorIsKnown(p: Published, f: Frozen, mapping: map<string, FileName>)
    requires Mirrors(p, f, mapping)
    ensures Listed(p) <==> Known(f)
  {
    hide RenamedWeights;
    forall h | h in f.layout.files ensures SourceOf(mapping, h) in p.files && p.files[SourceOf(mapping, h)] == f.layout.files[h] {
    }
  }

  lemma MirrorHolds(p: Published, f: Frozen, mapping: map<string, FileName>, n: string)
    requires Mirrors(p, f, mapping)
    ensures (exists g :: g in p.files && n in p.files[g]) <==> (exists h :: h in f.layout.files && n in f.layout.files[h])
  {
    hide RenamedWeights, Injective;
    if g :| g in p.files && n in p.files[g] {
      assert n in f.layout.files[mapping[g]];
    }
    if h :| h in f.layout.files && n in f.layout.files[h] {
      assert n in p.files[SourceOf(mapping, h)];
    }
  }

  lemma MirrorCovers(p: Published, f: Frozen, mapping: map<string, FileName>)
    requires Mirrors(p, f, mapping)
    ensures Covers(p) <==> CoversInventory(f)
  {
    hide RenamedWeights, Injective;
    assert p.weightMap.Keys == f.layout.weightMap.Keys && p.entries == f.entries;
    hide Mirrors;
    forall n | n in p.entries
      ensures (exists g :: g in p.files && n in p.files[g]) <==> (exists h :: h in f.layout.files && n in f.layout.files[h])
    {
      MirrorHolds(p, f, mapping, n);
    }
  }

  /** A shard passes under its new name exactly when it passed under its old one. */
  lemma ShardStillPasses(before: map<string, seq<Byte>>, after: map<string, seq<Byte>>, p: Published, f: Frozen, mapping: map<string, FileName>,
      index: Plan -> seq<Byte>, decode: seq<Byte> -> Option<seq<Entry>>, g: string)
    requires Mirrors(p, f, mapping) && Listed(p) && Known(f) && g in p.files && Relinked(before, after, p, mapping, f, index)
    ensures mapping[g] in f.layout.files && (FileVerifies(after, f, decode, mapping[g]) <==> ShardPasses(before, p, decode, g))
  {
    hide OneGroup, ShardVerifies, PathOf, In, OnlyPlanned, Listed, Known;
    forall n ensures n in p.weightMap && p.weightMap[n] == g <==> n in f.layout.weightMap && f.layout.weightMap[n] == mapping[g] {
    }
    hide RenamedWeights, Injective;
  }

  lemma AllStillPass(before: map<string, seq<Byte>>, after: map<string, seq<Byte>>, p: Published, f: Frozen, mapping: map<string, FileName>,
      index: Plan -> seq<Byte>, decode: seq<Byte> -> Option<seq<Entry>>)
    requires Mirrors(p, f, mapping) && Listed(p) && Known(f) && Relinked(before, after, p, mapping, f, index)
    ensures (forall h :: h in f.layout.files ==> FileVerifies(after, f, decode, h)) <==> (forall g :: g in p.files ==> ShardPasses(before, p, decode, g))
  {
    forall g | g in p.files ensures mapping[g] in f.layout.files && (FileVerifies(after, f, decode, mapping[g]) <==> ShardPasses(before, p, decode, g)) {
      ShardStillPasses(before, after, p, f, mapping, index, decode, g);
    }
    forall h | h in f.layout.files ensures SourceOf(mapping, h) in p.files && mapping[SourceOf(mapping, h)] == h {
    }
    hide Mirrors, Relinked, FileVerifies, ShardPasses, Listed, Known;
  }

  lemma DocumentsStillHold(before: map<string, seq<Byte>>, after: map<string, seq<Byte>>, p: Published, f: Frozen, mapping: map<string, FileName>,
      index: Plan -> seq<Byte>)
    requires Mirrors(p, f, mapping) && INDEX !in p.documents && Relinked(before, after, p, mapping, f, index)
    ensures (forall d :: d in Documents(f, index) ==> In(f.root, d) in after && after[In(f.root, d)] == Documents(f, index)[d])
       <==> (forall d :: d in p.documents ==> In(p.root, d) in before && before[In(p.root, d)] == p.documents[d])
  {
    hide Injective, RenamedWeights, PathOf, In, OnlyPlanned;
    var documents := Documents(f, index);
    assert documents.Keys == p.documents.Keys + {INDEX};
    assert forall d :: d in p.documents ==> d in documents && documents[d] == p.documents[d];
  }

  /** The files numbered up to `k`. */
  ghost function NumberedUpTo(mapping: map<string, FileName>, k: nat): set<string> {
    set g | g in mapping && mapping[g].ordinal <= k
  }

  lemma NumberedNext(p: Published, f: Frozen, mapping: map<string, FileName>, k: nat) returns (g: string)
    requires Mirrors(p, f, mapping) && Consecutive(f.layout.files) && 1 <= k <= |f.layout.files|
    ensures g in mapping && mapping[g] == FileName(k, |f.layout.files|) && f.layout.files[FileName(k, |f.layout.files|)] == p.files[g]
    ensures g in NumberedUpTo(mapping, k) && NumberedUpTo(mapping, k) - {g} == NumberedUpTo(mapping, k - 1)
  {
    hide RenamedWeights;
    g := SourceOf(mapping, FileName(k, |f.layout.files|));
  }

  lemma NumberedEnds(p: Published, f: Frozen, mapping: map<string, FileName>)
    requires Mirrors(p, f, mapping) && Consecutive(f.layout.files)
    ensures NumberedUpTo(mapping, 0) == {} && NumberedUpTo(mapping, |f.layout.files|) == p.files.Keys
  {
    hide RenamedWeights;
  }

  /** Renumbering reorders the files and so keeps the payload. */
  lemma {:induction false} MirrorSize(p: Published, f: Frozen, mapping: map<string, FileName>, k: nat)
    requires Mirrors(p, f, mapping) && Listed(p) && Consecutive(f.layout.files) && AllPriced(f.layout, BytesOf(p.entries)) && k <= |f.layout.files|
    requires p.files.Keys == mapping.Keys
    ensures PlanSize(f.layout, BytesOf(p.entries), k) == FilesSize(NumberedUpTo(mapping, k), p.files, BytesOf(p.entries))
  {
    hide Mirrors, Consecutive, AllPriced, NamesSize, BytesOf;
    if k == 0 {
      NumberedEnds(p, f, mapping);
    } else {
      var g := NumberedNext(p, f, mapping, k);
      MirrorSize(p, f, mapping, k - 1);
      SizeWithout(NumberedUpTo(mapping, k), g, p.files, BytesOf(p.entries));
    }
  }

  lemma MirrorTotal(p: Published, f: Frozen, mapping: map<string, FileName>)
    requires Mirrors(p, f, mapping) && Listed(p) && Known(f) && Consecutive(f.layout.files)
    ensures PlanSize(f.layout, BytesOf(f.entries), |f.layout.files|) == FilesSize(p.files.Keys, p.files, BytesOf(p.entries))
  {
    NumberedEnds(p, f, mapping);
    assert AllPriced(f.layout, BytesOf(p.entries)) by {
      hide Mirrors, Consecutive;
    }
    hide Consecutive, PlanSize, FilesSize, NamesSize, RenamedWeights, Injective;
    MirrorSize(p, f, mapping, |f.layout.files|);
  }

  /** A plan and its mirror image are accepted together. */
  lemma MirrorVerifies(before: map<string, seq<Byte>>, after: map<string, seq<Byte>>, p: Published, f: Frozen, mapping: map<string, FileName>,
      index: Plan -> seq<Byte>, decode: seq<Byte> -> Option<seq<Entry>>)
    requires Mirrors(p, f, mapping) && Consecutive(f.layout.files) && INDEX !in p.documents && Relinked(before, after, p, mapping, f, index)
    ensures ContentVerifies(before, p, decode) <==> Known(f) && ArtifactVerifies(after, f, index, decode)
  {
    hide FileVerifies, ShardPasses, Known, Listed, Consecutive, PlanSize, FilesSize, Covers, CoversInventory, Documents, In, PathOf,
      OnlyPlanned, RenamedWeights, Injective, BytesOf;
    MirrorIsKnown(p, f, mapping);
    MirrorCovers(p, f, mapping);
    DocumentsStillHold(before, after, p, f, mapping, index);
    assert OnlyPlanned(after, f, index) && f.layout.total == p.total && f.entries == p.entries;
    if Listed(p) {
      AllStillPass(before, after, p, f, mapping, index, decode);
      MirrorTotal(p, f, mapping);
    }
    hide Mirrors, Relinked;
  }

  /** Renumbering keeps validity: once every file is linked under its new name and the index is new, the
      check accepts the directory under the revised plan exactly when it accepts the old content. */
  lemma RelabellingKeepsValidity(before: map<string, seq<Byte>>, after: map<string, seq<Byte>>, p: Published, root: string, names: seq<string>,
      mapping: map<string, FileName>, index: Plan -> seq<Byte>, decode: seq<Byte> -> Option<seq<Entry>>)
    requires Fitting(p, names, mapping) && INDEX !in p.documents
    requires Relinked(before, after, p, mapping, Revised(p, root, mapping), index)
    ensures var f := Revised(p, root, mapping);
      && Consecutive(f.layout.files)
      && (ContentVerifies(before, p, decode) <==> Known(f) && ArtifactVerifies(after, f, index, decode))
  {
    var f := Revised(p, root, mapping);
    RevisedMirrors(p, root, names, mapping);
    RevisedIsConsecutive(p, root, names, mapping);
    hide Renumbers, Revised, Renamable, Mirrors, Known, Consecutive, Relinked, ContentVerifies, ArtifactVerifies;
    MirrorVerifies(before, after, p, f, mapping, index, decode);
  }

  ghost predicate Nameable(f: Frozen) {
    && (forall n :: n in f.layout.weightMap ==> f.layout.weightMap[n] in f.layout.files)
    && (forall g, h :: g in f.layout.files && h in f.layout.files && Render(g) == Render(h) ==> g == h)
  }

  function ByName(f: Frozen): (r: map<string, FileName>)
    requires Nameable(f)
    ensures forall g :: g in f.layout.files ==> Render(g) in r && r[Render(g)] == g
    ensures forall n :: n in r ==> r[n] in f.layout.files && n == Render(r[n])
  {
    map g | g in f.layout.files :: Render(g) := g
  }

  /** An export under its own plan, as a published one. */
  function AsPublished(f: Frozen): Published
    requires Nameable(f)
  {
    var names := ByName(f);
    Published(f.root, f.entries, map n | n in names :: f.layout.files[names[n]],
      map n | n in f.layout.weightMap :: Render(f.layout.weightMap[n]), f.layout.total, f.documents, f.sources)
  }

  lemma OwnMirror(f: Frozen)
    requires Nameable(f)
    ensures Mirrors(AsPublished(f), f, ByName(f))
  {
    hide Render, ByName;
    var p, mapping := AsPublished(f), ByName(f);
    assert p.files.Keys == mapping.Keys;
    forall h | h in f.layout.files ensures h in mapping.Values {
      assert mapping[Render(h)] == h;
    }
    assert f.layout.weightMap == RenamedWeights(p.weightMap, mapping);
  }

  lemma OwnPaths(files: map<string, seq<Byte>>, f: Frozen, index: Plan -> seq<Byte>, decode: seq<Byte> -> Option<seq<Entry>>, n: string)
    requires Nameable(f) && Consecutive(f.layout.files) && Known(f) && ArtifactVerifies(files, f, index, decode) && n in AsPublished(f).files
    ensures n in ByName(f) && In(f.root, n) == PathOf(f.root, ByName(f)[n]) && In(f.root, n) in files
  {
    hide Render, ByName, OnlyPlanned, OneGroup, ShardVerifies, Consecutive, PlanSize, CoversInventory, Known, In, Nameable;
    assert FileVerifies(files, f, decode, ByName(f)[n]);
  }

  lemma OwnDocuments(files: map<string, seq<Byte>>, f: Frozen, index: Plan -> seq<Byte>, decode: seq<Byte> -> Option<seq<Entry>>)
    requires Consecutive(f.layout.files) && Known(f) && ArtifactVerifies(files, f, index, decode) && INDEX !in f.documents
    ensures OnlyPlanned(files, f, index) && forall d :: d in f.documents ==> In(f.root, d) in files
    ensures In(f.root, INDEX) in files && files[In(f.root, INDEX)] == index(f.layout)
  {
    hide OnlyPlanned, FileVerifies, Consecutive, PlanSize, CoversInventory, Known, In;
    assert forall d :: d in f.documents || d == INDEX ==> d in Documents(f, index);
  }

  lemma OwnRelinking(files: map<string, seq<Byte>>, f: Frozen, index: Plan -> seq<Byte>, decode: seq<Byte> -> Option<seq<Entry>>)
    requires Nameable(f) && Consecutive(f.layout.files) && Known(f) && ArtifactVerifies(files, f, index, decode) && INDEX !in f.documents
    ensures Relinked(files, files, AsPublished(f), ByName(f), f, index)
  {
    hide ArtifactVerifies, Render, ByName, OnlyPlanned, Consecutive, Known, In, PathOf, Nameable;
    var p := AsPublished(f);
    OwnDocuments(files, f, index, decode);
    forall n | n in p.files && n in ByName(f) ensures In(f.root, n) == PathOf(f.root, ByName(f)[n]) && In(f.root, n) in files {
      OwnPaths(files, f, index, decode, n);
    }
  }

  lemma VerifiedIndexNamesFiles(files: map<string, seq<Byte>>, f: Frozen, index: Plan -> seq<Byte>, decode: seq<Byte> -> Option<seq<Entry>>)
    requires Consecutive(f.layout.files) && Known(f) && ArtifactVerifies(files, f, index, decode)
    ensures forall n :: n in f.layout.weightMap ==> f.layout.weightMap[n] in f.layout.files
  {
    hide OneGroup, ShardVerifies, PathOf, Consecutive, PlanSize;
    forall n | n in f.layout.weightMap ensures f.layout.weightMap[n] in f.layout.files {
      var g :| g in f.layout.files && n in f.layout.files[g];
      assert FileVerifies(files, f, decode, g);
    }
  }

  /** What the exporter leaves can be renumbered: a verified artifact is a verified published export. */
  lemma VerifiedIsPublished(files: map<string, seq<Byte>>, f: Frozen, index: Plan -> seq<Byte>, decode: seq<Byte> -> Option<seq<Entry>>)
    requires Consecutive(f.layout.files) && Known(f) && ArtifactVerifies(files, f, index, decode) && INDEX !in f.documents
    ensures Nameable(f) && ContentVerifies(files, AsPublished(f), decode)
  {
    hide Render, ArtifactVerifies, Known, Relinked, Mirrors, ContentVerifies;
    VerifiedIndexNamesFiles(files, f, index, decode);
    forall g, h | g in f.layout.files && h in f.layout.files && Render(g) == Render(h) ensures g == h {
      RenderIsInjective(g, h);
    }
    OwnMirror(f);
    OwnRelinking(files, f, index, decode);
    hide AsPublished, Nameable, Consecutive;
    MirrorVerifies(files, files, AsPublished(f), f, ByName(f), index, decode);
  }

  // ---------- the run ----------

  /** Neither directory is in the other. */
  predicate SeparateRoots(a: string, b: string) {
    a != b && !Under(a, b) && !Under(b, a)
  }

  lemma RootsNest(from: string, root: string, n: string)
    requires Under(root, In(from, n))
    ensures from == root || Under(from, root) || Under(root, from)
  {
    var path := from + "/" + n;
    assert path[..|root|] == root && path[|root|] == '/';
    assert path[..|from|] == from && path[|from|] == '/';
    if |root| < |from| {
      assert from[..|root| + 1] == root + "/";
    } else if |root| > |from| {
      assert root[..|from| + 1] == from + "/";
    }
  }

  lemma OriginalsAreOutside(from: string, root: string, n: string)
    requires SeparateRoots(from, root)
    ensures !Under(root, In(from, n))
  {
    if Under(root, In(from, n)) {
      RootsNest(from, root, n);
    }
  }

  /** Where a file of the receipt goes. */
  function Target(root: string, mapping: map<string, FileName>, n: string): string {
    if n in mapping then PathOf(root, mapping[n]) else In(root, n)
  }

  /** The number of shards of the one export that the script is for. */
  const SHARDS: nat := 52

  /** The receipt lists the export: its shards, its documents and its index. */
  ghost predicate Receipted(p: Published, names: seq<string>) {
    && (forall n :: n in names <==> n in p.files || n in p.documents || n == INDEX)
    && (forall n :: n in p.files ==> IsShardName(n))
    && (forall d :: d in p.documents ==> !IsShardName(d) && d != INDEX)
  }

  /** The local files are still those that were uploaded. */
  ghost predicate Unchanged(disk: map<string, seq<Byte>>, root: string, receipt: map<string, seq<Byte>>) {
    forall n :: n in receipt ==> In(root, n) in disk && disk[In(root, n)] == receipt[n]
  }

  /** What a run must find right. */
  ghost predicate Relabelable(disk: map<string, seq<Byte>>, p: Published, root: string, receipt: map<string, seq<Byte>>, names: seq<string>,
      decode: seq<Byte> -> Option<seq<Entry>>)
  {
    && SeparateRoots(p.root, root) && |p.files| == SHARDS && (forall n :: n in p.files ==> Place(n).Some?)
    && Receipted(p, names) && Unchanged(disk, p.root, receipt) && ContentVerifies(disk, p, decode)
  }

  /** Directory entries that are hard links to an original, and so share its content. */
  ghost predicate Shared(files: Files, links: map<string, string>) {
    forall t :: t in links ==> t in files && links[t] in files && files[t] == files[links[t]]
  }

  /** The new file of the receipt's `n` is its link, or missing. */
  ghost predicate OwnLink(files: Files, links: map<string, string>, p: Published, root: string, mapping: map<string, FileName>, n: string) {
    var t := Target(root, mapping, n);
    t in files ==> t in links && links[t] == In(p.root, n)
  }

  /** What runs of this relabelling leave in the new directory: links of originals under their new names,
      the new index, and temporaries of deaths. */
  ghost predicate OnlyLinks(files: Files, links: map<string, string>, left: set<string>, p: Published, f: Frozen, names: seq<string>,
      mapping: map<string, FileName>, index: Plan -> seq<Byte>)
  {
    && (forall q :: q in files && Under(f.root, q) ==> q in NewPaths(f.root, names, mapping) || q in left)
    && (forall n :: n in names && n != INDEX ==> OwnLink(files, links, p, f.root, mapping, n))
    && (In(f.root, INDEX) in files ==> files[In(f.root, INDEX)] == index(f.layout))
  }

  /** The new names of the receipt's files, and the index. */
  function NewPaths(root: string, names: seq<string>, mapping: map<string, FileName>): (r: set<string>)
    ensures In(root, INDEX) in r && forall n :: n in names && n != INDEX ==> Target(root, mapping, n) in r
    ensures forall q :: q in r ==> q == In(root, INDEX) || exists n :: n in names && n != INDEX && q == Target(root, mapping, n)
  {
    {In(root, INDEX)} + set n | n in names && n != INDEX :: Target(root, mapping, n)
  }

  /** All names that a temporary cannot have. */
  function Reserved(f: Frozen, names: seq<string>, mapping: map<string, FileName>, index: Plan -> seq<Byte>): set<string> {
    NewPaths(f.root, names, mapping) + PlannedPaths(f, index)
  }

  lemma UnchangedOutside(before: Files, after: Files, p: Published, root: string, receipt: map<string, seq<Byte>>)
    requires SeparateRoots(p.root, root) && SameOutside(before, after, root) && Unchanged(before, p.root, receipt)
    ensures Unchanged(after, p.root, receipt)
  {
    hide In, Under, SeparateRoots;
    forall n | n in receipt ensures In(p.root, n) in after && after[In(p.root, n)] == receipt[n] {
      OriginalsAreOutside(p.root, root, n);
    }
  }

  lemma TargetIsUnder(root: string, mapping: map<string, FileName>, n: string)
    ensures Under(root, Target(root, mapping, n))
  {
    hide Render;
    InIsInjective(root, n, n);
    if n in mapping {
      InIsInjective(root, Render(mapping[n]), n);
    }
  }

  lemma IndexIsUnder(root: string)
    ensures Under(root, In(root, INDEX))
  {
    InIsInjective(root, INDEX, INDEX);
  }

  /** Targets are apart from each other and from the index. */
  lemma TargetsDiffer(root: string, names: seq<string>, mapping: map<string, FileName>, a: string, b: string)
    requires Renumbers(names, mapping) && a in names && b in names && a != b
    ensures Target(root, mapping, a) != Target(root, mapping, b)
  {
    hide Render, PlaceLe, IsShardName;
    var x, y := if a in mapping then Render(mapping[a]) else a, if b in mapping then Render(mapping[b]) else b;
    InIsInjective(root, x, y);
    if a in mapping {
      RenderedIsShardName(mapping[a]);
    }
    if b in mapping {
      RenderedIsShardName(mapping[b]);
    }
    if a in mapping && b in mapping && x == y {
      RenderIsInjective(mapping[a], mapping[b]);
    }
  }

  lemma IndexIsNoTarget(root: string, names: seq<string>, mapping: map<string, FileName>, n: string)
    requires Renumbers(names, mapping) && n in names && n != INDEX
    ensures Target(root, mapping, n) != In(root, INDEX)
  {
    hide Render, PlaceLe;
    assert INDEX[|INDEX| - 12..] == "s.index.json";
    InIsInjective(root, if n in mapping then Render(mapping[n]) else n, INDEX);
    if n in mapping {
      RenderedIsShardName(mapping[n]);
    }
  }

  lemma RevisedRoot(p: Published, root: string, mapping: map<string, FileName>)
    requires Renamable(p, mapping)
    ensures Revised(p, root, mapping).root == root
  {
  }

  lemma OwnLinks(files: Files, links: map<string, string>, left: set<string>, p: Published, f: Frozen, names: seq<string>, mapping: map<string, FileName>,
      index: Plan -> seq<Byte>, n: string)
    requires OnlyLinks(files, links, left, p, f, names, mapping, index) && n in names && n != INDEX
    ensures OwnLink(files, links, p, f.root, mapping, n)
  {
    hide Target, In, Under, NewPaths;
  }

  /** A new link joins. */
  lemma LinkJoins(files: Files, links: map<string, string>, left: set<string>, p: Published, f: Frozen, names: seq<string>,
      mapping: map<string, FileName>, index: Plan -> seq<Byte>, n: string)
    requires OnlyLinks(files, links, left, p, f, names, mapping, index) && Renumbers(names, mapping) && n in names && n != INDEX
    requires Target(f.root, mapping, n) !in files && In(p.root, n) in files
    ensures var t := Target(f.root, mapping, n);
      OnlyLinks(files[t := files[In(p.root, n)]], links[t := In(p.root, n)], left, p, f, names, mapping, index)
  {
    var t := Target(f.root, mapping, n);
    hide Renumbers, Target, In, Under, NewPaths;
    IndexIsNoTarget(f.root, names, mapping, n);
    var after, linked := files[t := files[In(p.root, n)]], links[t := In(p.root, n)];
    forall m | m in names && m != INDEX ensures OwnLink(after, linked, p, f.root, mapping, m) {
      if m != n {
        TargetsDiffer(f.root, names, mapping, m, n);
        assert OwnLink(files, links, p, f.root, mapping, m);
      }
    }
  }

  lemma NumberedNames(names: seq<string>, mapping: map<string, FileName>)
    requires Renumbers(names, mapping)
    ensures forall n :: n in mapping <==> n in names && IsShardName(n)
  {
    hide PlaceLe, IsShardName;
  }

  lemma IndexIsNoShard()
    ensures !IsShardName(INDEX)
  {
    assert INDEX[|INDEX| - 12..] == "s.index.json";
  }

  lemma IndexNamesFiles(disk: Files, p: Published, decode: seq<Byte> -> Option<seq<Entry>>, n: string)
    requires ContentVerifies(disk, p, decode) && n in p.weightMap
    ensures p.weightMap[n] in p.files
  {
    hide OneGroup, ShardVerifies, FilesSize, In;
    var g :| g in p.files && n in p.files[g];
    assert ShardPasses(disk, p, decode, g);
  }

  /** The new index joins, or its writer dies. */
  lemma IndexJoins(before: Files, after: Files, links: map<string, string>, left: set<string>, p: Published, f: Frozen, names: seq<string>,
      mapping: map<string, FileName>, index: Plan -> seq<Byte>, fate: Fate)
    requires OnlyLinks(before, links, left, p, f, names, mapping, index) && Renumbers(names, mapping) && In(f.root, INDEX) !in before
    requires Through(before, after, In(f.root, INDEX), index(f.layout), Reserved(f, names, mapping, index), fate)
    ensures OnlyLinks(after, links, left + Remnant(before, In(f.root, INDEX), Reserved(f, names, mapping, index), fate), p, f, names, mapping, index)
  {
    hide Renumbers, Target, In, Under, NewPaths, Remnant, PlannedPaths;
    forall n | n in names && n != INDEX ensures OwnLink(after, links, p, f.root, mapping, n) {
      IndexIsNoTarget(f.root, names, mapping, n);
      assert OwnLink(before, links, p, f.root, mapping, n);
    }
  }

  lemma IndexIsRight(files: Files, links: map<string, string>, left: set<string>, p: Published, f: Frozen, names: seq<string>,
      mapping: map<string, FileName>, index: Plan -> seq<Byte>)
    requires OnlyLinks(files, links, left, p, f, names, mapping, index) && In(f.root, INDEX) in files
    ensures files[In(f.root, INDEX)] == index(f.layout)
  {
    hide In, NewPaths, Under, OwnLink;
  }

  lemma KnownByNames(f: Frozen)
    ensures Known(f) <==> !exists g, n :: g in f.layout.files && n in f.layout.files[g] && n !in f.entries
  {
  }

  /** Every file of the receipt has its link. */
  ghost predicate AllLinked(files: Files, links: map<string, string>, p: Published, root: string, names: seq<string>, mapping: map<string, FileName>) {
    forall n :: n in names && n != INDEX ==> Linked(files, links, p, root, mapping, n)
  }

  ghost predicate Linked(files: Files, links: map<string, string>, p: Published, root: string, mapping: map<string, FileName>, n: string) {
    var t := Target(root, mapping, n);
    t in files && t in links && links[t] == In(p.root, n)
  }

  /** A linked file is the original. */
  lemma LinkedIsOriginal(before: Files, files: Files, links: map<string, string>, p: Published, root: string, mapping: map<string, FileName>, n: string)
    requires SeparateRoots(p.root, root) && SameOutside(before, files, root) && Shared(files, links) && Linked(files, links, p, root, mapping, n)
    ensures In(p.root, n) in before && Target(root, mapping, n) in files && files[Target(root, mapping, n)] == before[In(p.root, n)]
  {
    hide Target, In, Under, SeparateRoots;
    OriginalsAreOutside(p.root, root, n);
  }

  /** With all links and the index, and nothing else, the directory is the relinked export. */
  lemma LinkedIsRelinked(before: Files, files: Files, links: map<string, string>, p: Published, f: Frozen, names: seq<string>,
      mapping: map<string, FileName>, index: Plan -> seq<Byte>)
    requires SeparateRoots(p.root, f.root) && SameOutside(before, files, f.root) && Shared(files, links)
    requires OnlyLinks(files, links, {}, p, f, names, mapping, index) && AllLinked(files, links, p, f.root, names, mapping)
    requires Receipted(p, names) && Mirrors(p, f, mapping) && In(f.root, INDEX) in files
    ensures Relinked(before, files, p, mapping, f, index)
  {
    hide In, Under, SeparateRoots, SameOutside, Shared, Injective, RenamedWeights, IsShardName, PathOf;
    forall n | n in names && n != INDEX
      ensures In(p.root, n) in before && Target(f.root, mapping, n) in files && files[Target(f.root, mapping, n)] == before[In(p.root, n)]
    {
      LinkedIsOriginal(before, files, links, p, f.root, mapping, n);
    }
    LinkedIsPlanned(files, links, p, f, names, mapping, index);
    IndexIsNoShard();
    assert files[In(f.root, INDEX)] == index(f.layout);
    hide OnlyLinks, OnlyPlanned, Linked;
  }

  lemma LinkedIsPlanned(files: Files, links: map<string, string>, p: Published, f: Frozen, names: seq<string>,
      mapping: map<string, FileName>, index: Plan -> seq<Byte>)
    requires OnlyLinks(files, links, {}, p, f, names, mapping, index) && AllLinked(files, links, p, f.root, names, mapping)
    requires Receipted(p, names) && Mirrors(p, f, mapping) && In(f.root, INDEX) in files
    ensures OnlyPlanned(files, f, index)
  {
    hide In, Under, Injective, RenamedWeights, IsShardName, PathOf;
    var documents := Documents(f, index);
    assert documents.Keys == p.documents.Keys + {INDEX};
    forall q | Under(f.root, q) ensures q in files <==> IsShardPath(f, q) || IsDocumentPath(f, index, q) {
      if q in files && q != In(f.root, INDEX) {
        var n :| n in names && n != INDEX && q == Target(f.root, mapping, n);
        assert n in p.files || n in documents;
      }
      if IsShardPath(f, q) {
        var h :| h in f.layout.files && q == PathOf(f.root, h);
        IndexIsNoShard();
        assert Linked(files, links, p, f.root, mapping, SourceOf(mapping, h));
      }
      if IsDocumentPath(f, index, q) {
        var d :| d in documents && q == In(f.root, d);
        assert d == INDEX || Linked(files, links, p, f.root, mapping, d);
      }
    }
  }

  /** Every file of the receipt is in the new directory, under its number if it has one, with the content that was
      uploaded. */
  ghost predicate CarriesReceipt(files: Files, root: string, receipt: map<string, seq<Byte>>, mapping: map<string, FileName>) {
    forall n :: n in receipt && n != "model.safetensors.index.json" ==>
      var t := root + "/" + if n in mapping then Render(mapping[n]) else n; t in files && files[t] == receipt[n]
  }

  lemma LinkedCarry(before: Files, files: Files, links: map<string, string>, p: Published, root: string, receipt: map<string, seq<Byte>>,
      names: seq<string>, mapping: map<string, FileName>)
    requires SeparateRoots(p.root, root) && SameOutside(before, files, root) && Shared(files, links) && Unchanged(before, p.root, receipt)
    requires AllLinked(files, links, p, root, names, mapping) && forall n :: n in names <==> n in receipt
    ensures CarriesReceipt(files, root, receipt, mapping)
  {
    hide SeparateRoots, SameOutside, Shared, Under, Render;
    forall n | n in receipt && n != INDEX ensures Target(root, mapping, n) in files && files[Target(root, mapping, n)] == receipt[n] {
      assert n in names && Linked(files, links, p, root, mapping, n);
      LinkedIsOriginal(before, files, links, p, root, mapping, n);
    }
  }

  /** An export that is right still verifies once it is relinked. */
  lemma RelinkedVerifies(before: Files, files: Files, links: map<string, string>, p: Published, f: Frozen, receipt: map<string, seq<Byte>>,
      names: seq<string>, mapping: map<string, FileName>, index: Plan -> seq<Byte>, decode: seq<Byte> -> Option<seq<Entry>>)
    requires Relabelable(before, p, f.root, receipt, names, decode) && Fitting(p, names, mapping) && f == Revised(p, f.root, mapping)
    requires SameOutside(before, files, f.root) && Shared(files, links) && In(f.root, INDEX) in files
    requires OnlyLinks(files, links, {}, p, f, names, mapping, index) && AllLinked(files, links, p, f.root, names, mapping)
    ensures Consecutive(f.layout.files) && Known(f) && ArtifactVerifies(files, f, index, decode)
  {
    RevisedMirrors(p, f.root, names, mapping);
    hide OnlyLinks, AllLinked, Relinked, ContentVerifies, Renumbers, Revised, Renamable, Mirrors, SeparateRoots, Unchanged, Consecutive, Known,
      ArtifactVerifies, In, Shared, SameOutside, Place, IsShardName;
    LinkedIsRelinked(before, files, links, p, f, names, mapping, index);
    RelabellingKeepsValidity(before, files, p, f.root, names, mapping, index, decode);
  }

  /** Relinking in the new directory leaves the old export as it was. */
  lemma RelabelableStays(before: Files, after: Files, p: Published, root: string, receipt: map<string, seq<Byte>>, names: seq<string>,
      decode: seq<Byte> -> Option<seq<Entry>>)
    requires SameOutside(before, after, root) && Relabelable(before, p, root, receipt, names, decode)
    ensures Relabelable(after, p, root, receipt, names, decode)
  {
    hide Under, In, Receipted, Place, SeparateRoots, OneGroup, ShardVerifies, FilesSize, Covers;
    forall n: string ensures !Under(root, In(p.root, n)) {
      OriginalsAreOutside(p.root, root, n);
    }
    assert forall n :: (In(p.root, n) in after <==> In(p.root, n) in before) && (In(p.root, n) in after ==> after[In(p.root, n)] == before[In(p.root, n)]);
    hide SameOutside;
    assert Unchanged(after, p.root, receipt);
    forall g | g in p.files ensures ShardPasses(after, p, decode, g) {
      assert ShardPasses(before, p, decode, g);
    }
  }

  /** A file under an unplanned name fails the check. */
  lemma StrayFailsTheCheck(files: Files, f: Frozen, names: seq<string>, mapping: map<string, FileName>, index: Plan -> seq<Byte>,
      decode: seq<Byte> -> Option<seq<Entry>>, strays: set<string>)
    requires Consecutive(f.layout.files) && Known(f) && forall t :: t in strays ==> t in files && Under(f.root, t)
    requires strays !! Reserved(f, names, mapping, index) && strays != {}
    ensures !ArtifactVerifies(files, f, index, decode)
  {
    hide IsShardPath, IsDocumentPath, Under, PlannedPaths, NewPaths, FileVerifies, PlanSize, CoversInventory, Known, Consecutive, Documents, In;
    var t :| t in strays;
    assert t !in PlannedPaths(f, index);
  }

  lemma WordIsFree(p: Published, root: string, names: seq<string>, mapping: map<string, FileName>, index: Plan -> seq<Byte>, path: string, word: string)
    requires Fitting(p, names, mapping) && forall n :: n in names || n in p.documents ==> In(root, n) != TemporaryPath(path, word)
    ensures TemporaryPath(path, word) !in Reserved(Revised(p, root, mapping), names, mapping, index)
  {
    hide Renumbers, In, TemporaryPath, PlannedPaths, NewPaths, RenamedFiles, RenamedWeights;
    var t, f := TemporaryPath(path, word), Revised(p, root, mapping);
    TemporaryIsUnplanned(f, index, path, word);
    IndexIsNoTemporary(root, path, word);
    forall n | n in names ensures Target(root, mapping, n) != t {
      if n in mapping && PathOf(root, mapping[n]) == t {
        TemporaryIsNoShardPath(root, mapping[n], path, word);
      }
    }
  }

  /** The only temporary of a run is the index's. */
  ghost predicate StoppedAt(files: Files, left: set<string>, after: set<string>, root: string, reserved: set<string>, fates: string -> Fate, q: string) {
    !fates(q).Finishes? && after == left + if q == In(root, INDEX) then Remnant(files, q, reserved, fates(q)) else {}
  }

  lemma StoppedOverIndex(files: Files, left: set<string>, after: set<string>, root: string, reserved: set<string>, fates: string -> Fate, q: string,
      word: string, written: nat)
    requires StoppedAt(files, left, after, root, reserved, fates, q)
    requires fates(In(root, INDEX)) == DiesWriting(word, written) && forall p :: p != In(root, INDEX) ==> fates(p).Finishes?
    requires TemporaryPath(In(root, INDEX), word) !in reserved && TemporaryPath(In(root, INDEX), word) !in files
    ensures after == left + {TemporaryPath(In(root, INDEX), word)} && Under(root, TemporaryPath(In(root, INDEX), word))
  {
    hide In, TemporaryPath, Under;
    IndexIsNoTemporary(root, In(root, INDEX), word);
    IndexIsUnder(root);
    TemporaryIsBeside(root, In(root, INDEX), word);
  }

  class Relabeller {
    const disk: Disk
    const index: Plan -> seq<Byte>
    const decode: seq<Byte> -> Option<seq<Entry>>
    var links: map<string, string>

    constructor (disk: Disk, index: Plan -> seq<Byte>, decode: seq<Byte> -> Option<seq<Entry>>)
      requires disk.leftovers <= disk.files.Keys
      ensures Sound() && links == map[] && this.disk == disk && this.index == index && this.decode == decode
    {
      this.disk, this.index, this.decode, links := disk, index, decode, map[];
    }

    ghost predicate Sound()
      reads this, disk
    {
      Shared(disk.files, links) && disk.leftovers <= disk.files.Keys
    }

    ghost predicate OnlyLinksAnd(left: set<string>, p: Published, root: string, names: seq<string>, mapping: map<string, FileName>)
      requires Fitting(p, names, mapping)
      reads this, disk
    {
      OnlyLinks(disk.files, links, left, p, Revised(p, root, mapping), names, mapping, index)
    }

    /** The new directory holds nothing that this relabelling did not put there. */
    ghost predicate Startable(p: Published, root: string, names: seq<string>)
      reads this, disk
    {
      forall mapping :: IsNumbering(names, mapping) && Fitting(p, names, mapping) ==> OnlyLinksAnd({}, p, root, names, mapping)
    }

    /** The same, up to temporaries, none of them under a planned name. */
    ghost predicate Owned(p: Published, root: string, names: seq<string>)
      reads this, disk
    {
      forall mapping :: IsNumbering(names, mapping) && Fitting(p, names, mapping) ==>
        OnlyLinksAnd(disk.leftovers, p, root, names, mapping) && LeftIn(root) !! Reserved(Revised(p, root, mapping), names, mapping, index)
    }

    /** The temporaries in the new directory. */
    ghost function LeftIn(root: string): set<string>
      reads this, disk
    {
      set t | t in disk.leftovers && Under(root, t)
    }

    /** One file: linked, or found to be that link already. Linking needs no temporary. */
    method LinkOne(from: string, to: string, fate: Fate) returns (o: Result<()>)
      requires Sound() && from in disk.files
      modifies this, disk
      ensures Sound() && disk.leftovers == old(disk.leftovers)
      ensures (disk.files == old(disk.files) && links == old(links))
        || (to !in old(disk.files) && disk.files == old(disk.files)[to := old(disk.files)[from]] && links == old(links)[to := from])
      ensures o.Refused? ==> to in disk.files && !(to in links && links[to] == from)
      ensures o.Ok? ==> to in disk.files && to in links && links[to] == from
      ensures o.Stopped? ==> !fate.Finishes?
    {
      if to in disk.files {
        return if to in links && links[to] == from then Ok(()) else Refused;
      }
      if fate.DiesBefore? || fate.DiesWriting? {
        return Stopped;
      }
      disk.files, links := disk.files[to := disk.files[from]], links[to := from];
      return if fate.Finishes? then Ok(()) else Stopped;
    }

    method LinkNext(p: Published, root: string, receipt: map<string, seq<Byte>>, names: seq<string>, mapping: map<string, FileName>, n: string,
        fates: string -> Fate) returns (o: Result<()>)
      requires Sound() && SeparateRoots(p.root, root) && Fitting(p, names, mapping) && n in names && n != INDEX
      requires In(p.root, n) in disk.files
      modifies this, disk
      ensures Sound() && SameOutside(old(disk.files), disk.files, root) && Kept(old(disk.files), disk.files) && disk.leftovers == old(disk.leftovers)
      ensures forall left :: old(OnlyLinksAnd(left, p, root, names, mapping)) ==> OnlyLinksAnd(left, p, root, names, mapping) && !o.Refused?
      ensures forall m :: old(Linked(disk.files, links, p, root, mapping, m)) ==> Linked(disk.files, links, p, root, mapping, m)
      ensures o.Ok? ==> Linked(disk.files, links, p, root, mapping, n)
      ensures o.Stopped? ==> exists q :: q != In(root, INDEX) && !fates(q).Finishes?
      ensures forall q :: q in disk.files && q !in old(disk.files) ==> q == Target(root, mapping, n)
    {
      hide Renumbers, Target, In, SeparateRoots, Under, Revised, OnlyLinks;
      TargetIsUnder(root, mapping, n);
      IndexIsNoTarget(root, names, mapping, n);
      ghost var f := Revised(p, root, mapping);
      RevisedRoot(p, root, mapping);
      forall left | OnlyLinksAnd(left, p, root, names, mapping)
        ensures OwnLink(disk.files, links, p, root, mapping, n)
        ensures Target(root, mapping, n) !in disk.files ==>
          OnlyLinks(disk.files[Target(root, mapping, n) := disk.files[In(p.root, n)]], links[Target(root, mapping, n) := In(p.root, n)], left,
            p, f, names, mapping, index)
      {
        OwnLinks(disk.files, links, left, p, f, names, mapping, index, n);
        if Target(root, mapping, n) !in disk.files {
          LinkJoins(disk.files, links, left, p, f, names, mapping, index, n);
        }
      }
      o := LinkOne(In(p.root, n), Target(root, mapping, n), fates(Target(root, mapping, n)));
    }

    /** The linking loop over the receipt. */
    method LinkAll(p: Published, root: string, receipt: map<string, seq<Byte>>, names: seq<string>, mapping: map<string, FileName>,
        fates: string -> Fate) returns (o: Result<()>)
      requires Sound() && SeparateRoots(p.root, root) && Fitting(p, names, mapping)
      requires Unchanged(disk.files, p.root, receipt) && forall n :: n in names <==> n in receipt
      modifies this, disk
      ensures Sound() && SameOutside(old(disk.files), disk.files, root) && Kept(old(disk.files), disk.files) && disk.leftovers == old(disk.leftovers)
      ensures forall left :: old(OnlyLinksAnd(left, p, root, names, mapping)) ==> OnlyLinksAnd(left, p, root, names, mapping) && !o.Refused?
      ensures o.Ok? ==> AllLinked(disk.files, links, p, root, names, mapping)
      ensures o.Stopped? ==> exists q :: q != In(root, INDEX) && !fates(q).Finishes?
      ensures forall q :: q in disk.files && q !in old(disk.files) ==> exists n :: n in names && n != INDEX && q == Target(root, mapping, n)
    {
      hide Renumbers, Revised, Target, In, OnlyLinks, SeparateRoots, Under, OnlyLinksAnd;
      var i := 0;
      while i < |names|
        invariant 0 <= i <= |names| && Sound() && SameOutside(old(disk.files), disk.files, root)
        invariant Kept(old(disk.files), disk.files) && disk.leftovers == old(disk.leftovers)
        invariant forall left :: old(OnlyLinksAnd(left, p, root, names, mapping)) ==> OnlyLinksAnd(left, p, root, names, mapping)
        invariant forall k :: 0 <= k < i && names[k] != INDEX ==> Linked(disk.files, links, p, root, mapping, names[k])
        invariant forall q :: q in disk.files && q !in old(disk.files) ==> exists n :: n in names && n != INDEX && q == Target(root, mapping, n)
      {
        if names[i] != INDEX {
          UnchangedOutside(old(disk.files), disk.files, p, root, receipt);
          assert names[i] in receipt;
          o := LinkNext(p, root, receipt, names, mapping, names[i], fates);
          if !o.Ok? {
            return;
          }
        }
        i := i + 1;
      }
      return Ok(());
    }

    /** `_publish_json` of the new index. */
    method PublishIndex(f: Frozen, reserved: set<string>, fate: Fate) returns (o: Result<()>)
      requires Sound()
      modifies disk
      ensures Sound()
      ensures In(f.root, INDEX) in old(disk.files) ==> disk.files == old(disk.files) && disk.leftovers == old(disk.leftovers)
      ensures In(f.root, INDEX) in old(disk.files) ==> !o.Stopped? && (o.Refused? <==> disk.files[In(f.root, INDEX)] != index(f.layout))
      ensures In(f.root, INDEX) !in old(disk.files) ==> (o.Ok? <==> fate.Finishes?) && !o.Refused?
      ensures In(f.root, INDEX) !in old(disk.files) ==>
        Through(old(disk.files), disk.files, In(f.root, INDEX), index(f.layout), reserved, fate)
      ensures In(f.root, INDEX) !in old(disk.files) ==> disk.leftovers == old(disk.leftovers) + Remnant(old(disk.files), In(f.root, INDEX), reserved, fate)
    {
      hide In, Remnant;
      var path := In(f.root, INDEX);
      if path in disk.files {
        return if disk.files[path] == index(f.layout) then Ok(()) else Refused;
      }
      var dies := WriteThrough(disk, path, index(f.layout), reserved, fate);
      return if dies then Stopped else Ok(());
    }

    /** The checks before anything is linked. */
    method Prepare(p: Published, root: string, receipt: map<string, seq<Byte>>, names: seq<string>) returns (r: Option<map<string, FileName>>)
      requires Unique(names) && forall n :: n in names <==> n in receipt
      ensures r.Some? ==> |p.files| == SHARDS && IsNumbering(names, r.value) && Fitting(p, names, r.value)
      ensures r.Some? ==> SeparateRoots(p.root, root) && Unchanged(disk.files, p.root, receipt)
      ensures r.None? ==> !Relabelable(disk.files, p, root, receipt, names, decode)
    {
      hide Place, IsShardName, PlaceLe, In, Under, IsNumbering, Renumbers, ShardPasses;
      if !SeparateRoots(p.root, root) {
        return None;
      }
      r := NumberedMapping(names);
      IndexIsNoShard();
      if r.None? {
        return;
      }
      NumberedNames(names, r.value);
      RenumberingIsInjective(names, r.value);
      if |p.files| != SHARDS || r.value.Keys != p.files.Keys {
        return None;
      }
      if exists n :: n in receipt && (In(p.root, n) !in disk.files || disk.files[In(p.root, n)] != receipt[n]) {
        return None;
      }
      if n :| n in p.weightMap && p.weightMap[n] !in r.value {
        if ContentVerifies(disk.files, p, decode) {
          IndexNamesFiles(disk.files, p, decode, n);
        }
        return None;
      }
    }

    /** The new directory, filled. */
    method LinkAndIndex(p: Published, f: Frozen, receipt: map<string, seq<Byte>>, names: seq<string>, mapping: map<string, FileName>,
        fates: string -> Fate) returns (o: Result<map<string, FileName>>)
      requires Sound() && SeparateRoots(p.root, f.root) && Fitting(p, names, mapping) && f == Revised(p, f.root, mapping)
      requires Unchanged(disk.files, p.root, receipt) && forall n :: n in names <==> n in receipt
      modifies this, disk
      ensures Sound() && SameOutside(old(disk.files), disk.files, f.root) && Kept(old(disk.files), disk.files)
      ensures old(disk.leftovers) <= disk.leftovers && (!o.Stopped? ==> disk.leftovers == old(disk.leftovers))
      ensures forall t :: t in disk.leftovers && t !in old(disk.leftovers) ==> t !in Reserved(f, names, mapping, index)
      ensures forall left :: old(OnlyLinksAnd(left, p, f.root, names, mapping)) ==>
        OnlyLinksAnd(left + (disk.leftovers - old(disk.leftovers)), p, f.root, names, mapping) && !o.Refused?
      ensures o.Ok? ==> o.value == mapping && AllLinked(disk.files, links, p, f.root, names, mapping) && In(f.root, INDEX) in disk.files
      ensures o.Ok? && In(f.root, INDEX) !in old(disk.files) ==> fates(In(f.root, INDEX)).Finishes?
      ensures o.Stopped? ==> exists q :: StoppedAt(old(disk.files), old(disk.leftovers), disk.leftovers, f.root, Reserved(f, names, mapping, index), fates, q)
    {
      hide SeparateRoots, Unchanged, Renumbers, Revised, Target, In, Renamable, NewPaths, PlannedPaths, Remnant, OnlyLinks, OnlyLinksAnd, AllLinked,
        Shared, Under, SameOutside;
      var linked := LinkAll(p, f.root, receipt, names, mapping, fates);
      ghost var files, left := disk.files, disk.leftovers;
      forall held: set<string> ensures held + (left - left) == held {
      }
      if !linked.Ok? {
        if q: string :| q != In(f.root, INDEX) && !fates(q).Finishes? {
          assert StoppedAt(old(disk.files), left, left, f.root, Reserved(f, names, mapping, index), fates, q);
        }
        return if linked.Refused? then Refused else Stopped;
      }
      forall n | n in names && n != INDEX ensures Target(f.root, mapping, n) != In(f.root, INDEX) {
        IndexIsNoTarget(f.root, names, mapping, n);
      }
      o := IndexLast(p, f, names, mapping, fates);
      SameOutsideTwice(old(disk.files), files, disk.files, f.root);
      RemnantIsSame(old(disk.files), files, In(f.root, INDEX), Reserved(f, names, mapping, index), fates(In(f.root, INDEX)));
      assert o.Stopped? ==> StoppedAt(old(disk.files), left, disk.leftovers, f.root, Reserved(f, names, mapping, index), fates, In(f.root, INDEX));
    }

    /** The index, once all links are there. */
    method IndexLast(p: Published, f: Frozen, names: seq<string>, mapping: map<string, FileName>, fates: string -> Fate)
      returns (o: Result<map<string, FileName>>)
      requires Sound() && Fitting(p, names, mapping) && f == Revised(p, f.root, mapping) && AllLinked(disk.files, links, p, f.root, names, mapping)
      modifies disk
      ensures Sound() && SameOutside(old(disk.files), disk.files, f.root) && Kept(old(disk.files), disk.files)
      ensures forall left :: old(OnlyLinksAnd(left, p, f.root, names, mapping)) ==>
        OnlyLinksAnd(left + (disk.leftovers - old(disk.leftovers)), p, f.root, names, mapping) && !o.Refused?
      ensures o.Ok? ==> o.value == mapping && AllLinked(disk.files, links, p, f.root, names, mapping) && In(f.root, INDEX) in disk.files
      ensures o.Ok? && In(f.root, INDEX) !in old(disk.files) ==> fates(In(f.root, INDEX)).Finishes?
      ensures !o.Stopped? ==> disk.leftovers == old(disk.leftovers)
      ensures o.Stopped? ==>
        StoppedAt(old(disk.files), old(disk.leftovers), disk.leftovers, f.root, Reserved(f, names, mapping, index), fates, In(f.root, INDEX))
    {
      hide Renumbers, Revised, Target, In, Renamable, Reserved, Remnant, OnlyLinks, Under;
      var path, reserved := In(f.root, INDEX), Reserved(f, names, mapping, index);
      ghost var before, left := disk.files, disk.leftovers;
      IndexIsUnder(f.root);
      RemnantIsBeside(before, path, reserved, fates(path), f.root);
      var published := PublishIndex(f, reserved, fates(path));
      forall held | OnlyLinks(before, links, held, p, f, names, mapping, index)
        ensures OnlyLinks(disk.files, links, held + (disk.leftovers - left), p, f, names, mapping, index) && !published.Refused?
      {
        if path in before {
          IndexIsRight(before, links, held, p, f, names, mapping, index);
          assert held + (disk.leftovers - left) == held;
        } else {
          IndexJoins(before, disk.files, links, held, p, f, names, mapping, index, fates(path));
          assert disk.leftovers - left == Remnant(before, path, reserved, fates(path));
        }
      }
      o := if published.Ok? then Ok(mapping) else if published.Refused? then Refused else Stopped;
    }

    /** Only one mapping is at stake. */
    lemma StartableHere(p: Published, root: string, names: seq<string>, mapping: map<string, FileName>)
      requires IsNumbering(names, mapping) && Fitting(p, names, mapping)
      ensures Startable(p, root, names) <==> OnlyLinksAnd({}, p, root, names, mapping)
      ensures Owned(p, root, names) <==>
        OnlyLinksAnd(disk.leftovers, p, root, names, mapping) && LeftIn(root) !! Reserved(Revised(p, root, mapping), names, mapping, index)
    {
      hide IsNumbering, OnlyLinksAnd, Renumbers, NewPaths, Under, Renamable;
      forall other | IsNumbering(names, other) ensures other == mapping {
        OneNumbering(names, mapping, other);
      }
    }

    /** The exact condition: an owned directory is fit for another run unless a death left a temporary. */
    lemma StartableUnlessLeftover(p: Published, root: string, names: seq<string>, mapping: map<string, FileName>)
      requires Sound() && IsNumbering(names, mapping) && Fitting(p, names, mapping) && Owned(p, root, names)
      ensures Startable(p, root, names) <==> LeftIn(root) == {}
    {
      hide IsNumbering, Renumbers, Renamable, Revised, OwnLink, Target, In, NewPaths, PlannedPaths, Startable, Owned, Under, Shared;
      StartableHere(p, root, names, mapping);
      RevisedRoot(p, root, mapping);
    }

    /** `verify_files` on the new directory. */
    method Validate(f: Frozen) returns (verified: bool)
      requires Consecutive(f.layout.files)
      ensures verified <==> Known(f) && ArtifactVerifies(disk.files, f, index, decode)
    {
      hide Known, Consecutive, ArtifactVerifies;
      KnownByNames(f);
      verified := !exists g, n :: g in f.layout.files && n in f.layout.files[g] && n !in f.entries;
      if verified {
        verified := VerifyFiles(disk.files, f, index, decode);
      }
    }

    /** `run` up to the validation, for any place where the process may die. Finishing means the relabelled
        export passes the check; an export that is right is refused only if something foreign is in the new
        directory, and that is never removed. */
    method Run(p: Published, root: string, receipt: map<string, seq<Byte>>, names: seq<string>, fates: string -> Fate)
      returns (o: Result<map<string, FileName>>)
      requires Sound() && Unique(names) && forall n :: n in names <==> n in receipt
      modifies this, disk
      ensures Sound() && SameOutside(old(disk.files), disk.files, root) && Kept(old(disk.files), disk.files)
      ensures o.Ok? ==> IsNumbering(names, o.value) && Fitting(p, names, o.value)
      ensures o.Ok? ==> var f := Revised(p, root, o.value);
        Consecutive(f.layout.files) && Known(f) && ArtifactVerifies(disk.files, f, index, decode)
      ensures o.Ok? ==> |p.files| == 52 && CarriesReceipt(disk.files, root, receipt, o.value)
      ensures old(disk.leftovers) <= disk.leftovers && (!o.Stopped? ==> disk.leftovers == old(disk.leftovers))
      ensures old(Owned(p, root, names)) ==> Owned(p, root, names)
      ensures old(Startable(p, root, names)) && !o.Stopped? ==> Startable(p, root, names)
      ensures old(Startable(p, root, names)) && old(Relabelable(disk.files, p, root, receipt, names, decode)) ==> !o.Refused?
      ensures old(Owned(p, root, names)) && old(LeftIn(root)) != {} ==> !o.Ok?
      ensures o.Ok? && In(root, INDEX) !in old(disk.files) ==> fates(In(root, INDEX)).Finishes?
      ensures o.Stopped? ==> exists mapping, q ::
        && IsNumbering(names, mapping) && Fitting(p, names, mapping)
        && StoppedAt(old(disk.files), old(disk.leftovers), disk.leftovers, root, Reserved(Revised(p, root, mapping), names, mapping, index), fates, q)
    {
      hide SeparateRoots, Unchanged, IsNumbering, Renumbers, Revised, OnlyLinks, OnlyLinksAnd, Shared, Startable, Relabelable, Known, Consecutive,
        ArtifactVerifies, Unique, In, Owned, Reserved, Under, StoppedAt, SameOutside, Renamable, CarriesReceipt;
      SameAsBefore(disk.files, root);
      var prepared := Prepare(p, root, receipt, names);
      if prepared.None? {
        return Refused;
      }
      var mapping := prepared.value;
      RevisedRoot(p, root, mapping);
      ghost var left := disk.leftovers;
      StartableHere(p, root, names, mapping);
      o := RunPrepared(p, Revised(p, root, mapping), receipt, names, mapping, fates);
      StartableHere(p, root, names, mapping);
      assert left + (disk.leftovers - left) == disk.leftovers;
      assert !o.Stopped? ==> {} + (disk.leftovers - left) == {};
    }

    /** The rest of it, for the one mapping. */
    method RunPrepared(p: Published, f: Frozen, receipt: map<string, seq<Byte>>, names: seq<string>, mapping: map<string, FileName>,
        fates: string -> Fate) returns (o: Result<map<string, FileName>>)
      requires Sound() && SeparateRoots(p.root, f.root) && Fitting(p, names, mapping) && f == Revised(p, f.root, mapping)
      requires Unchanged(disk.files, p.root, receipt) && forall n :: n in names <==> n in receipt
      modifies this, disk
      ensures Sound() && SameOutside(old(disk.files), disk.files, f.root) && Kept(old(disk.files), disk.files)
      ensures o.Ok? ==> o.value == mapping && Consecutive(f.layout.files) && Known(f) && ArtifactVerifies(disk.files, f, index, decode)
      ensures o.Ok? ==> CarriesReceipt(disk.files, f.root, receipt, mapping)
      ensures o.Ok? && LeftIn(f.root) !! Reserved(f, names, mapping, index) ==> LeftIn(f.root) == {}
      ensures o.Ok? && In(f.root, INDEX) !in old(disk.files) ==> fates(In(f.root, INDEX)).Finishes?
      ensures old(disk.leftovers) <= disk.leftovers && (!o.Stopped? ==> disk.leftovers == old(disk.leftovers))
      ensures forall t :: t in disk.leftovers && t !in old(disk.leftovers) ==> t !in Reserved(f, names, mapping, index)
      ensures forall left :: old(OnlyLinksAnd(left, p, f.root, names, mapping)) ==>
        OnlyLinksAnd(left + (disk.leftovers - old(disk.leftovers)), p, f.root, names, mapping)
      ensures old(OnlyLinksAnd({}, p, f.root, names, mapping)) && old(Relabelable(disk.files, p, f.root, receipt, names, decode)) ==> !o.Refused?
      ensures o.Stopped? ==> exists q :: StoppedAt(old(disk.files), old(disk.leftovers), disk.leftovers, f.root, Reserved(f, names, mapping, index), fates, q)
    {
      hide SeparateRoots, Unchanged, Renumbers, Revised, OnlyLinks, Shared, Relabelable, Known, Consecutive, ArtifactVerifies, AllLinked, In, Reserved, Under,
        StoppedAt, SameOutside, Renamable, CarriesReceipt;
      ghost var before, left := disk.files, disk.leftovers;
      o := LinkAndIndex(p, f, receipt, names, mapping, fates);
      if !o.Ok? {
        return;
      }
      RevisedIsConsecutive(p, f.root, names, mapping);
      assert {} + (disk.leftovers - left) == {};
      if OnlyLinksAnd({}, p, f.root, names, mapping) && Relabelable(before, p, f.root, receipt, names, decode) {
        RelinkedVerifies(before, disk.files, links, p, f, receipt, names, mapping, index, decode);
      }
      var verified := Validate(f);
      if !verified {
        return Refused;
      }
      if LeftIn(f.root) !! Reserved(f, names, mapping, index) && LeftIn(f.root) != {} {
        StrayFailsTheCheck(disk.files, f, names, mapping, index, decode, LeftIn(f.root));
      }
      LinkedCarry(before, disk.files, links, p, f.root, receipt, names, mapping);
      return Ok(mapping);
    }

    // ---------- over many lives ----------

    /** The relabelled export is whole and passes the check. */
    ghost predicate Delivered(p: Published, root: string, names: seq<string>)
      reads this, disk
    {
      exists mapping ::
        && IsNumbering(names, mapping) && Fitting(p, names, mapping)
        && Consecutive(Revised(p, root, mapping).layout.files) && Known(Revised(p, root, mapping))
        && ArtifactVerifies(disk.files, Revised(p, root, mapping), index, decode)
    }

    lemma StartsWithoutLeftover(p: Published, root: string, names: seq<string>)
      requires Sound() && Owned(p, root, names) && LeftIn(root) == {}
      ensures Startable(p, root, names)
    {
      hide IsNumbering, Fitting, OnlyLinksAnd, Owned, Under, Shared;
      forall mapping | IsNumbering(names, mapping) && Fitting(p, names, mapping)
        ensures OnlyLinksAnd({}, p, root, names, mapping)
      {
        StartableUnlessLeftover(p, root, names, mapping);
      }
    }

    /** A life of an export that is right, in a directory that nobody else writes to. */
    method Life(p: Published, root: string, receipt: map<string, seq<Byte>>, names: seq<string>, fates: string -> Fate)
      returns (o: Result<map<string, FileName>>)
      requires Sound() && Unique(names) && (forall n :: n in names <==> n in receipt) && Owned(p, root, names)
      requires Relabelable(disk.files, p, root, receipt, names, decode)
      modifies this, disk
      ensures Sound() && Owned(p, root, names) && Relabelable(disk.files, p, root, receipt, names, decode)
      ensures o.Ok? ==> old(LeftIn(root)) == {} && Delivered(p, root, names)
      ensures o.Refused? ==> old(LeftIn(root)) != {}
      ensures !o.Stopped? ==> disk.leftovers == old(disk.leftovers)
      ensures o.Ok? && In(root, INDEX) !in old(disk.files) ==> fates(In(root, INDEX)).Finishes?
      ensures o.Stopped? ==> exists mapping, q ::
        && IsNumbering(names, mapping) && Fitting(p, names, mapping)
        && StoppedAt(old(disk.files), old(disk.leftovers), disk.leftovers, root, Reserved(Revised(p, root, mapping), names, mapping, index), fates, q)
    {
      hide IsNumbering, Fitting, Revised, Startable, Owned, Relabelable, Known, Consecutive, ArtifactVerifies, Unique, In, Under, StoppedAt, SameOutside,
        Reserved, Shared;
      ghost var before := disk.files;
      if LeftIn(root) == {} {
        StartsWithoutLeftover(p, root, names);
      }
      o := Run(p, root, receipt, names, fates);
      RelabelableStays(before, disk.files, p, root, receipt, names, decode);
    }

    /** Any number of lives, each dying anywhere, and then one that does not: it finishes if and only if no
        death fell between the creation and the removal of the index's temporary, and is refused otherwise. */
    method Lives(p: Published, root: string, receipt: map<string, seq<Byte>>, names: seq<string>, lives: seq<string -> Fate>)
      returns (o: Result<map<string, FileName>>)
      requires Sound() && Unique(names) && (forall n :: n in names <==> n in receipt) && Owned(p, root, names)
      requires Relabelable(disk.files, p, root, receipt, names, decode)
      modifies this, disk
      ensures Sound() && !o.Stopped? && (o.Ok? <==> LeftIn(root) == {}) && (o.Ok? ==> Delivered(p, root, names))
    {
      hide IsNumbering, Fitting, Revised, Startable, Owned, Relabelable, Unique, In, Under, Reserved, Shared, Delivered;
      var i := 0;
      o := Stopped;
      while i < |lives| && o.Stopped?
        invariant 0 <= i <= |lives| && Sound() && Owned(p, root, names) && Relabelable(disk.files, p, root, receipt, names, decode)
        invariant (o.Ok? ==> LeftIn(root) == {} && Delivered(p, root, names)) && (o.Refused? ==> LeftIn(root) != {})
      {
        o := Life(p, root, receipt, names, lives[i]);
        i := i + 1;
      }
      if o.Stopped? {
        o := Life(p, root, receipt, names, _ => Finishes);
      }
    }

    /** A life that dies while the index's temporary is being written. */
    method DieOverIndex(p: Published, root: string, receipt: map<string, seq<Byte>>, names: seq<string>, word: string, written: nat)
      returns (o: Result<map<string, FileName>>)
      requires Sound() && Unique(names) && (forall n :: n in names <==> n in receipt) && Owned(p, root, names)
      requires Relabelable(disk.files, p, root, receipt, names, decode) && LeftIn(root) == {}
      requires In(root, INDEX) !in disk.files && TemporaryPath(In(root, INDEX), word) !in disk.files
      requires forall n :: n in names || n in p.documents ==> In(root, n) != TemporaryPath(In(root, INDEX), word)
      modifies this, disk
      ensures Sound() && Owned(p, root, names) && Relabelable(disk.files, p, root, receipt, names, decode)
      ensures o.Stopped? && LeftIn(root) == {TemporaryPath(In(root, INDEX), word)}
    {
      hide IsNumbering, Renumbers, Renamable, Revised, Owned, Relabelable, Unique, In, Under, Reserved, Shared, TemporaryPath, Delivered, StoppedAt, Sound;
      ghost var before, left, path := disk.files, disk.leftovers, In(root, INDEX);
      var fates := q => if q == In(root, INDEX) then DiesWriting(word, written) else Finishes;
      o := Life(p, root, receipt, names, fates);
      ghost var mapping, q :| IsNumbering(names, mapping) && Fitting(p, names, mapping)
        && StoppedAt(before, left, disk.leftovers, root, Reserved(Revised(p, root, mapping), names, mapping, index), fates, q);
      WordIsFree(p, root, names, mapping, index, path, word);
      StoppedOverIndex(before, left, disk.leftovers, root, Reserved(Revised(p, root, mapping), names, mapping, index), fates, q, word, written);
    }

    /** Such a death is final: the next life, and so every later one, is refused, although nothing is wrong
        with the export or with what was linked. */
    method DieOverIndexAndReturn(p: Published, root: string, receipt: map<string, seq<Byte>>, names: seq<string>, word: string, written: nat)
      returns (first: Result<map<string, FileName>>, next: Result<map<string, FileName>>)
      requires Sound() && Unique(names) && (forall n :: n in names <==> n in receipt) && Owned(p, root, names)
      requires Relabelable(disk.files, p, root, receipt, names, decode) && LeftIn(root) == {}
      requires In(root, INDEX) !in disk.files && TemporaryPath(In(root, INDEX), word) !in disk.files
      requires forall n :: n in names || n in p.documents ==> In(root, n) != TemporaryPath(In(root, INDEX), word)
      modifies this, disk
      ensures Sound() && first.Stopped? && next.Refused? && LeftIn(root) == {TemporaryPath(In(root, INDEX), word)}
    {
      hide Unique, Owned, Relabelable, In, Under, TemporaryPath, Shared, Renumbers, Renamable, Revised, Reserved;
      first := DieOverIndex(p, root, receipt, names, word, written);
      next := Life(p, root, receipt, names, _ => Finishes);
    }
  }
}
