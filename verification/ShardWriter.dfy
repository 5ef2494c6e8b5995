/** One shard file: verifying its tensors against the inventory, and writing it by link or by repacking. */
module ShardWriter {
  import opened Bytes
  import opened Options
  import opened PlanFacts
  import opened Sorting
  import opened Storage
  import opened StreamShard

  /** Where a final tensor comes from, and what its descriptor must be. */
  datatype Source = Source(path: string, tensor: string, bytes: int, dtype: string, shape: seq<int>)

  // ---------- verifying a shard ----------

  /** A file's tensors are the named ones. */
  ghost predicate Exactly(file: seq<Byte>, decode: seq<Byte> -> Option<seq<Entry>>, names: seq<string>) {
    forall n :: Read(file, decode, n).Some? <==> n in names
  }

  /** `verify_shard`: exactly these tensors, each with the descriptor expected. */
  ghost predicate ShardVerifies(file: seq<Byte>, decode: seq<Byte> -> Option<seq<Entry>>, names: seq<string>, entries: map<string, Source>)
    requires forall n :: n in names ==> n in entries
  {
    && Open(file, decode).Some? && Exactly(file, decode, names)
    && forall n :: n in names ==> AsDescribed(Read(file, decode, n), entries[n])
  }

  predicate AsDescribed(data: Option<Data>, source: Source) {
    && data.Some? && data.value.dtype == source.dtype && data.value.shape == source.shape
    && |data.value.bytes| == source.bytes
  }

  method VerifyShard(file: seq<Byte>, decode: seq<Byte> -> Option<seq<Entry>>, names: seq<string>, entries: map<string, Source>)
    returns (ok: bool)
    requires forall n :: n in names ==> n in entries
    ensures ok <==> ShardVerifies(file, decode, names, entries)
  {
    hide Open, Exactly, Read, AsDescribed;
    var r := ReadHeader(file, decode);
    if !r.Ok? {
      return false;
    }
    var header := r.value.header;
    SameNames(file, decode, r.value, names);
    if (set e | e in header :: e.name) != (set n | n in names) {
      return false;
    }
    var i := 0;
    while i < |names|
      invariant 0 <= i <= |names|
      invariant forall k :: 0 <= k < i ==> AsDescribed(Read(file, decode, names[k]), entries[names[k]])
    {
      ItemOfTensor(file, decode, r.value, names, entries[names[i]], names[i]);
      var item, expected := Find(header, names[i]).value, entries[names[i]];
      if item.dtype != expected.dtype || item.shape != expected.shape || item.end - item.start != expected.bytes {
        return false;
      }
      i := i + 1;
    }
    ok := true;
  }

  lemma SameNames(file: seq<Byte>, decode: seq<Byte> -> Option<seq<Entry>>, contents: Contents, names: seq<string>)
    requires Open(file, decode) == Some(contents)
    ensures (set e | e in contents.header :: e.name) == (set n | n in names) <==> Exactly(file, decode, names)
  {
    hide Open;
    var own, wanted := set e | e in contents.header :: e.name, set n | n in names;
    forall n ensures n in own <==> Read(file, decode, n).Some? {
    }
    hide Read;
    if Exactly(file, decode, names) {
      assert own == wanted;
    }
  }

  lemma ItemOfTensor(file: seq<Byte>, decode: seq<Byte> -> Option<seq<Entry>>, contents: Contents, names: seq<string>, expected: Source, n: string)
    requires Open(file, decode) == Some(contents) && Exactly(file, decode, names) && n in names
    ensures Find(contents.header, n).Some?
    ensures var item := Find(contents.header, n).value;
      (item.dtype == expected.dtype && item.shape == expected.shape && item.end - item.start == expected.bytes)
        <==> AsDescribed(Read(file, decode, n), expected)
  {
    assert Read(file, decode, n).Some?;
  }

  // ---------- what a shard should hold ----------

  function WantsOf(names: seq<string>, entries: map<string, Source>): (r: seq<Want>)
    requires forall n :: n in names ==> n in entries
    ensures |r| == |names|
    ensures forall w :: w in r <==> w.name in names && w == Want(w.name, entries[w.name].path, entries[w.name].tensor)
  {
    if names == [] then []
    else
      assert names == [names[0]] + names[1..];
      [Want(names[0], entries[names[0]].path, entries[names[0]].tensor)] + WantsOf(names[1..], entries)
  }

  ghost predicate SourceMatches(sources: map<string, seq<Byte>>, decode: seq<Byte> -> Option<seq<Entry>>, source: Source) {
    source.path in sources && AsDescribed(Read(sources[source.path], decode, source.tensor), source)
  }

  /** The inventory's descriptors match the headers of its sources. */
  ghost predicate Matches(sources: map<string, seq<Byte>>, decode: seq<Byte> -> Option<seq<Entry>>, entries: map<string, Source>) {
    forall n :: n in entries ==> SourceMatches(sources, decode, entries[n])
  }

  /** A shard file with the right tensors, each exactly its source's. */
  ghost predicate ShardHolds(sources: map<string, seq<Byte>>, file: seq<Byte>, decode: seq<Byte> -> Option<seq<Entry>>,
      names: seq<string>, entries: map<string, Source>)
    requires forall n :: n in names ==> n in entries
  {
    && Open(file, decode).Some? && Exactly(file, decode, names)
    && (forall n :: n in names ==> entries[n].path in sources)
    && (forall n :: n in names ==> Read(file, decode, n) == Read(sources[entries[n].path], decode, entries[n].tensor))
  }

  /** For a matching inventory, a shard that holds its sources' tensors verifies. */
  lemma HoldingVerifies(sources: map<string, seq<Byte>>, file: seq<Byte>, decode: seq<Byte> -> Option<seq<Entry>>,
      names: seq<string>, entries: map<string, Source>)
    requires (forall n :: n in names ==> n in entries) && Matches(sources, decode, entries)
    requires ShardHolds(sources, file, decode, names, entries)
    ensures ShardVerifies(file, decode, names, entries)
  {
    hide Read, Open, AsDescribed;
  }

  // ---------- writing a shard ----------

  const CHUNK: nat := 8 * 1024 * 1024

  /** The header that repacking these tensors needs stays within the reader's bound. */
  ghost predicate HeaderFits(files: map<string, seq<Byte>>, encode: seq<Entry> -> seq<Byte>, decode: seq<Byte> -> Option<seq<Entry>>,
      names: seq<string>, entries: map<string, Source>)
    requires forall n :: n in names ==> n in entries
  {
    var ws := Sort(WantsOf(names, entries), WantLe);
    AllReadable(files, decode, ws) ==> |Padded(encode(HeaderOf(files, decode, ws)))| <= HEADER_LIMIT
  }

  lemma {:induction false} WantsAreKeyed(names: seq<string>, entries: map<string, Source>)
    requires (forall n :: n in names ==> n in entries) && DistinctStrings(names)
    ensures KeyedWants(WantsOf(names, entries))
  {
    if names != [] {
      WantsAreKeyed(names[1..], entries);
      forall w | w in WantsOf(names[1..], entries) ensures w.name != names[0] {
        assert w.name in names[1..];
      }
    }
  }

  lemma MatchingIsReadable(files: map<string, seq<Byte>>, decode: seq<Byte> -> Option<seq<Entry>>, names: seq<string>, entries: map<string, Source>)
    requires (forall n :: n in names ==> n in entries) && Matches(files, decode, entries)
    ensures forall w :: w in WantsOf(names, entries) ==> Readable(files, decode, w)
    ensures AllReadable(files, decode, Sort(WantsOf(names, entries), WantLe))
  {
    hide Open, HeaderFits;
    var ws := WantsOf(names, entries);
    WantOrder();
    SortKeepsMembers(ws, WantLe);
    forall w | w in ws ensures Readable(files, decode, w) {
      assert AsDescribed(Read(files[w.path], decode, w.source), entries[w.name]);
    }
    forall i | 0 <= i < |Sort(ws, WantLe)| ensures Readable(files, decode, Sort(ws, WantLe)[i]) {
      assert Sort(ws, WantLe)[i] in Sort(ws, WantLe);
    }
  }

  /** A repacked shard holds what it should. */
  lemma RepackHolds(files: map<string, seq<Byte>>, encode: seq<Entry> -> seq<Byte>, decode: seq<Byte> -> Option<seq<Entry>>,
      names: seq<string>, entries: map<string, Source>, destination: string)
    requires (forall n :: n in names ==> n in entries) && DistinctStrings(names) && Codec(encode, decode)
    requires Repackable(files, encode, decode, WantsOf(names, entries), destination, CHUNK)
    ensures ShardHolds(files, Repacked(files, encode, decode, Sort(WantsOf(names, entries), WantLe)), decode, names, entries)
  {
    hide Open, Read, Readable, Repacked, Codec, HeaderOf, Padded;
    var ws := WantsOf(names, entries);
    WantsAreKeyed(names, entries);
    RepackRoundTrip(files, encode, decode, ws, destination, CHUNK);
    var file := Repacked(files, encode, decode, Sort(ws, WantLe));
    forall n ensures Read(file, decode, n).Some? <==> n in names {
      if n in names {
        assert Want(n, entries[n].path, entries[n].tensor) in ws;
      }
    }
    forall n | n in names
      ensures entries[n].path in files && Read(file, decode, n) == Read(files[entries[n].path], decode, entries[n].tensor)
    {
      assert Want(n, entries[n].path, entries[n].tensor) in ws;
    }
  }

  /** Whether all tensors come, under their own names, from one source. */
  function SingleSource(names: seq<string>, entries: map<string, Source>): (r: Option<string>)
    requires forall n :: n in names ==> n in entries
    ensures r.Some? ==> forall n :: n in names ==> entries[n].path == r.value && entries[n].tensor == n
  {
    if names == [] then None
    else
      var path := entries[names[0]].path;
      if forall i :: 0 <= i < |names| ==> entries[names[i]].path == path && entries[names[i]].tensor == names[i] then Some(path) else None
  }

  /** The destination, and nothing else, is new, and holds the shard. */
  ghost predicate Placed(before: map<string, seq<Byte>>, after: map<string, seq<Byte>>, destination: string,
      decode: seq<Byte> -> Option<seq<Entry>>, names: seq<string>, entries: map<string, Source>)
    requires forall n :: n in names ==> n in entries
  {
    && destination in after && after == before[destination := after[destination]]
    && ShardHolds(before, after[destination], decode, names, entries)
  }

  /** The destination is new and holds the shard, or is still missing; beside it are only strays. */
  ghost predicate PlacedOrNot(before: map<string, seq<Byte>>, after: map<string, seq<Byte>>, destination: string,
      decode: seq<Byte> -> Option<seq<Entry>>, names: seq<string>, entries: map<string, Source>, strays: set<string>)
    requires forall n :: n in names ==> n in entries
  {
    || Strays(before, after, strays)
    || (destination in after && Strays(before[destination := after[destination]], after, strays)
        && ShardHolds(before, after[destination], decode, names, entries))
  }

  /** What a shard needs in order to be written. */
  ghost predicate Writable(files: map<string, seq<Byte>>, encode: seq<Entry> -> seq<Byte>, decode: seq<Byte> -> Option<seq<Entry>>,
      names: seq<string>, entries: map<string, Source>)
    requires forall n :: n in names ==> n in entries
  {
    Matches(files, decode, entries) && HeaderFits(files, encode, decode, names, entries) && "" !in names && "__metadata__" !in names
  }

  /** The link route, which needs no temporary file; `None` when the shard must be repacked instead. */
  method LinkShard(disk: Disk, destination: string, names: seq<string>, entries: map<string, Source>, source: string,
      decode: seq<Byte> -> Option<seq<Entry>>, fate: Fate) returns (o: Option<Result<()>>)
    requires (forall n :: n in names ==> n in entries && entries[n].path == source && entries[n].tensor == n) && names != []
    requires destination !in disk.files
    modifies disk
    ensures disk.leftovers == old(disk.leftovers)
    ensures o.Some? && !o.value.Refused? ==> (o.value.Ok? <==> fate.Finishes?)
    ensures o.Some? && o.value.Ok? ==> Placed(old(disk.files), disk.files, destination, decode, names, entries)
    ensures o == Some(Stopped) ==> PlacedOrNot(old(disk.files), disk.files, destination, decode, names, entries, {})
    ensures o == Some(Refused) ==> disk.files == old(disk.files) && !Matches(disk.files, decode, entries)
    ensures o == None ==> disk.files == old(disk.files)
  {
    hide Open;
    if source !in disk.files {
      UnmatchedName(disk.files, decode, entries, names[0]);
      return Some(Refused);
    }
    var file := disk.files[source];
    var r := ReadHeader(file, decode);
    if !r.Ok? {
      UnmatchedName(disk.files, decode, entries, names[0]);
      return Some(Refused);
    }
    SameNames(file, decode, r.value, names);
    if (set e | e in r.value.header :: e.name) != (set n | n in names) {
      return None;
    }
    var ok := VerifyShard(file, decode, names, entries);
    if !ok {
      NotMatching(file, disk.files, decode, entries, names, source);
      return Some(Refused);
    }
    if * {
      return None; // the output is on another file system
    }
    if fate.DiesBefore? || fate.DiesWriting? {
      return Some(Stopped);
    }
    LinkHolds(disk.files, source, decode, names, entries);
    disk.files := disk.files[destination := file];
    return Some(if fate.Finishes? then Ok(()) else Stopped);
  }

  /** A tensor whose source cannot be read refutes the match. */
  lemma UnmatchedName(files: map<string, seq<Byte>>, decode: seq<Byte> -> Option<seq<Entry>>, entries: map<string, Source>, n: string)
    requires n in entries && (entries[n].path in files ==> Open(files[entries[n].path], decode).None?)
    ensures !Matches(files, decode, entries)
  {
    assert entries[n].path in files ==> !AsDescribed(Read(files[entries[n].path], decode, entries[n].tensor), entries[n]);
  }

  lemma NotMatching(file: seq<Byte>, files: map<string, seq<Byte>>, decode: seq<Byte> -> Option<seq<Entry>>, entries: map<string, Source>,
      names: seq<string>, source: string)
    requires forall n :: n in names ==> n in entries && entries[n].path == source && entries[n].tensor == n
    requires source in files && files[source] == file && Open(file, decode).Some? && Exactly(file, decode, names)
    requires !ShardVerifies(file, decode, names, entries)
    ensures !Matches(files, decode, entries)
  {
    hide Open, Read, AsDescribed;
  }

  lemma LinkHolds(files: map<string, seq<Byte>>, source: string, decode: seq<Byte> -> Option<seq<Entry>>, names: seq<string>, entries: map<string, Source>)
    requires forall n :: n in names ==> n in entries && entries[n].path == source && entries[n].tensor == n
    requires source in files && ShardVerifies(files[source], decode, names, entries)
    ensures ShardHolds(files, files[source], decode, names, entries)
  {
    hide Open, Read;
  }

  /** `_write_shard`: link a source that is already this shard, or repack. */
  method WriteShard(disk: Disk, destination: string, names: seq<string>, entries: map<string, Source>,
      encode: seq<Entry> -> seq<Byte>, decode: seq<Byte> -> Option<seq<Entry>>, reserved: set<string>, fate: Fate) returns (o: Result<()>)
    requires Codec(encode, decode) && (forall n :: n in names ==> n in entries) && names != [] && DistinctStrings(names)
    requires destination !in disk.files
    modifies disk
    ensures o.Ok? ==> Placed(old(disk.files), disk.files, destination, decode, names, entries) && disk.leftovers == old(disk.leftovers)
    ensures o.Refused? ==> disk.files == old(disk.files) && disk.leftovers == old(disk.leftovers)
    ensures o.Refused? ==> !Writable(disk.files, encode, decode, names, entries)
    ensures !o.Refused? ==> (o.Ok? <==> fate.Finishes?)
    ensures o.Stopped? ==> exists strays ::
      && (strays == Remnant(old(disk.files), destination, reserved, fate) || (strays == {} && SingleSource(names, entries).Some?))
      && disk.leftovers == old(disk.leftovers) + strays
      && PlacedOrNot(old(disk.files), disk.files, destination, decode, names, entries, strays)
  {
    hide Open, Read, Matches, ShardHolds, Readable, Repacked, Codec, HeaderOf, Padded, HeaderFits, Remnant;
    var single := SingleSource(names, entries);
    if single.Some? {
      var linked := LinkShard(disk, destination, names, entries, single.value, decode, fate);
      if linked.Some? {
        return linked.value;
      }
    }
    WantsAreKeyed(names, entries);
    var ws := WantsOf(names, entries);
    ghost var before := disk.files;
    var r := Repack(disk, ws, destination, CHUNK, encode, decode, reserved, fate);
    if r.Refused? {
      RepackRefused(disk.files, encode, decode, names, entries, destination);
      return Refused;
    }
    RepackHolds(before, encode, decode, names, entries, destination);
    return if r.Ok? then Ok(()) else Stopped;
  }

  lemma RepackRefused(files: map<string, seq<Byte>>, encode: seq<Entry> -> seq<Byte>, decode: seq<Byte> -> Option<seq<Entry>>,
      names: seq<string>, entries: map<string, Source>, destination: string)
    requires (forall n :: n in names ==> n in entries) && names != [] && destination !in files
    requires !Repackable(files, encode, decode, WantsOf(names, entries), destination, CHUNK)
    ensures !Writable(files, encode, decode, names, entries)
  {
    hide Open, Read, Readable, HeaderOf, Padded;
    if Matches(files, decode, entries) {
      MatchingIsReadable(files, decode, names, entries);
    }
  }

  // ---------- sources are not touched ----------

  /** Two disks agree on every source. */
  ghost predicate Agree(a: map<string, seq<Byte>>, b: map<string, seq<Byte>>, entries: map<string, Source>) {
    forall n :: n in entries ==> entries[n].path in a && entries[n].path in b && a[entries[n].path] == b[entries[n].path]
  }

  lemma HoldsFrame(a: map<string, seq<Byte>>, b: map<string, seq<Byte>>, file: seq<Byte>, decode: seq<Byte> -> Option<seq<Entry>>,
      names: seq<string>, entries: map<string, Source>)
    requires (forall n :: n in names ==> n in entries) && Agree(a, b, entries) && ShardHolds(a, file, decode, names, entries)
    ensures ShardHolds(b, file, decode, names, entries)
  {
    hide Open, Read;
  }

  lemma SourceFrame(a: map<string, seq<Byte>>, b: map<string, seq<Byte>>, decode: seq<Byte> -> Option<seq<Entry>>, w: Want)
    requires w.path in a && w.path in b && a[w.path] == b[w.path] && Readable(a, decode, w)
    ensures Readable(b, decode, w) && SourceItem(a, decode, w) == SourceItem(b, decode, w)
    ensures SourceBytes(a, decode, w) == SourceBytes(b, decode, w)
  {
    hide Open;
  }

  lemma {:induction false} HeaderFrame(a: map<string, seq<Byte>>, b: map<string, seq<Byte>>, decode: seq<Byte> -> Option<seq<Entry>>, ws: seq<Want>)
    requires (forall w :: w in ws ==> w.path in a && w.path in b && a[w.path] == b[w.path]) && AllReadable(a, decode, ws)
    ensures AllReadable(b, decode, ws)
    ensures HeaderOf(a, decode, ws) == HeaderOf(b, decode, ws) && PayloadOf(a, decode, ws) == PayloadOf(b, decode, ws)
  {
    hide Readable, SourceItem, SourceBytes;
    if ws != [] {
      var rest, w := ws[..|ws| - 1], ws[|ws| - 1];
      assert ws == rest + [w];
      assert Readable(a, decode, w);
      SourceFrame(a, b, decode, w);
      HeaderFrame(a, b, decode, rest);
    }
  }

  lemma WritableFrame(a: map<string, seq<Byte>>, b: map<string, seq<Byte>>, encode: seq<Entry> -> seq<Byte>, decode: seq<Byte> -> Option<seq<Entry>>,
      names: seq<string>, entries: map<string, Source>)
    requires (forall n :: n in names ==> n in entries) && Agree(a, b, entries) && Writable(a, encode, decode, names, entries)
    ensures Writable(b, encode, decode, names, entries)
  {
    hide Open, Read, Readable, HeaderOf, PayloadOf, Padded;
    var ws := WantsOf(names, entries);
    WantOrder();
    SortKeepsMembers(ws, WantLe);
    MatchingIsReadable(a, decode, names, entries);
    HeaderFrame(a, b, decode, Sort(ws, WantLe));
  }
}
