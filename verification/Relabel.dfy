/** Renumbering published shards: one sequence of file names over all groups, carried out remotely by a single
    commit of copies, deletions and a new index. */
module Relabel {
  import opened ExportLayout
  import opened FileNames
  import opened Options
  import opened Sorting

  // ---------- the old names ----------

  predicate Digits(s: string) {
    forall i :: 0 <= i < |s| ==> '0' <= s[i] <= '9'
  }

  /** What follows the group: an ordinal and a total of five digits each. */
  function OrdinalAfter(rest: string): Option<nat> {
    if |rest| == 27 && rest[0] == '-' && Digits(rest[1..6]) && rest[6..10] == "-of-" && Digits(rest[10..15]) && rest[15..] == ".safetensors"
    then Some(Value(rest[1..6])) else None
  }

  /** A shard's place: model shards first, then each table's, by ordinal. */
  function Place(name: string): Option<(nat, nat)> {
    if "ple-14" <= name && OrdinalAfter(name[6..]).Some? then Some((2, OrdinalAfter(name[6..]).value))
    else if "ple-1" <= name && OrdinalAfter(name[5..]).Some? then Some((1, OrdinalAfter(name[5..]).value))
    else if "model" <= name && OrdinalAfter(name[5..]).Some? then Some((0, OrdinalAfter(name[5..]).value))
    else None
  }

  function PlaceOf(name: string): (nat, nat) {
    if Place(name).Some? then Place(name).value else (0, 0)
  }

  predicate PlaceLe(a: string, b: string) {
    PlaceOf(a).0 < PlaceOf(b).0 || (PlaceOf(a).0 == PlaceOf(b).0 && PlaceOf(a).1 <= PlaceOf(b).1)
  }

  lemma PlacesConnect()
    ensures Connected(PlaceLe)
  {
    hide PlaceOf;
  }

  // ---------- the mapping ----------

  function ShardsOf(files: seq<string>): (r: seq<string>)
    ensures forall n :: n in r <==> n in files && IsShardName(n)
    ensures Unique(files) ==> Unique(r)
  {
    if files == [] then []
    else
      var rest, last := ShardsOf(files[..|files| - 1]), files[|files| - 1];
      assert files == files[..|files| - 1] + [last];
      if IsShardName(last) then rest + [last] else rest
  }

  /** Every shard, and nothing else, gets a name; names run from one to the number of shards without a gap, in
      the order of the old places, and no two shards share one. */
  ghost predicate Renumbers(files: seq<string>, mapping: map<string, FileName>) {
    && (forall n :: n in mapping <==> n in files && IsShardName(n))
    && (forall k :: 1 <= k <= |ShardsOf(files)| ==> FileName(k, |ShardsOf(files)|) in mapping.Values)
    && (forall n :: n in mapping ==> mapping[n].total == |ShardsOf(files)| && 1 <= mapping[n].ordinal <= |ShardsOf(files)|)
    && (forall a, b :: a in mapping && b in mapping && mapping[a] == mapping[b] ==> a == b)
    && (forall a, b :: a in mapping && b in mapping && mapping[a].ordinal < mapping[b].ordinal ==> PlaceLe(a, b))
  }

  /** The first `i` names are numbered by position, and no others. */
  ghost predicate Positions(sorted: seq<string>, i: nat, mapping: map<string, FileName>)
    requires i <= |sorted|
  {
    && (forall n :: n in mapping <==> n in sorted[..i])
    && (forall k :: 0 <= k < i ==> mapping[sorted[k]] == FileName(k + 1, |sorted|))
  }

  lemma PositionsNext(sorted: seq<string>, i: nat, mapping: map<string, FileName>)
    requires i < |sorted| && Unique(sorted) && Positions(sorted, i, mapping)
    ensures Positions(sorted, i + 1, mapping[sorted[i] := FileName(i + 1, |sorted|)])
  {
    assert sorted[..i + 1] == sorted[..i] + [sorted[i]];
    forall k | 0 <= k < i ensures sorted[k] in mapping && sorted[k] != sorted[i] {
      assert sorted[..i][k] == sorted[k];
    }
  }

  lemma NoPositions(sorted: seq<string>)
    ensures Positions(sorted, 0, map[])
  {
  }

  /** The one mapping that these files have. */
  ghost predicate IsNumbering(files: seq<string>, mapping: map<string, FileName>) {
    var sorted := Sort(ShardsOf(files), PlaceLe);
    Positions(sorted, |sorted|, mapping)
  }

  lemma OneNumbering(files: seq<string>, a: map<string, FileName>, b: map<string, FileName>)
    requires IsNumbering(files, a) && IsNumbering(files, b)
    ensures a == b
  {
    hide PlaceLe;
    var sorted := Sort(ShardsOf(files), PlaceLe);
    assert sorted[..|sorted|] == sorted && a.Keys == b.Keys;
    forall n | n in a ensures a[n] == b[n] {
      var k :| 0 <= k < |sorted| && sorted[k] == n;
    }
  }

  /** `numbered_mapping` */
  method NumberedMapping(files: seq<string>) returns (r: Option<map<string, FileName>>)
    requires Unique(files)
    ensures r.Some? <==> forall n :: n in files && IsShardName(n) ==> Place(n).Some?
    ensures r.Some? ==> Renumbers(files, r.value) && IsNumbering(files, r.value)
  {
    hide Place, PlaceLe, IsShardName, Sorted, Connected, Renumbers, Positions, Unique;
    var shards := ShardsOf(files);
    if exists n :: n in shards && Place(n).None? {
      return None;
    }
    PlacesConnect();
    SortSorts(shards, PlaceLe);
    SortKeepsMembers(shards, PlaceLe);
    SortKeepsUnique(shards, PlaceLe);
    var sorted := Sort(shards, PlaceLe);
    var mapping: map<string, FileName> := map[];
    NoPositions(sorted);
    var i := 0;
    while i < |sorted|
      invariant 0 <= i <= |sorted| && Positions(sorted, i, mapping)
    {
      PositionsNext(sorted, i, mapping);
      mapping := mapping[sorted[i] := FileName(i + 1, |sorted|)];
      i := i + 1;
    }
    r := Some(mapping);
    PositionsRenumber(files, sorted, mapping);
  }

  lemma PositionsRenumber(files: seq<string>, sorted: seq<string>, mapping: map<string, FileName>)
    requires (forall n :: n in sorted <==> n in files && IsShardName(n)) && |sorted| == |ShardsOf(files)| && Sorted(sorted, PlaceLe)
    requires Positions(sorted, |sorted|, mapping)
    ensures Renumbers(files, mapping)
  {
    hide PlaceLe, IsShardName;
    assert sorted[..|sorted|] == sorted;
    forall a | a in mapping ensures exists k :: 0 <= k < |sorted| && sorted[k] == a && mapping[a] == FileName(k + 1, |sorted|) {
      var k :| 0 <= k < |sorted| && sorted[k] == a;
    }
    forall k | 1 <= k <= |sorted| ensures FileName(k, |sorted|) in mapping.Values {
      assert sorted[k - 1] in mapping && mapping[sorted[k - 1]] == FileName(k, |sorted|);
    }
  }

  // ---------- what the numbers follow ----------

  /** How a shard of a group is named. */
  ghost predicate IsShardOf(name: string, group: string, ordinal: string, total: string) {
    && |ordinal| == 5 && |total| == 5 && Digits(ordinal) && Digits(total)
    && name == group + ("-" + ordinal + "-of-" + total + ".safetensors")
  }

  lemma RestParses(ordinal: string, total: string)
    requires |ordinal| == 5 && |total| == 5 && Digits(ordinal) && Digits(total)
    ensures OrdinalAfter("-" + ordinal + "-of-" + total + ".safetensors") == Some(Value(ordinal))
  {
    hide Digits, Value;
    var rest := "-" + ordinal + "-of-" + total + ".safetensors";
    assert rest[1..6] == ordinal && rest[6..10] == "-of-" && rest[10..15] == total && rest[15..] == ".safetensors";
  }

  lemma RestIs(rest: string)
    requires OrdinalAfter(rest).Some?
    ensures |rest| == 27 && rest == "-" + rest[1..6] + "-of-" + rest[10..15] + ".safetensors" && Digits(rest[1..6]) && Digits(rest[10..15])
  {
    hide Digits, Value;
    assert rest == rest[..1] + rest[1..6] + rest[6..10] + rest[10..15] + rest[15..] && rest[..1] == "-";
  }

  /** A name parses exactly when it is a shard's, and then its place is its group's and its ordinal. */
  lemma NamesParse(name: string, ordinal: string, total: string)
    ensures IsShardOf(name, "model", ordinal, total) ==> Place(name) == Some((0, Value(ordinal)))
    ensures IsShardOf(name, "ple-1", ordinal, total) ==> Place(name) == Some((1, Value(ordinal)))
    ensures IsShardOf(name, "ple-14", ordinal, total) ==> Place(name) == Some((2, Value(ordinal)))
  {
    hide Digits, Value, OrdinalAfter;
    var rest := "-" + ordinal + "-of-" + total + ".safetensors";
    if |ordinal| == 5 && |total| == 5 && Digits(ordinal) && Digits(total) {
      RestParses(ordinal, total);
      assert ("model" + rest)[5..] == rest && ("ple-1" + rest)[5..] == rest && ("ple-14" + rest)[6..] == rest;
      assert ("model" + rest)[0] == 'm' && ("ple-1" + rest)[5] == '-' && ("ple-14" + rest)[5] == '4';
    }
  }

  lemma ParsedNames(name: string)
    requires Place(name).Some?
    ensures exists group, ordinal, total :: group in {"model", "ple-1", "ple-14"} && IsShardOf(name, group, ordinal, total)
  {
    hide OrdinalAfter, IsShardOf;
    if "ple-14" <= name && OrdinalAfter(name[6..]).Some? {
      ShardParts(name, "ple-14");
    } else if "ple-1" <= name && OrdinalAfter(name[5..]).Some? {
      ShardParts(name, "ple-1");
    } else {
      ShardParts(name, "model");
    }
  }

  lemma ShardParts(name: string, group: string)
    requires group <= name && OrdinalAfter(name[|group|..]).Some?
    ensures exists ordinal, total :: IsShardOf(name, group, ordinal, total)
  {
    var rest := name[|group|..];
    RestIs(rest);
    hide OrdinalAfter, Digits;
    assert name == group + rest;
    assert IsShardOf(name, group, rest[1..6], rest[10..15]);
  }

  /** The place of a name is told by how it starts. */
  lemma PlaceByPrefix(name: string)
    requires Place(name).Some?
    ensures "model-" <= name ==> |name| == 32 && Place(name).value == (0, Value(name[6..11])) && Digits(name[6..11])
    ensures "ple-1-" <= name ==> |name| == 32 && Place(name).value == (1, Value(name[6..11])) && Digits(name[6..11])
    ensures "ple-14-" <= name ==> |name| == 33 && Place(name).value == (2, Value(name[7..12])) && Digits(name[7..12])
  {
    hide Digits, Value;
    if "model-" <= name {
      assert name[0] == 'm' && name[5..][1..6] == name[6..11];
    }
    if "ple-1-" <= name {
      assert name[0] == 'p' && name[5] == '-' && name[5..][1..6] == name[6..11];
    }
    if "ple-14-" <= name {
      assert name[0] == 'p' && name[5] == '4' && name[5..][0] == '4' && name[6..][1..6] == name[7..12];
    }
  }

  /** All model shards come first, then all of the first table, then all of the other. */
  lemma GroupsAreInOrder(files: seq<string>, mapping: map<string, FileName>, a: string, b: string)
    requires Renumbers(files, mapping) && a in mapping && b in mapping && Place(a).Some? && Place(b).Some?
    ensures "model-" <= a && "ple-1-" <= b ==> mapping[a].ordinal < mapping[b].ordinal
    ensures "model-" <= a && "ple-14-" <= b ==> mapping[a].ordinal < mapping[b].ordinal
    ensures "ple-1-" <= a && "ple-14-" <= b ==> mapping[a].ordinal < mapping[b].ordinal
  {
    PlaceByPrefix(a);
    PlaceByPrefix(b);
    hide Place;
    if ("model-" <= a && ("ple-1-" <= b || "ple-14-" <= b)) || ("ple-1-" <= a && "ple-14-" <= b) {
      PlaceDecides(files, mapping, a, b);
    }
  }

  lemma PlaceDecides(files: seq<string>, mapping: map<string, FileName>, a: string, b: string)
    requires Renumbers(files, mapping) && a in mapping && b in mapping && !PlaceLe(b, a)
    ensures mapping[a].ordinal < mapping[b].ordinal
  {
    hide PlaceOf, IsShardName;
  }

  /** The first of five digits that differs decides. */
  lemma DigitsDecide(s: string, t: string, k: nat)
    requires |s| == 5 && |t| == 5 && Digits(s) && Digits(t) && k < 5 && s[..k] == t[..k] && s[k] < t[k]
    ensures Value(s) < Value(t)
  {
    FiveDigits(s);
    FiveDigits(t);
    assert forall i :: 0 <= i < k ==> s[i] == s[..k][i] == t[..k][i] == t[i];
  }

  lemma FiveDigits(s: string)
    requires |s| == 5
    ensures Value(s) == 10000 * DigitValue(s[0]) + 1000 * DigitValue(s[1]) + 100 * DigitValue(s[2]) + 10 * DigitValue(s[3]) + DigitValue(s[4])
  {
    hide DigitValue;
    assert s[..4][..3] == s[..3] && s[..3][..2] == s[..2] && s[..2][..1] == s[..1] && s[..1][..0] == "";
    assert Value("") == 0;
    assert Value(s[..1]) == DigitValue(s[0]);
    assert Value(s[..2]) == 10 * DigitValue(s[0]) + DigitValue(s[1]);
    assert Value(s[..3]) == 100 * DigitValue(s[0]) + 10 * DigitValue(s[1]) + DigitValue(s[2]);
  }

  lemma SamePart(a: string, b: string, n: nat, k: nat)
    requires |a| >= n + 5 && |b| >= n + 5 && k < 5 && a[..n + k] == b[..n + k]
    ensures a[n..n + 5][..k] == b[n..n + 5][..k] && a[n..n + 5][k] == a[n + k] && b[n..n + 5][k] == b[n + k]
  {
    assert a[n..n + 5][..k] == a[..n + k][n..] && b[n..n + 5][..k] == b[..n + k][n..];
  }

  /** Within a group the five digits ascend. */
  lemma DigitsAreInOrder(files: seq<string>, mapping: map<string, FileName>, prefix: string, a: string, b: string, k: nat)
    requires Renumbers(files, mapping) && a in mapping && b in mapping && Place(a).Some? && Place(b).Some?
    requires prefix in {"model-", "ple-1-", "ple-14-"} && prefix <= a && prefix <= b && k < 5 && |a| > |prefix| + k && |b| > |prefix| + k
    requires a[..|prefix| + k] == b[..|prefix| + k] && a[|prefix| + k] < b[|prefix| + k]
    ensures mapping[a].ordinal < mapping[b].ordinal
  {
    hide Place, Digits, Renumbers;
    PlaceByPrefix(a);
    PlaceByPrefix(b);
    var n := |prefix|;
    SamePart(a, b, n, k);
    DigitsDecide(a[n..n + 5], b[n..n + 5], k);
    PlaceDecides(files, mapping, a, b);
  }

  // ---------- the revised plan ----------

  /** What an injective map sends to `v`. */
  ghost function SourceOf<K(!new), V>(mapping: map<K, V>, v: V): (k: K)
    requires v in mapping.Values
    ensures k in mapping && mapping[k] == v
  {
    var k :| k in mapping && mapping[k] == v;
    k
  }

  ghost predicate Injective<K(!new), V>(mapping: map<K, V>) {
    forall a, b :: a in mapping && b in mapping && mapping[a] == mapping[b] ==> a == b
  }

  function RenamedFiles(files: map<string, seq<string>>, mapping: map<string, FileName>): map<FileName, seq<string>>
    requires files.Keys == mapping.Keys && Injective(mapping)
  {
    map n | n in files :: mapping[n] := files[n]
  }

  function RenamedWeights(weightMap: map<string, string>, mapping: map<string, FileName>): (r: map<string, FileName>)
    requires forall n :: n in weightMap ==> weightMap[n] in mapping
    ensures r.Keys == weightMap.Keys
  {
    map n | n in weightMap :: mapping[weightMap[n]]
  }

  /** Every shard is in the renamed files, under its new name, and nothing else is. */
  lemma RenamedFilesMirror(files: map<string, seq<string>>, mapping: map<string, FileName>)
    requires files.Keys == mapping.Keys && Injective(mapping)
    ensures forall g :: g in files ==> mapping[g] in RenamedFiles(files, mapping) && RenamedFiles(files, mapping)[mapping[g]] == files[g]
    ensures forall h :: h in RenamedFiles(files, mapping) ==> h in mapping.Values
  {
  }

  // ---------- the commit ----------

  /** The tree after the commit: copies read the parent's revision, deletions spare new names. */
  ghost function Applied<B>(tree: map<string, B>, renames: map<string, string>, index: string, payload: B): map<string, B>
    requires renames.Keys <= tree.Keys
  {
    var kept := tree - (set n | n in renames && n !in renames.Values);
    var copies := map m | m in renames.Values :: tree[SourceOf(renames, m)];
    (kept + copies)[index := payload]
  }

  function NewName(renames: map<string, string>, n: string): string {
    if n in renames then renames[n] else n
  }

  /** The inventory expected: every file under its new name, or its own if it has none, and the new index. */
  ghost predicate IsRenamed<B(!new)>(tree: map<string, B>, after: map<string, B>, renames: map<string, string>, index: string, payload: B) {
    && (forall n :: n in tree && n != index ==> NewName(renames, n) in after && after[NewName(renames, n)] == tree[n])
    && index in after && after[index] == payload
    && (forall m :: m in after ==> m == index || exists n :: n in tree && n != index && NewName(renames, n) == m)
  }

  /** The commit gives exactly the expected inventory when no file that keeps its name is in the way. */
  lemma CommitRenames<B(!new)>(tree: map<string, B>, renames: map<string, string>, index: string, payload: B)
    requires renames.Keys <= tree.Keys && Injective(renames) && index in tree && index !in renames && index !in renames.Values
    requires forall n :: n in tree && n !in renames ==> n !in renames.Values
    ensures IsRenamed(tree, Applied(tree, renames, index, payload), renames, index, payload)
  {
    var after := Applied(tree, renames, index, payload);
    forall n | n in tree && n != index ensures NewName(renames, n) in after && after[NewName(renames, n)] == tree[n] {
      if n in renames {
        assert renames[n] in renames.Values && SourceOf(renames, renames[n]) == n;
      }
    }
    forall m | m in after && m != index ensures exists n :: n in tree && n != index && NewName(renames, n) == m {
      if m in renames.Values {
        assert NewName(renames, SourceOf(renames, m)) == m;
      } else {
        assert NewName(renames, m) == m;
      }
    }
  }

  /** The mapping as strings. */
  function Rendered(mapping: map<string, FileName>): map<string, string> {
    map n | n in mapping :: Render(mapping[n])
  }

  /** The numbered mapping qualifies, although old and new names may overlap. */
  lemma NumberedCommitRenames<B(!new)>(tree: map<string, B>, files: seq<string>, mapping: map<string, FileName>, index: string, payload: B)
    requires (forall n :: n in files <==> n in tree) && Renumbers(files, mapping) && index in tree && !IsShardName(index)
    ensures Rendered(mapping).Keys <= tree.Keys && Injective(Rendered(mapping))
    ensures IsRenamed(tree, Applied(tree, Rendered(mapping), index, payload), Rendered(mapping), index, payload)
  {
    hide Render, IsShardName, PlaceLe, Applied;
    var renames := Rendered(mapping);
    forall a, b | a in renames && b in renames && renames[a] == renames[b] ensures a == b {
      RenderIsInjective(mapping[a], mapping[b]);
    }
    forall m | m in renames.Values ensures IsShardName(m) {
      var n :| n in renames && renames[n] == m;
      RenderedIsShardName(mapping[n]);
    }
    CommitRenames(tree, renames, index, payload);
  }
}
