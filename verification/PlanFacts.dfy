/** What every shard plan promises: an exact index, isolated groups, the fewest files, conserved bytes, and
    that it is the only plan. */
module PlanFacts {
  import opened ExportLayout
  import opened Options
  import opened Sorting

  // ---------- what a plan promises ----------

  /** The file of a tensor, by the tensor: the weight map is the exact inverse of the files, every tensor
      is in exactly one file, and no name is added. */
  lemma MapInvertsFiles(tensors: seq<Tensor>, target: int, plan: Plan, m: seq<seq<Tensor>>, p1: seq<seq<Tensor>>, p14: seq<seq<Tensor>>,
      name: string, file: FileName)
    requires Keyed(tensors) && Acceptable(tensors, target) && IsPlan(tensors, target, plan, m, p1, p14)
    ensures (name in plan.weightMap && plan.weightMap[name] == file) <==> (file in plan.files && name in plan.files[file])
    ensures name in plan.weightMap <==> name in NamesOf(tensors)
  {
    var all := m + p1 + p14;
    hide Ordered, ValidTensor, Complete, Size, Fits, Full;
    PlanIsApart(tensors, target, m, p1, p14);
    if name in plan.weightMap {
      var k: nat :| k < |all| && name in NamesOf(all[k]);
      var t: Tensor :| t in all[k] && t.name == name;
      assert plan.weightMap[name] == FileName(k + 1, |all|) && t in tensors;
    }
    if file in plan.files && name in plan.files[file] {
      var k: nat := file.ordinal - 1;
      assert plan.files[FileName(k + 1, |all|)] == NamesOf(all[k]);
      var t: Tensor :| t in all[k] && t.name == name;
    }
    if name in NamesOf(tensors) {
      var t :| t in tensors && t.name == name;
      var k :| 0 <= k < |all| && t in all[k];
    }
  }

  /** No file mixes groups, and each is within the target or holds a single tensor. */
  lemma FilesAreIsolated(tensors: seq<Tensor>, target: int, plan: Plan, m: seq<seq<Tensor>>, p1: seq<seq<Tensor>>, p14: seq<seq<Tensor>>, k: nat)
    requires IsPlan(tensors, target, plan, m, p1, p14) && k < |m + p1 + p14|
    ensures Fits((m + p1 + p14)[k], target)
    ensures exists group :: forall t :: t in (m + p1 + p14)[k] ==> TensorGroup(t.name) == Some(group)
  {
    hide TensorGroup, Size, Full;
    var all := m + p1 + p14;
    var group := if k < |m| then Model else if k < |m| + |p1| then Ple1 else Ple14;
    var own, i := if k < |m| then m else if k < |m| + |p1| then p1 else p14,
                  if k < |m| then k else if k < |m| + |p1| then k - |m| else k - |m| - |p1|;
    assert all[k] == own[i];
    forall t: Tensor | t in all[k] ensures TensorGroup(t.name) == Some(group) {
      FlattenHolds(own, t);
    }
  }

  /** No other group-isolating, order-preserving layout within the same rule uses fewer files. */
  lemma PlanIsOptimal(tensors: seq<Tensor>, target: int, plan: Plan, m: seq<seq<Tensor>>, p1: seq<seq<Tensor>>, p14: seq<seq<Tensor>>,
      n: seq<seq<Tensor>>, q1: seq<seq<Tensor>>, q14: seq<seq<Tensor>>)
    requires Acceptable(tensors, target) && IsPlan(tensors, target, plan, m, p1, p14)
    requires Split(Ordered(tensors, Model), n, target) && Split(Ordered(tensors, Ple1), q1, target) && Split(Ordered(tensors, Ple14), q14, target)
    ensures |plan.files| <= |n| + |q1| + |q14|
  {
    hide Complete, Split, Full, Size, TensorGroup;
    NameOrder();
    SortKeepsMembers(tensors, TensorLe);
    PackingIsOptimal(Ordered(tensors, Model), m, n, target);
    PackingIsOptimal(Ordered(tensors, Ple1), p1, q1, target);
    PackingIsOptimal(Ordered(tensors, Ple14), p14, q14, target);
    CountFiles(plan.files.Keys, |m + p1 + p14|, |m + p1 + p14|);
  }

  lemma {:induction false} CountFiles(files: set<FileName>, n: nat, total: nat)
    requires forall f :: f in files <==> f.total == total && 1 <= f.ordinal <= n
    ensures |files| == n
  {
    if n > 0 {
      CountFiles(files - {FileName(n, total)}, n - 1, total);
    } else {
      assert files == {};
    }
  }

  // ---------- the whole layout ----------

  lemma {:induction false} SizeOfInsert(t: Tensor, s: seq<Tensor>)
    ensures Size(Insert(t, s, TensorLe)) == t.bytes + Size(s)
  {
    if s == [] {
      SizeOfOne(t);
    } else if TensorLe(t, s[0]) {
      assert ([t] + s)[1..] == s;
    } else {
      SizeOfInsert(t, s[1..]);
      assert ([s[0]] + Insert(t, s[1..], TensorLe))[1..] == Insert(t, s[1..], TensorLe);
    }
  }

  lemma {:induction false} SizeOfSort(s: seq<Tensor>)
    ensures Size(Sort(s, TensorLe)) == Size(s)
  {
    if s != [] {
      SizeOfSort(s[1..]);
      SizeOfInsert(s[0], Sort(s[1..], TensorLe));
    }
  }

  /** Grouping loses no bytes. */
  lemma {:induction false} SizeOfGroups(s: seq<Tensor>)
    requires forall t :: t in s ==> ValidTensor(t)
    ensures Size(Members(s, Model)) + Size(Members(s, Ple1)) + Size(Members(s, Ple14)) == Size(s)
  {
    if s != [] {
      var rest, last := s[..|s| - 1], s[|s| - 1];
      assert s == rest + [last];
      hide ValidTensor, TensorGroup;
      SizeOfGroups(rest);
      SizeJoins(rest, [last]);
      SizeOfOne(last);
      GroupIsKnown(last);
      SizeJoins(Members(rest, Model), [last]);
      SizeJoins(Members(rest, Ple1), [last]);
      SizeJoins(Members(rest, Ple14), [last]);
    }
  }

  /** The bytes of the first `n` shards. */
  function SizeUpTo(all: seq<seq<Tensor>>, n: nat): int
    requires n <= |all|
  {
    if n == 0 then 0 else SizeUpTo(all, n - 1) + Size(all[n - 1])
  }

  lemma {:induction false} SizeOfFlatten(all: seq<seq<Tensor>>)
    ensures Size(Flatten(all)) == SizeUpTo(all, |all|)
  {
    if all != [] {
      var rest, last := all[..|all| - 1], all[|all| - 1];
      assert all == rest + [last];
      FlattenAdds(rest, last);
      SizeJoins(Flatten(rest), last);
      SizeOfFlatten(rest);
      SizeOfPrefix(all, rest, |rest|);
    }
  }

  lemma {:induction false} SizeOfPrefix(all: seq<seq<Tensor>>, rest: seq<seq<Tensor>>, n: nat)
    requires n <= |rest| && rest <= all
    ensures SizeUpTo(all, n) == SizeUpTo(rest, n)
  {
    if n > 0 {
      SizeOfPrefix(all, rest, n - 1);
    }
  }

  /** The total in the index is the sum over the files. */
  lemma TotalIsConserved(tensors: seq<Tensor>, target: int, plan: Plan, m: seq<seq<Tensor>>, p1: seq<seq<Tensor>>, p14: seq<seq<Tensor>>)
    requires Acceptable(tensors, target) && IsPlan(tensors, target, plan, m, p1, p14)
    ensures plan.total == SizeUpTo(m + p1 + p14, |m + p1 + p14|)
  {
    hide Complete, ValidTensor, Numbered, TensorLe;
    var sorted := Sort(tensors, TensorLe);
    NameOrder();
    SortKeepsMembers(tensors, TensorLe);
    SizeOfSort(tensors);
    SizeOfGroups(sorted);
    SizeOfFlatten(m + p1 + p14);
    FlattenJoins(m, p1);
    FlattenJoins(m + p1, p14);
    SizeJoins(Flatten(m), Flatten(p1));
    SizeJoins(Flatten(m) + Flatten(p1), Flatten(p14));
  }

  // ---------- one plan ----------

  /** The greedy packing is determined by the tensors and the target. */
  lemma {:induction false} PackedIsUnique(xs: seq<Tensor>, a: seq<seq<Tensor>>, b: seq<seq<Tensor>>, target: int)
    requires Sized(xs) && Packed(xs, a, target) && Packed(xs, b, target)
    ensures a == b
    decreases |a|
  {
    FlattenIsEmpty(a);
    FlattenIsEmpty(b);
    if a != [] && b != [] {
      assert xs == a[0] + Flatten(a[1..]) && xs == b[0] + Flatten(b[1..]);
      FirstReaches(xs, xs, a, b[0], |b[0]|, target);
      FirstReaches(xs, xs, b, a[0], |a[0]|, target);
      assert a[0] == xs[..|a[0]|] == b[0];
      var rest := xs[|a[0]|..];
      assert Flatten(a[1..]) == rest == Flatten(b[1..]);
      PackedIsUnique(rest, a[1..], b[1..], target);
      assert a == [a[0]] + a[1..] && b == [b[0]] + b[1..];
    }
  }

  /** An inventory and a target have one plan. */
  lemma PlanIsUnique(tensors: seq<Tensor>, target: int, a: Plan, b: Plan)
    requires Keyed(tensors) && Acceptable(tensors, target) && Planned(tensors, target, a) && Planned(tensors, target, b)
    ensures a == b
  {
    hide IsPlan, Acceptable, Keyed;
    var m, p1, p14 :| IsPlan(tensors, target, a, m, p1, p14);
    var n, q1, q14 :| IsPlan(tensors, target, b, n, q1, q14);
    SameShards(tensors, target, a, b, m, p1, p14, n, q1, q14);
    SameMaps(tensors, target, a, b, m, p1, p14);
  }

  lemma SameShards(tensors: seq<Tensor>, target: int, a: Plan, b: Plan, m: seq<seq<Tensor>>, p1: seq<seq<Tensor>>, p14: seq<seq<Tensor>>,
      n: seq<seq<Tensor>>, q1: seq<seq<Tensor>>, q14: seq<seq<Tensor>>)
    requires Acceptable(tensors, target) && IsPlan(tensors, target, a, m, p1, p14) && IsPlan(tensors, target, b, n, q1, q14)
    ensures m == n && p1 == q1 && p14 == q14 && a.files == b.files && a.total == b.total
  {
    hide Complete, Packed, Size, TensorGroup, TensorLe, NamesOf, Mapped;
    NameOrder();
    SortKeepsMembers(tensors, TensorLe);
    PackedIsUnique(Ordered(tensors, Model), m, n, target);
    PackedIsUnique(Ordered(tensors, Ple1), p1, q1, target);
    PackedIsUnique(Ordered(tensors, Ple14), p14, q14, target);
    SameFiles(m + p1 + p14, a, b);
  }

  lemma SameMaps(tensors: seq<Tensor>, target: int, a: Plan, b: Plan, m: seq<seq<Tensor>>, p1: seq<seq<Tensor>>, p14: seq<seq<Tensor>>)
    requires Keyed(tensors) && Acceptable(tensors, target)
    requires IsPlan(tensors, target, a, m, p1, p14) && IsPlan(tensors, target, b, m, p1, p14) && a.files == b.files
    ensures a.weightMap == b.weightMap
  {
    hide IsPlan, Acceptable, Keyed, NamesOf;
    forall name ensures name in a.weightMap <==> name in b.weightMap {
      MapInvertsFiles(tensors, target, a, m, p1, p14, name, FileName(0, 0));
      MapInvertsFiles(tensors, target, b, m, p1, p14, name, FileName(0, 0));
    }
    forall name | name in a.weightMap ensures a.weightMap[name] == b.weightMap[name] {
      MapInvertsFiles(tensors, target, a, m, p1, p14, name, a.weightMap[name]);
      MapInvertsFiles(tensors, target, b, m, p1, p14, name, a.weightMap[name]);
    }
    assert a.weightMap.Keys == b.weightMap.Keys;
  }

  lemma SameFiles(all: seq<seq<Tensor>>, a: Plan, b: Plan)
    requires Named(all, |all|, a.files) && Named(all, |all|, b.files)
    ensures a.files == b.files
  {
    hide NamesOf;
    forall f | f in a.files ensures f in b.files && a.files[f] == b.files[f] {
      var k: nat := f.ordinal - 1;
      assert a.files[FileName(k + 1, |all|)] == NamesOf(all[k]) == b.files[FileName(k + 1, |all|)];
    }
    assert a.files.Keys == b.files.Keys;
  }

  // ---------- a plan by its files ----------

  predicate DistinctStrings(names: seq<string>) {
    forall i, j :: 0 <= i < j < |names| ==> names[i] != names[j]
  }

  predicate OneGroup(names: seq<string>) {
    names != [] && TensorGroup(names[0]).Some? && forall n :: n in names ==> TensorGroup(n) == TensorGroup(names[0])
  }

  /** Files are numbered from one. */
  ghost predicate Consecutive(files: map<FileName, seq<string>>) {
    forall f :: f in files <==> f.total == |files| && 1 <= f.ordinal <= |files|
  }

  ghost predicate Isolated(files: map<FileName, seq<string>>) {
    forall f :: f in files ==> DistinctStrings(files[f]) && OneGroup(files[f])
  }

  ghost predicate Inverse(plan: Plan) {
    && (forall f, n :: f in plan.files && n in plan.files[f] ==> n in plan.weightMap && plan.weightMap[n] == f)
    && (forall n :: n in plan.weightMap ==> plan.weightMap[n] in plan.files && n in plan.files[plan.weightMap[n]])
  }

  /** What a reader of the plan relies on: files numbered from one, none empty, no mixed groups, and a
      weight map that inverts them and covers exactly the inventory. */
  ghost predicate WellLaid(tensors: seq<Tensor>, plan: Plan) {
    && Consecutive(plan.files) && Isolated(plan.files) && Inverse(plan)
    && forall n :: n in plan.weightMap <==> n in NamesOf(tensors)
  }

  function NamesSize(names: seq<string>, bytes: map<string, int>): int
    requires forall n :: n in names ==> n in bytes
  {
    if names == [] then 0 else
      assert names == [names[0]] + names[1..];
      bytes[names[0]] + NamesSize(names[1..], bytes)
  }

  ghost predicate Priced(tensors: seq<Tensor>, bytes: map<string, int>) {
    forall t :: t in tensors ==> t.name in bytes && bytes[t.name] == t.bytes
  }

  lemma {:induction false} SizeByName(shard: seq<Tensor>, bytes: map<string, int>)
    requires Priced(shard, bytes)
    ensures Size(shard) == NamesSize(NamesOf(shard), bytes)
  {
    if shard != [] {
      assert shard == [shard[0]] + shard[1..];
      SizeByName(shard[1..], bytes);
      assert NamesOf(shard)[1..] == NamesOf(shard[1..]);
    }
  }

  ghost predicate AllPriced(plan: Plan, bytes: map<string, int>) {
    forall f, m :: f in plan.files && m in plan.files[f] ==> m in bytes
  }

  /** The payload of the first `n` files. */
  ghost function PlanSize(plan: Plan, bytes: map<string, int>, n: nat): int
    requires n <= |plan.files| && Consecutive(plan.files) && AllPriced(plan, bytes)
  {
    if n == 0 then 0
    else
      assert FileName(n, |plan.files|) in plan.files;
      PlanSize(plan, bytes, n - 1) + NamesSize(plan.files[FileName(n, |plan.files|)], bytes)
  }

  lemma {:induction false} PlanSizeIsSize(all: seq<seq<Tensor>>, plan: Plan, bytes: map<string, int>, n: nat)
    requires Named(all, |all|, plan.files) && |plan.files| == |all| && n <= |all|
    requires forall k :: 0 <= k < |all| ==> Priced(all[k], bytes)
    requires Consecutive(plan.files) && AllPriced(plan, bytes)
    ensures PlanSize(plan, bytes, n) == SizeUpTo(all, n)
  {
    hide Priced;
    if n > 0 {
      PlanSizeIsSize(all, plan, bytes, n - 1);
      SizeByName(all[n - 1], bytes);
      var k: nat := n - 1;
      assert plan.files[FileName(k + 1, |all|)] == NamesOf(all[k]);
    }
  }

  lemma {:induction false} NamesAreDistinct(shard: seq<Tensor>)
    requires Keyed(shard)
    ensures DistinctStrings(NamesOf(shard))
  {
    if shard != [] {
      NamesAreDistinct(shard[1..]);
      assert NamesOf(shard)[1..] == NamesOf(shard[1..]);
      forall i | 1 <= i < |shard| ensures NamesOf(shard)[i] != NamesOf(shard)[0] {
        assert NamesOf(shard)[i] in NamesOf(shard[1..]);
      }
    }
  }

  /** Every plan reads well, and its total is the sum of its files. */
  lemma PlanIsWellLaid(tensors: seq<Tensor>, target: int, plan: Plan, bytes: map<string, int>)
    requires Keyed(tensors) && Acceptable(tensors, target) && Planned(tensors, target, plan)
    requires Priced(tensors, bytes)
    ensures WellLaid(tensors, plan) && AllPriced(plan, bytes)
    ensures plan.total == PlanSize(plan, bytes, |plan.files|)
  {
    hide Acceptable, Keyed, IsPlan, NamesOf, Priced, Consecutive, Isolated, Inverse, AllPriced, Numbered, Named;
    var m, p1, p14 :| IsPlan(tensors, target, plan, m, p1, p14);
    var all := m + p1 + p14;
    FilesAreNumbered(tensors, target, plan, m, p1, p14);
    FilesReadWell(tensors, target, plan, m, p1, p14);
    MapInverts(tensors, target, plan, m, p1, p14, bytes);
    TotalIsConserved(tensors, target, plan, m, p1, p14);
    ShardsArePriced(tensors, target, plan, m, p1, p14, bytes);
    PlanSizeIsSize(all, plan, bytes, |all|);
  }

  lemma MapInverts(tensors: seq<Tensor>, target: int, plan: Plan, m: seq<seq<Tensor>>, p1: seq<seq<Tensor>>, p14: seq<seq<Tensor>>,
      bytes: map<string, int>)
    requires Keyed(tensors) && Acceptable(tensors, target) && IsPlan(tensors, target, plan, m, p1, p14) && Priced(tensors, bytes)
    ensures Inverse(plan) && AllPriced(plan, bytes) && forall n :: n in plan.weightMap <==> n in NamesOf(tensors)
  {
    hide Acceptable, Keyed, IsPlan, NamesOf, Priced;
    forall f, n | f in plan.files && n in plan.files[f] ensures n in plan.weightMap && plan.weightMap[n] == f && n in bytes {
      MapInvertsFiles(tensors, target, plan, m, p1, p14, n, f);
      NameIsPriced(tensors, bytes, n);
    }
    forall n | n in plan.weightMap ensures plan.weightMap[n] in plan.files && n in plan.files[plan.weightMap[n]] {
      MapInvertsFiles(tensors, target, plan, m, p1, p14, n, plan.weightMap[n]);
    }
    forall n ensures n in plan.weightMap <==> n in NamesOf(tensors) {
      MapInvertsFiles(tensors, target, plan, m, p1, p14, n, FileName(0, 0));
    }
  }

  lemma NameIsPriced(tensors: seq<Tensor>, bytes: map<string, int>, n: string)
    requires Priced(tensors, bytes) && n in NamesOf(tensors)
    ensures n in bytes
  {
  }

  lemma FilesAreNumbered(tensors: seq<Tensor>, target: int, plan: Plan, m: seq<seq<Tensor>>, p1: seq<seq<Tensor>>, p14: seq<seq<Tensor>>)
    requires IsPlan(tensors, target, plan, m, p1, p14)
    ensures |plan.files| == |m + p1 + p14| && Named(m + p1 + p14, |m + p1 + p14|, plan.files) && Consecutive(plan.files)
  {
    hide Packed, Mapped, NamesOf, Ordered;
    CountFiles(plan.files.Keys, |m + p1 + p14|, |m + p1 + p14|);
  }

  lemma FilesReadWell(tensors: seq<Tensor>, target: int, plan: Plan, m: seq<seq<Tensor>>, p1: seq<seq<Tensor>>, p14: seq<seq<Tensor>>)
    requires Keyed(tensors) && Acceptable(tensors, target) && IsPlan(tensors, target, plan, m, p1, p14)
    ensures Isolated(plan.files)
  {
    hide Acceptable, Keyed, IsPlan, NamesOf, OneGroup, DistinctStrings, Fits;
    var all: seq<seq<Tensor>> := m + p1 + p14;
    FilesAreNumbered(tensors, target, plan, m, p1, p14);
    forall f | f in plan.files ensures DistinctStrings(plan.files[f]) && OneGroup(plan.files[f]) {
      var k: nat := f.ordinal - 1;
      assert plan.files[FileName(k + 1, |all|)] == NamesOf(all[k]);
      FileReadsWell(tensors, target, plan, m, p1, p14, k);
    }
  }

  lemma FileReadsWell(tensors: seq<Tensor>, target: int, plan: Plan, m: seq<seq<Tensor>>, p1: seq<seq<Tensor>>, p14: seq<seq<Tensor>>, k: nat)
    requires Keyed(tensors) && Acceptable(tensors, target) && IsPlan(tensors, target, plan, m, p1, p14) && k < |m + p1 + p14|
    ensures DistinctStrings(NamesOf((m + p1 + p14)[k])) && OneGroup(NamesOf((m + p1 + p14)[k]))
  {
    hide Keyed, Numbered, TensorGroup, Ordered, ValidTensor, Complete, Packed, Size;
    var all: seq<seq<Tensor>> := m + p1 + p14;
    ShardIsKeyed(tensors, target, m, p1, p14, k);
    NamesAreDistinct(all[k]);
    FilesAreIsolated(tensors, target, plan, m, p1, p14, k);
    var group :| forall t: Tensor :: t in all[k] ==> TensorGroup(t.name) == Some(group);
    assert all[k][0] in all[k] && NamesOf(all[k])[0] in NamesOf(all[k]);
  }

  lemma ShardIsKeyed(tensors: seq<Tensor>, target: int, m: seq<seq<Tensor>>, p1: seq<seq<Tensor>>, p14: seq<seq<Tensor>>, k: nat)
    requires Keyed(tensors) && (forall t :: t in tensors ==> ValidTensor(t)) && k < |m + p1 + p14|
    requires Packed(Ordered(tensors, Model), m, target) && Packed(Ordered(tensors, Ple1), p1, target) && Packed(Ordered(tensors, Ple14), p14, target)
    ensures Keyed((m + p1 + p14)[k])
  {
    var all: seq<seq<Tensor>> := m + p1 + p14;
    hide Ordered, ValidTensor, Packed;
    ShardsAreKeyed(tensors, target, m, p1, p14);
    ShardIsUnique(tensors, target, m, p1, p14, k);
    forall i, j | 0 <= i < j < |all[k]| ensures all[k][i].name != all[k][j].name {
      assert all[k][i] in all[k] && all[k][j] in all[k];
    }
  }

  lemma ShardIsUnique(tensors: seq<Tensor>, target: int, m: seq<seq<Tensor>>, p1: seq<seq<Tensor>>, p14: seq<seq<Tensor>>, k: nat)
    requires Keyed(tensors) && k < |m + p1 + p14|
    requires Packed(Ordered(tensors, Model), m, target) && Packed(Ordered(tensors, Ple1), p1, target) && Packed(Ordered(tensors, Ple14), p14, target)
    ensures Unique((m + p1 + p14)[k])
  {
    hide TensorGroup, Fits, Full;
    var sorted := Sort(tensors, TensorLe);
    NameOrder();
    SortKeepsUnique(tensors, TensorLe);
    MembersAreUnique(sorted, Model);
    MembersAreUnique(sorted, Ple1);
    MembersAreUnique(sorted, Ple14);
    if k < |m| {
      PartIsUnique(m, k);
    } else if k < |m| + |p1| {
      PartIsUnique(p1, k - |m|);
    } else {
      PartIsUnique(p14, k - |m| - |p1|);
    }
  }

  lemma {:induction false} PartIsUnique(shards: seq<seq<Tensor>>, k: nat)
    requires k < |shards| && Unique(Flatten(shards))
    ensures Unique(shards[k])
  {
    var rest := Flatten(shards[1..]);
    assert Flatten(shards) == shards[0] + rest;
    if k == 0 {
      forall i, j | 0 <= i < j < |shards[0]| ensures shards[0][i] != shards[0][j] {
        assert Flatten(shards)[i] == shards[0][i] && Flatten(shards)[j] == shards[0][j];
      }
    } else {
      forall i, j | 0 <= i < j < |rest| ensures rest[i] != rest[j] {
        assert Flatten(shards)[|shards[0]| + i] == rest[i] && Flatten(shards)[|shards[0]| + j] == rest[j];
      }
      PartIsUnique(shards[1..], k - 1);
    }
  }

  lemma ShardsArePriced(tensors: seq<Tensor>, target: int, plan: Plan, m: seq<seq<Tensor>>, p1: seq<seq<Tensor>>, p14: seq<seq<Tensor>>,
      bytes: map<string, int>)
    requires Keyed(tensors) && Acceptable(tensors, target) && IsPlan(tensors, target, plan, m, p1, p14) && Priced(tensors, bytes)
    ensures forall k :: 0 <= k < |m + p1 + p14| ==> Priced((m + p1 + p14)[k], bytes)
  {
    hide Ordered, ValidTensor, Complete, Numbered;
    PlanIsApart(tensors, target, m, p1, p14);
  }

  // ---------- the order of a plan ----------

  lemma {:induction false} MembersAreSorted(tensors: seq<Tensor>, group: Group)
    requires Sorted(tensors, TensorLe)
    ensures Sorted(Members(tensors, group), TensorLe)
  {
    hide TensorLe, TensorGroup;
    if tensors != [] {
      var rest, last := tensors[..|tensors| - 1], tensors[|tensors| - 1];
      MembersAreSorted(rest, group);
      var members := Members(rest, group);
      forall i | 0 <= i < |members| ensures TensorLe(members[i], last) {
        assert members[i] in rest;
      }
    }
  }

  lemma OrderedIsSorted(tensors: seq<Tensor>, group: Group)
    ensures Sorted(Ordered(tensors, group), TensorLe)
  {
    NameOrder();
    hide TensorLe;
    SortSorts(tensors, TensorLe);
    MembersAreSorted(Sort(tensors, TensorLe), group);
  }

  /** In shards that a sorted list was split into, earlier tensors come first by name. */
  lemma {:induction false} ShardsAreSorted(shards: seq<seq<Tensor>>, k: nat, i: nat, l: nat, j: nat)
    requires Sorted(Flatten(shards), TensorLe) && k < |shards| && l < |shards| && i < |shards[k]| && j < |shards[l]|
    requires k < l || (k == l && i < j)
    ensures NameLe(shards[k][i].name, shards[l][j].name)
  {
    hide NameLe;
    var all, rest := Flatten(shards), Flatten(shards[1..]);
    assert all == shards[0] + rest;
    if k == 0 {
      assert all[i] == shards[0][i];
      if l == 0 {
        assert all[j] == shards[0][j];
      } else {
        FlattenHolds(shards[1..], shards[l][j]);
        assert shards[l][j] in shards[1..][l - 1];
        var n :| 0 <= n < |rest| && rest[n] == shards[l][j];
        assert all[|shards[0]| + n] == rest[n];
      }
    } else {
      RestIsSorted(shards[0], rest);
      ShardsAreSorted(shards[1..], k - 1, i, l - 1, j);
    }
  }

  lemma RestIsSorted(first: seq<Tensor>, rest: seq<Tensor>)
    requires Sorted(first + rest, TensorLe)
    ensures Sorted(rest, TensorLe)
  {
    hide TensorLe;
    forall i, j | 0 <= i < j < |rest| ensures TensorLe(rest[i], rest[j]) {
      assert (first + rest)[|first| + i] == rest[i] && (first + rest)[|first| + j] == rest[j];
    }
  }

  /** The groups come in the order model, first table, other table. */
  function GroupRank(name: string): nat {
    if TensorGroup(name) == Some(Ple14) then 2 else if TensorGroup(name) == Some(Ple1) then 1 else 0
  }

  /** Numbered files follow the groups and, within a group, the names; so do the tensors inside a file. */
  lemma PlanIsSorted(tensors: seq<Tensor>, target: int, plan: Plan, m: seq<seq<Tensor>>, p1: seq<seq<Tensor>>, p14: seq<seq<Tensor>>,
      f: FileName, i: nat, g: FileName, j: nat)
    requires IsPlan(tensors, target, plan, m, p1, p14) && f in plan.files && g in plan.files && i < |plan.files[f]| && j < |plan.files[g]|
    requires f.ordinal < g.ordinal || (f.ordinal == g.ordinal && i < j)
    ensures GroupRank(plan.files[f][i]) <= GroupRank(plan.files[g][j])
    ensures GroupRank(plan.files[f][i]) == GroupRank(plan.files[g][j]) ==> NameLe(plan.files[f][i], plan.files[g][j])
  {
    hide TensorGroup, NameLe, Packed, Ordered, Mapped;
    var all, k, l := m + p1 + p14, f.ordinal - 1, g.ordinal - 1;
    NameAt(all[k], i);
    NameAt(all[l], j);
    GroupOfShard(tensors, target, plan, m, p1, p14, k, i);
    GroupOfShard(tensors, target, plan, m, p1, p14, l, j);
    if GroupRank(plan.files[f][i]) == GroupRank(plan.files[g][j]) {
      var rank := GroupRank(plan.files[f][i]);
      var own, at := if rank == 0 then m else if rank == 1 then p1 else p14, if rank == 0 then 0 else if rank == 1 then |m| else |m| + |p1|;
      var group := if rank == 0 then Model else if rank == 1 then Ple1 else Ple14;
      assert all[k] == own[k - at] && all[l] == own[l - at];
      PackedIsOrdered(tensors, group, own, target);
      OrderedIsSorted(tensors, group);
      ShardsAreSorted(own, k - at, i, l - at, j);
    }
  }

  lemma PackedIsOrdered(tensors: seq<Tensor>, group: Group, shards: seq<seq<Tensor>>, target: int)
    requires Packed(Ordered(tensors, group), shards, target)
    ensures Flatten(shards) == Ordered(tensors, group)
  {
  }

  lemma {:induction false} NameAt(shard: seq<Tensor>, i: nat)
    requires i < |NamesOf(shard)|
    ensures |NamesOf(shard)| == |shard| && NamesOf(shard)[i] == shard[i].name
  {
    if i > 0 {
      NameAt(shard[1..], i - 1);
    }
  }

  lemma InGroup(tensors: seq<Tensor>, group: Group, shards: seq<seq<Tensor>>, target: int, k: nat, t: Tensor)
    requires Packed(Ordered(tensors, group), shards, target) && k < |shards| && t in shards[k]
    ensures TensorGroup(t.name) == Some(group)
  {
    hide TensorGroup, Fits, Full;
    FlattenHolds(shards, t);
  }

  lemma GroupOfShard(tensors: seq<Tensor>, target: int, plan: Plan, m: seq<seq<Tensor>>, p1: seq<seq<Tensor>>, p14: seq<seq<Tensor>>, k: nat, i: nat)
    requires IsPlan(tensors, target, plan, m, p1, p14) && k < |m + p1 + p14| && i < |(m + p1 + p14)[k]|
    ensures GroupRank((m + p1 + p14)[k][i].name) == if k < |m| then 0 else if k < |m| + |p1| then 1 else 2
  {
    hide TensorGroup, Packed, Ordered, Numbered, Size;
    var all, t := m + p1 + p14, (m + p1 + p14)[k][i];
    var own, n := if k < |m| then m else if k < |m| + |p1| then p1 else p14,
                  if k < |m| then k else if k < |m| + |p1| then k - |m| else k - |m| - |p1|;
    assert all[k] == own[n] && t in own[n];
    InGroup(tensors, if k < |m| then Model else if k < |m| + |p1| then Ple1 else Ple14, own, target, n, t);
  }
}
