/** Shard planning: tensors grouped, sorted by name and packed greedily into files. */
module ExportLayout {
  import opened Options
  import opened Sorting

  datatype Tensor = Tensor(name: string, bytes: int)

  datatype Group = Model | Ple1 | Ple14

  /** A file name carries the shard's ordinal, counted from one, and the number of shards. */
  datatype FileName = FileName(ordinal: nat, total: nat)

  datatype Plan = Plan(files: map<FileName, seq<string>>, weightMap: map<string, FileName>, total: int)

  // ---------- names ----------

  predicate Contains(s: string, part: string) {
    part <= s || (s != "" && Contains(s[1..], part))
  }

  function PleName(layer: string, suffix: string): string {
    "layers." + layer + ".engram.embed." + suffix
  }

  function GroupNames(group: Group): set<string> {
    match group
    case Model => {}
    case Ple1 => {PleName("1", "weight"), PleName("1", "scale")}
    case Ple14 => {PleName("14", "weight"), PleName("14", "scale")}
  }

  /** `tensor_group` */
  function TensorGroup(name: string): Option<Group> {
    if name in GroupNames(Ple1) then Some(Ple1)
    else if name in GroupNames(Ple14) then Some(Ple14)
    else if Contains(name, ".engram.embed.") then None
    else Some(Model)
  }

  lemma {:induction false} ContainsIsSomewhere(s: string, part: string)
    ensures Contains(s, part) <==> exists i :: 0 <= i <= |s| && part <= s[i..]
  {
    assert s[0..] == s;
    if !(part <= s) && s != "" {
      ContainsIsSomewhere(s[1..], part);
      if Contains(s[1..], part) {
        var i :| 0 <= i <= |s| - 1 && part <= s[1..][i..];
        assert s[i + 1..] == s[1..][i..];
      }
      if i :| 0 <= i <= |s| && part <= s[i..] {
        assert s[1..][i - 1..] == s[i..];
      }
    } else if s == "" {
      assert forall i :: 0 <= i <= |s| ==> s[i..] == s;
    }
  }

  lemma GroupNamesAre()
    ensures GroupNames(Ple1) == {"layers.1.engram.embed.weight", "layers.1.engram.embed.scale"}
    ensures GroupNames(Ple14) == {"layers.14.engram.embed.weight", "layers.14.engram.embed.scale"}
  {
    assert PleName("1", "weight") == "layers.1.engram.embed.weight" && PleName("1", "scale") == "layers.1.engram.embed.scale";
    assert PleName("14", "weight") == "layers.14.engram.embed.weight" && PleName("14", "scale") == "layers.14.engram.embed.scale";
  }

  /** The groups by the names themselves. */
  lemma GroupIsByName(name: string)
    ensures TensorGroup(name) == Some(Ple1) <==> name == "layers.1.engram.embed.weight" || name == "layers.1.engram.embed.scale"
    ensures TensorGroup(name) == Some(Ple14) <==> name == "layers.14.engram.embed.weight" || name == "layers.14.engram.embed.scale"
    ensures TensorGroup(name) == None <==>
      && TensorGroup(name) != Some(Ple1) && TensorGroup(name) != Some(Ple14)
      && exists i :: 0 <= i <= |name| && ".engram.embed." <= name[i..]
  {
    hide Contains;
    GroupNamesAre();
    assert "layers.1.engram.embed.weight"[8] == '.' && "layers.14.engram.embed.weight"[8] == '4';
    assert "layers.1.engram.embed.scale"[8] == '.' && "layers.14.engram.embed.scale"[8] == '4';
    hide PleName, GroupNames;
    ContainsIsSomewhere(name, ".engram.embed.");
  }

  /** The items of a dictionary, in the order of their keys. */
  predicate TensorLe(a: Tensor, b: Tensor) {
    NameLe(a.name, b.name)
  }

  lemma NameOrder()
    ensures Connected(TensorLe)
  {
    forall x: Tensor, y: Tensor ensures TensorLe(x, y) || TensorLe(y, x) {
      NamesAreTotal(x.name, y.name);
    }
    forall x: Tensor, y: Tensor, z: Tensor | TensorLe(x, y) && TensorLe(y, z) ensures TensorLe(x, z) {
      NamesAreTransitive(x.name, y.name, z.name);
    }
  }

  // ---------- packing ----------

  function Flatten<T>(shards: seq<seq<T>>): seq<T> {
    if shards == [] then [] else shards[0] + Flatten(shards[1..])
  }

  function Size(shard: seq<Tensor>): int {
    if shard == [] then 0 else shard[0].bytes + Size(shard[1..])
  }

  /** A shard may exceed the target only by holding a single tensor. */
  predicate Fits(shard: seq<Tensor>, target: int) {
    shard != [] && (Size(shard) <= target || |shard| == 1)
  }

  /** An order-preserving split into shards that fit. */
  predicate Split(tensors: seq<Tensor>, shards: seq<seq<Tensor>>, target: int) {
    Flatten(shards) == tensors && forall i :: 0 <= i < |shards| ==> Fits(shards[i], target)
  }

  /** No shard could also take the first tensor of the next. */
  predicate Full(shards: seq<seq<Tensor>>, target: int)
    requires forall i :: 0 <= i < |shards| ==> shards[i] != []
  {
    forall i :: 0 <= i < |shards| - 1 ==> Size(shards[i]) + shards[i + 1][0].bytes > target
  }

  predicate Packed(tensors: seq<Tensor>, shards: seq<seq<Tensor>>, target: int) {
    Split(tensors, shards, target) && Full(shards, target)
  }

  predicate Sized(tensors: seq<Tensor>) {
    forall t :: t in tensors ==> t.bytes >= 0
  }

  lemma {:induction false} SizeJoins(a: seq<Tensor>, b: seq<Tensor>)
    ensures Size(a + b) == Size(a) + Size(b)
  {
    if a == [] {
      assert a + b == b;
    } else {
      assert (a + b)[1..] == a[1..] + b;
      SizeJoins(a[1..], b);
    }
  }

  lemma {:induction false} SizeIsPositive(a: seq<Tensor>)
    requires Sized(a)
    ensures Size(a) >= 0
  {
    if a != [] {
      SizeIsPositive(a[1..]);
    }
  }

  lemma {:induction false} FlattenJoins<T>(a: seq<seq<T>>, b: seq<seq<T>>)
    ensures Flatten(a + b) == Flatten(a) + Flatten(b)
  {
    if a == [] {
      assert a + b == b;
    } else {
      assert (a + b)[1..] == a[1..] + b;
      FlattenJoins(a[1..], b);
    }
  }

  lemma FlattenAdds<T>(a: seq<seq<T>>, shard: seq<T>)
    ensures Flatten(a + [shard]) == Flatten(a) + shard
  {
    FlattenJoins(a, [shard]);
    assert Flatten([shard]) == shard + Flatten([shard][1..]);
    assert [shard][1..] == [];
  }

  /** Between tensors: full shards, and a current one that its predecessor had no room to start. */
  predicate Packing(done: seq<Tensor>, shards: seq<seq<Tensor>>, current: seq<Tensor>, target: int) {
    && Packed(done, if current == [] then shards else shards + [current], target)
    && (current == [] ==> shards == [])
  }

  lemma Closes(done: seq<Tensor>, shards: seq<seq<Tensor>>, current: seq<Tensor>, t: Tensor, target: int)
    requires Packing(done, shards, current, target) && (current == [] || Size(current) + t.bytes > target)
    ensures Packing(done + [t], if current == [] then shards else shards + [current], [t], target)
  {
    hide Size;
    var closed := if current == [] then shards else shards + [current];
    FlattenAdds(closed, [t]);
    assert Fits([t], target);
  }

  lemma Grows(done: seq<Tensor>, shards: seq<seq<Tensor>>, current: seq<Tensor>, t: Tensor, target: int)
    requires Packing(done, shards, current, target) && current != [] && Size(current) + t.bytes <= target
    ensures Packing(done + [t], shards, current + [t], target) && Size(current + [t]) == Size(current) + t.bytes
  {
    SizeJoins(current, [t]);
    assert Size([t]) == t.bytes;
    hide Size;
    FlattenAdds(shards, current);
    FlattenAdds(shards, current + [t]);
    assert Flatten(shards) + (current + [t]) == done + [t];
    var before, after := shards + [current], shards + [current + [t]];
    forall i | 0 <= i < |after| ensures Fits(after[i], target) && after[i] != [] {
      assert i < |shards| ==> Fits(before[i], target);
    }
    forall i | 0 <= i < |after| - 1 ensures Size(after[i]) + after[i + 1][0].bytes > target {
      assert Size(before[i]) + before[i + 1][0].bytes > target;
    }
  }

  /** The inner loop: close the current shard when the next tensor does not fit. */
  method Pack(tensors: seq<Tensor>, target: int) returns (shards: seq<seq<Tensor>>)
    ensures Packed(tensors, shards, target)
  {
    shards := [];
    var current: seq<Tensor> := [];
    var size := 0;
    var i := 0;
    assert Packing([], [], [], target);
    while i < |tensors|
      invariant 0 <= i <= |tensors| && size == Size(current)
      invariant Packing(tensors[..i], shards, current, target)
    {
      hide Packing, Size;
      var t := tensors[i];
      assert tensors[..i + 1] == tensors[..i] + [t];
      if current != [] && size + t.bytes > target {
        Closes(tensors[..i], shards, current, t, target);
        shards := shards + [current];
        current, size := [], 0;
      } else if current != [] {
        Grows(tensors[..i], shards, current, t, target);
      } else {
        Closes(tensors[..i], shards, current, t, target);
      }
      SizeOfOne(t);
      assert [] + [t] == [t];
      current := current + [t];
      size := size + t.bytes;
      i := i + 1;
    }
    if current != [] {
      shards := shards + [current];
    }
    assert tensors[..i] == tensors;
  }

  lemma SizeOfOne(t: Tensor)
    ensures Size([t]) == t.bytes && Size([]) == 0
  {
  }

  lemma FlattenIsEmpty<T>(shards: seq<seq<T>>)
    requires forall i :: 0 <= i < |shards| ==> shards[i] != []
    ensures Flatten(shards) == [] ==> shards == []
  {
  }

  /** A full packing of a suffix of what another split covers uses no more shards than that split. */
  lemma {:induction false} FullIsShortest(xs: seq<Tensor>, ys: seq<Tensor>, full: seq<seq<Tensor>>, other: seq<seq<Tensor>>, target: int)
    requires Sized(ys) && Packed(xs, full, target) && Split(ys, other, target)
    requires |xs| <= |ys| && xs == ys[|ys| - |xs|..]
    ensures |full| <= |other|
    decreases |other|
  {
    FlattenIsEmpty(full);
    if other != [] && full != [] {
      var rest := ys[|other[0]|..];
      assert Flatten(other[1..]) == rest;
      assert Split(rest, other[1..], target);
      if |xs| <= |rest| {
        FullIsShortest(xs, rest, full, other[1..], target);
      } else {
        var d := |xs| - |rest|;
        FirstReaches(xs, ys, full, other[0], d, target);
        var after := xs[|full[0]|..];
        assert Flatten(full[1..]) == after;
        assert Packed(after, full[1..], target);
        FullIsShortest(after, rest, full[1..], other[1..], target);
      }
    }
  }

  /** A full packing's first shard reaches at least to where the other split's first shard ends. */
  lemma FirstReaches(xs: seq<Tensor>, ys: seq<Tensor>, full: seq<seq<Tensor>>, first: seq<Tensor>, d: nat, target: int)
    requires Sized(ys) && Packed(xs, full, target) && full != []
    requires first <= ys && Fits(first, target) && |xs| <= |ys| && xs == ys[|ys| - |xs|..]
    requires 0 < d <= |xs| && d <= |first| && |ys| - |xs| + d == |first|
    ensures |full[0]| >= d
  {
    var g := full[0];
    if |g| < d {
      assert xs == g + Flatten(full[1..]);
      FlattenIsEmpty(full[1..]);
      assert Flatten(full[1..]) == full[1] + Flatten(full[1..][1..]);
      var next := full[1][0];
      assert xs[|g|] == next && xs[..|g| + 1] == g + [next];
      PartFits(first, first[..|first| - d], g, next, first[|first| - d + |g| + 1..], target);
    }
  }

  /** Part of a shard that fits has room for what is left of it. */
  lemma PartFits(first: seq<Tensor>, skipped: seq<Tensor>, g: seq<Tensor>, next: Tensor, more: seq<Tensor>, target: int)
    requires Sized(first) && first == skipped + (g + [next]) + more && g != [] && Fits(first, target)
    ensures Size(g) + next.bytes <= target
  {
    SizeJoins(g, [next]);
    SizeJoins(skipped, g + [next]);
    SizeJoins(skipped + (g + [next]), more);
    SizeOfOne(next);
    forall t | t in skipped || t in more ensures t.bytes >= 0 {
      assert t in first;
    }
    SizeIsPositive(skipped);
    SizeIsPositive(more);
  }

  /** Greedy packing is optimal among order-preserving splits. */
  lemma PackingIsOptimal(tensors: seq<Tensor>, shards: seq<seq<Tensor>>, other: seq<seq<Tensor>>, target: int)
    requires Sized(tensors) && Packed(tensors, shards, target) && Split(tensors, other, target)
    ensures |shards| <= |other|
  {
    FullIsShortest(tensors, tensors, shards, other, target);
  }

  // ---------- the plan ----------

  function Members(tensors: seq<Tensor>, group: Group): (r: seq<Tensor>)
    ensures forall t :: t in r <==> t in tensors && TensorGroup(t.name) == Some(group)
  {
    if tensors == [] then []
    else
      var rest := Members(tensors[..|tensors| - 1], group);
      var last := tensors[|tensors| - 1];
      assert tensors == tensors[..|tensors| - 1] + [last];
      if TensorGroup(last.name) == Some(group) then rest + [last] else rest
  }

  function NamesOf(shard: seq<Tensor>): (r: seq<string>)
    ensures |r| == |shard| && forall n :: n in r <==> exists t :: t in shard && t.name == n
  {
    if shard == [] then []
    else
      assert shard == [shard[0]] + shard[1..];
      [shard[0].name] + NamesOf(shard[1..])
  }

  predicate ValidTensor(t: Tensor) {
    t.name != "" && t.name != "__metadata__" && t.bytes >= 0 && TensorGroup(t.name).Some?
  }

  predicate Complete(tensors: seq<Tensor>, group: Group) {
    forall n :: n in GroupNames(group) ==> n in NamesOf(tensors)
  }

  /** The inventories that can be planned. */
  predicate Acceptable(tensors: seq<Tensor>, target: int) {
    && target >= 1 && tensors != [] && (forall t :: t in tensors ==> ValidTensor(t))
    && Complete(tensors, Ple1) && Complete(tensors, Ple14)
  }

  /** Tensors are the items of a dictionary. */
  predicate Keyed(tensors: seq<Tensor>) {
    forall i, j :: 0 <= i < j < |tensors| ==> tensors[i].name != tensors[j].name
  }

  function Ordered(tensors: seq<Tensor>, group: Group): seq<Tensor> {
    Members(Sort(tensors, TensorLe), group)
  }

  /** The three groups' packings, model first, numbered as one sequence of files. */
  ghost predicate IsPlan(tensors: seq<Tensor>, target: int, plan: Plan, m: seq<seq<Tensor>>, p1: seq<seq<Tensor>>, p14: seq<seq<Tensor>>) {
    && Packed(Ordered(tensors, Model), m, target)
    && Packed(Ordered(tensors, Ple1), p1, target)
    && Packed(Ordered(tensors, Ple14), p14, target)
    && Numbered(m + p1 + p14, plan) && plan.total == Size(tensors)
  }

  ghost predicate Planned(tensors: seq<Tensor>, target: int, plan: Plan) {
    exists m, p1, p14 :: IsPlan(tensors, target, plan, m, p1, p14)
  }

  ghost predicate Numbered(all: seq<seq<Tensor>>, plan: Plan) {
    && Named(all, |all|, plan.files) && Mapped(all, |all|, plan.weightMap)
  }

  /** The files of the first `n` shards. */
  ghost predicate Named(all: seq<seq<Tensor>>, n: nat, files: map<FileName, seq<string>>)
    requires n <= |all|
  {
    && (forall f :: f in files <==> f.total == |all| && 1 <= f.ordinal <= n)
    && (forall k :: 0 <= k < n ==> files[FileName(k + 1, |all|)] == NamesOf(all[k]))
  }

  /** The weight map sends each name of the first `n` shards to its shard's file, and holds no other. */
  ghost predicate Mapped(all: seq<seq<Tensor>>, n: nat, weightMap: map<string, FileName>)
    requires n <= |all|
  {
    Covers(all, n, weightMap) && OnlyThese(all, n, weightMap)
  }

  ghost predicate Covers(all: seq<seq<Tensor>>, n: nat, weightMap: map<string, FileName>)
    requires n <= |all|
  {
    forall k, t :: 0 <= k < n && t in all[k] ==> t.name in weightMap && weightMap[t.name] == FileName(k + 1, |all|)
  }

  ghost predicate OnlyThese(all: seq<seq<Tensor>>, n: nat, weightMap: map<string, FileName>)
    requires n <= |all|
  {
    forall name :: name in weightMap ==> exists k :: 0 <= k < n && name in NamesOf(all[k])
  }

  // ---------- names in one place ----------

  lemma {:induction false} MembersAreUnique(tensors: seq<Tensor>, group: Group)
    requires Unique(tensors)
    ensures Unique(Members(tensors, group))
  {
    if tensors != [] {
      var rest, last := tensors[..|tensors| - 1], tensors[|tensors| - 1];
      MembersAreUnique(rest, group);
      assert last !in rest;
    }
  }

  /** Each shard of a duplicate-free list holds what no other shard holds. */
  ghost predicate Apart(all: seq<seq<Tensor>>) {
    forall i, j, t :: 0 <= i < |all| && 0 <= j < |all| && t in all[i] && t in all[j] ==> i == j
  }

  /** Names tell the tensors of all shards apart. */
  ghost predicate KeyedShards(all: seq<seq<Tensor>>) {
    forall i, j, t, u :: 0 <= i < |all| && 0 <= j < |all| && t in all[i] && u in all[j] && t.name == u.name ==> t == u
  }

  lemma {:induction false} FlattenHolds(all: seq<seq<Tensor>>, t: Tensor)
    ensures t in Flatten(all) <==> exists k :: 0 <= k < |all| && t in all[k]
  {
    if all != [] {
      FlattenHolds(all[1..], t);
      if t in Flatten(all[1..]) {
        var k :| 0 <= k < |all[1..]| && t in all[1..][k];
        assert t in all[k + 1];
      }
      if k :| 0 <= k < |all| && t in all[k] {
        assert k > 0 ==> t in all[1..][k - 1];
      }
    }
  }

  lemma {:induction false} UniqueIsApart(all: seq<seq<Tensor>>)
    requires Unique(Flatten(all))
    ensures Apart(all)
  {
    if all != [] {
      var rest := Flatten(all[1..]);
      assert Flatten(all) == all[0] + rest;
      assert Unique(rest) by {
        forall i, j | 0 <= i < j < |rest| ensures rest[i] != rest[j] {
          assert Flatten(all)[|all[0]| + i] == rest[i] && Flatten(all)[|all[0]| + j] == rest[j];
        }
      }
      UniqueIsApart(all[1..]);
      forall i, j, t | 0 <= i < |all| && 0 <= j < |all| && t in all[i] && t in all[j] ensures i == j {
        if i > 0 && j > 0 {
          assert t in all[1..][i - 1] && t in all[1..][j - 1];
        } else if i + j > 0 {
          var k := i + j;
          assert t in all[0] && t in all[1..][k - 1];
          FlattenHolds(all[1..], t);
          OnceOnly(all[0], rest, t);
        }
      }
    }
  }

  lemma OnceOnly(a: seq<Tensor>, b: seq<Tensor>, t: Tensor)
    requires Unique(a + b)
    ensures !(t in a && t in b)
  {
    if t in a {
      var i :| 0 <= i < |a| && a[i] == t;
      forall j | 0 <= j < |b| ensures b[j] != t {
        assert (a + b)[i] == t && (a + b)[|a| + j] == b[j];
      }
    }
  }

  /** All shards together hold each tensor once. */
  lemma PlanIsApart(tensors: seq<Tensor>, target: int, m: seq<seq<Tensor>>, p1: seq<seq<Tensor>>, p14: seq<seq<Tensor>>)
    requires Keyed(tensors) && (forall t :: t in tensors ==> ValidTensor(t))
    requires Flatten(m) == Ordered(tensors, Model) && Flatten(p1) == Ordered(tensors, Ple1) && Flatten(p14) == Ordered(tensors, Ple14)
    ensures Apart(m + p1 + p14)
    ensures forall t :: t in tensors <==> exists k :: 0 <= k < |m + p1 + p14| && t in (m + p1 + p14)[k]
  {
    var sorted, all := Sort(tensors, TensorLe), m + p1 + p14;
    NameOrder();
    SortKeepsUnique(tensors, TensorLe);
    SortKeepsMembers(tensors, TensorLe);
    MembersAreUnique(sorted, Model);
    MembersAreUnique(sorted, Ple1);
    MembersAreUnique(sorted, Ple14);
    FlattenJoins(m, p1);
    FlattenJoins(m + p1, p14);
    var a, b, c := Flatten(m), Flatten(p1), Flatten(p14);
    hide TensorGroup, ValidTensor;
    UniqueJoins(a, b);
    UniqueJoins(a + b, c);
    UniqueIsApart(all);
    forall t ensures t in tensors <==> exists k :: 0 <= k < |all| && t in all[k] {
      FlattenHolds(all, t);
      GroupIsKnown(t);
    }
  }

  lemma GroupIsKnown(t: Tensor)
    ensures ValidTensor(t) ==>
      TensorGroup(t.name) == Some(Model) || TensorGroup(t.name) == Some(Ple1) || TensorGroup(t.name) == Some(Ple14)
  {
  }

  lemma UniqueJoins(a: seq<Tensor>, b: seq<Tensor>)
    requires Unique(a) && Unique(b) && forall t :: t in a ==> t !in b
    ensures Unique(a + b)
  {
    forall i, j | 0 <= i < j < |a + b| ensures (a + b)[i] != (a + b)[j] {
      if i < |a| && j >= |a| {
        assert a[i] in a && b[j - |a|] in b;
      }
    }
  }

  // ---------- planning ----------

  lemma MembersAdd(tensors: seq<Tensor>, i: nat, group: Group)
    requires i < |tensors|
    ensures Members(tensors[..i + 1], group)
         == Members(tensors[..i], group) + (if TensorGroup(tensors[i].name) == Some(group) then [tensors[i]] else [])
  {
    hide TensorGroup;
    assert tensors[..i + 1][..i] == tensors[..i];
  }

  /** The grouping loop: the three groups in name order, or a refusal. */
  method Grouped(tensors: seq<Tensor>) returns (ok: bool, model: seq<Tensor>, ple1: seq<Tensor>, ple14: seq<Tensor>)
    ensures ok <==> forall t :: t in tensors ==> ValidTensor(t)
    ensures ok ==> model == Ordered(tensors, Model) && ple1 == Ordered(tensors, Ple1) && ple14 == Ordered(tensors, Ple14)
  {
    hide TensorGroup, TensorLe, Connected, Members;
    var sorted := Sort(tensors, TensorLe);
    NameOrder();
    SortKeepsMembers(tensors, TensorLe);
    model, ple1, ple14 := [], [], [];
    NoMembers();
    var i := 0;
    while i < |sorted|
      invariant 0 <= i <= |sorted| && forall k :: 0 <= k < i ==> ValidTensor(sorted[k])
      invariant model == Members(sorted[..i], Model) && ple1 == Members(sorted[..i], Ple1) && ple14 == Members(sorted[..i], Ple14)
      decreases |sorted| - i
    {
      var t := sorted[i];
      assert t in tensors;
      var group := TensorGroup(t.name);
      if t.name == "" || t.name == "__metadata__" || t.bytes < 0 || group == None {
        return false, model, ple1, ple14;
      }
      MembersAdd(sorted, i, Model);
      MembersAdd(sorted, i, Ple1);
      MembersAdd(sorted, i, Ple14);
      match group.value {
        case Model => model := model + [t];
        case Ple1 => ple1 := ple1 + [t];
        case Ple14 => ple14 := ple14 + [t];
      }
      i := i + 1;
    }
    assert sorted[..i] == sorted;
    ok := true;
  }

  lemma NoMembers()
    ensures Members([], Model) == Members([], Ple1) == Members([], Ple14) == []
  {
  }

  /** A group is complete exactly when its own names are the expected ones. */
  lemma CompleteByGroup(tensors: seq<Tensor>, group: Group)
    requires group != Model
    ensures (set n | n in NamesOf(Ordered(tensors, group))) == GroupNames(group) <==> Complete(tensors, group)
  {
    hide TensorGroup, GroupNames, Ordered, NamesOf;
    var own := set n | n in NamesOf(Ordered(tensors, group));
    forall n ensures n in own <==> n in NamesOf(tensors) && n in GroupNames(group) {
      NameInGroup(tensors, group, n);
    }
    if Complete(tensors, group) {
      assert own == GroupNames(group);
    }
  }

  lemma NameInGroup(tensors: seq<Tensor>, group: Group, n: string)
    requires group != Model
    ensures n in NamesOf(Ordered(tensors, group)) <==> n in NamesOf(tensors) && n in GroupNames(group)
  {
    NameOrder();
    SortKeepsMembers(tensors, TensorLe);
    GroupOfName(n);
    hide TensorGroup, GroupNames, Sort;
    if n in NamesOf(tensors) && TensorGroup(n) == Some(group) {
      var t :| t in tensors && t.name == n;
      assert t in Ordered(tensors, group);
    }
  }

  lemma GroupOfName(n: string)
    ensures TensorGroup(n) == Some(Ple1) <==> n in GroupNames(Ple1)
    ensures TensorGroup(n) == Some(Ple14) <==> n in GroupNames(Ple14)
  {
    assert PleName("1", "weight")[8] == '.' && PleName("1", "scale")[8] == '.';
    assert PleName("14", "weight")[8] == '4' && PleName("14", "scale")[8] == '4';
  }

  /** The naming loop. */
  method Number(all: seq<seq<Tensor>>, total: int) returns (plan: Plan)
    requires Apart(all) && KeyedShards(all)
    ensures Numbered(all, plan) && plan.total == total
  {
    hide Named, Mapped, NamesOf, Updated, Apart, KeyedShards;
    NothingNumbered(all);
    var files: map<FileName, seq<string>> := map[];
    var weightMap: map<string, FileName> := map[];
    var k := 0;
    while k < |all|
      invariant 0 <= k <= |all| && Mapped(all, k, weightMap)
      invariant Named(all, k, files)
    {
      var file := FileName(k + 1, |all|);
      var names := NamesOf(all[k]);
      NamesNext(all, k, files);
      files := files[file := names];
      MapsNext(all, k, weightMap);
      weightMap := Updated(weightMap, names, file);
      k := k + 1;
    }
    plan := Plan(files, weightMap, total);
  }

  lemma NothingNumbered(all: seq<seq<Tensor>>)
    ensures Named(all, 0, map[]) && Mapped(all, 0, map[])
  {
  }

  lemma NamesNext(all: seq<seq<Tensor>>, k: nat, files: map<FileName, seq<string>>)
    requires k < |all| && Named(all, k, files)
    ensures Named(all, k + 1, files[FileName(k + 1, |all|) := NamesOf(all[k])])
  {
    hide NamesOf;
  }

  /** `weight_map.update` */
  function Updated(weightMap: map<string, FileName>, names: seq<string>, file: FileName): map<string, FileName> {
    weightMap + map n | n in names :: file
  }

  lemma MapsNext(all: seq<seq<Tensor>>, k: nat, weightMap: map<string, FileName>)
    requires k < |all| && Mapped(all, k, weightMap) && Apart(all) && KeyedShards(all)
    ensures Mapped(all, k + 1, Updated(weightMap, NamesOf(all[k]), FileName(k + 1, |all|)))
  {
    hide Covers, OnlyThese, Updated, Apart, KeyedShards;
    CoversNext(all, k, weightMap);
    OnlyNext(all, k, weightMap);
  }

  lemma CoversNext(all: seq<seq<Tensor>>, k: nat, weightMap: map<string, FileName>)
    requires k < |all| && Covers(all, k, weightMap) && Apart(all) && KeyedShards(all)
    ensures Covers(all, k + 1, Updated(weightMap, NamesOf(all[k]), FileName(k + 1, |all|)))
  {
    hide Apart, KeyedShards;
    var after := Updated(weightMap, NamesOf(all[k]), FileName(k + 1, |all|));
    forall i, t: Tensor | 0 <= i < k + 1 && t in all[i] ensures t.name in after && after[t.name] == FileName(i + 1, |all|) {
      if i < k {
        NameIsElsewhere(all, i, k, t);
      }
    }
  }

  lemma OnlyNext(all: seq<seq<Tensor>>, k: nat, weightMap: map<string, FileName>)
    requires k < |all| && OnlyThese(all, k, weightMap)
    ensures OnlyThese(all, k + 1, Updated(weightMap, NamesOf(all[k]), FileName(k + 1, |all|)))
  {
    hide NamesOf;
    var after := Updated(weightMap, NamesOf(all[k]), FileName(k + 1, |all|));
    forall name | name in after ensures exists i :: 0 <= i < k + 1 && name in NamesOf(all[i]) {
      if name !in NamesOf(all[k]) {
        var i :| 0 <= i < k && name in NamesOf(all[i]);
      }
    }
  }

  lemma NameIsElsewhere(all: seq<seq<Tensor>>, i: nat, k: nat, t: Tensor)
    requires i < k < |all| && t in all[i] && Apart(all) && KeyedShards(all)
    ensures t.name !in NamesOf(all[k])
  {
    assert t !in all[k];
    assert forall u :: u in all[k] && u.name == t.name ==> u == t;
  }

  /** `plan_shards` */
  method PlanShards(tensors: seq<Tensor>, target: int) returns (r: Option<Plan>)
    requires Keyed(tensors)
    ensures r.Some? <==> Acceptable(tensors, target)
    ensures r.Some? ==> Planned(tensors, target, r.value)
  {
    hide ValidTensor, TensorGroup, TensorLe, Ordered, Packed, Numbered, GroupNames;
    if target < 1 || tensors == [] {
      return None;
    }
    var ok, model, ple1, ple14 := Grouped(tensors);
    if !ok {
      return None;
    }
    CompleteByGroup(tensors, Ple1);
    CompleteByGroup(tensors, Ple14);
    if (set n | n in NamesOf(ple1)) != GroupNames(Ple1) || (set n | n in NamesOf(ple14)) != GroupNames(Ple14) {
      return None;
    }
    var m := Pack(model, target);
    var p1 := Pack(ple1, target);
    var p14 := Pack(ple14, target);
    ShardsAreKeyed(tensors, target, m, p1, p14);
    var plan := Number(m + p1 + p14, Size(tensors));
    assert IsPlan(tensors, target, plan, m, p1, p14);
    r := Some(plan);
  }

  lemma ShardsAreKeyed(tensors: seq<Tensor>, target: int, m: seq<seq<Tensor>>, p1: seq<seq<Tensor>>, p14: seq<seq<Tensor>>)
    requires Keyed(tensors) && (forall t :: t in tensors ==> ValidTensor(t))
    requires Packed(Ordered(tensors, Model), m, target) && Packed(Ordered(tensors, Ple1), p1, target) && Packed(Ordered(tensors, Ple14), p14, target)
    ensures Apart(m + p1 + p14)
    ensures KeyedShards(m + p1 + p14)
  {
    hide Ordered, ValidTensor;
    PlanIsApart(tensors, target, m, p1, p14);
    var all := m + p1 + p14;
    forall i, j, t: Tensor, u: Tensor | 0 <= i < |all| && 0 <= j < |all| && t in all[i] && u in all[j] && t.name == u.name ensures t == u {
      assert t in tensors && u in tensors;
    }
  }
}
