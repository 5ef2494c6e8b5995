/** The durable artifact journal: immutable records, retirement intents and payload files.

    A digest is modelled by the value it digests: a record pins each parent by the parent's whole
    record, and its payload by the whole file content. That is what an injective digest provides. */
module Journal {

  /** The kinds that records carry. */
  datatype Kind =
    | Inventory | Inputs | Replay | Routed | Hessian | Projection | Tiers
    | Phase | Block | Namespace | NamespaceInputs | NamespaceRetirement | Quantization

  datatype Error =
    | InvalidDependencies | MissingPayload | UncommittedDependency | ImmutableRecord
    | RetiredPayload | CorruptDependency | CorruptPayload
    | InvalidRetirement | NotABarrier | NotATemporaryAncestor
    | RetirementChanged | AliasedPayload | CorruptTarget | MissingBeforeIntent
    | WrongKind | MissingArtifact | InventoryChanged | WrongLayer | InvalidRetention

  /** How a step of the run ends. `Stopped` is the process dying, or a computation failing: whatever
      is durable stays, everything else is lost. `Raised` is one of the code's own checks refusing. */
  datatype Outcome<+T> = Done(value: T) | Stopped | Raised(error: Error) {
    predicate IsFailure() {
      !Done?
    }
    function PropagateFailure<U>(): Outcome<U>
      requires IsFailure()
    {
      if Stopped? then Stopped else Raised(error)
    }
    function Extract(): T
      requires !IsFailure()
    {
      value
    }
  }

  datatype Record<K, P, F> = Record(kind: Kind, path: P, payload: F, parents: map<K, Record<K, P, F>>)

  datatype Intent<K, P, F> = Intent(barrier: K, record: Record<K, P, F>, barrierRecord: Record<K, P, F>)

  /** Everything that survives the process: two tables and the payload files. */
  datatype Durable<K, P, F> = Durable(
    artifacts: map<K, Record<K, P, F>>,
    retirements: map<K, Intent<K, P, F>>,
    files: map<P, F>)

  predicate Distinct<T(==)>(s: seq<T>) {
    forall i, j :: 0 <= i < j < |s| ==> s[i] != s[j]
  }

  predicate Temporary(kind: Kind) {
    kind == Hessian || kind == Routed || kind == Replay || kind == Projection
  }

  predicate Barrier(kind: Kind) {
    kind == Block || kind == NamespaceRetirement
  }

  // ---------- what a record means ----------

  /** Every parent is committed, as exactly the record that was pinned. */
  ghost predicate Pinned<K(!new), P, F>(j: Durable<K, P, F>) {
    forall k, p :: k in j.artifacts && p in j.artifacts[k].parents ==>
      p in j.artifacts && j.artifacts[k].parents[p] == j.artifacts[p]
  }

  /** A committed key whose payload was not given up. */
  predicate Live<K(!new), P, F>(j: Durable<K, P, F>, k: K) {
    k in j.artifacts && k !in j.retirements
  }

  ghost predicate Stored<K(!new), P, F>(j: Durable<K, P, F>, k: K)
    requires k in j.artifacts
  {
    j.artifacts[k].path in j.files && j.files[j.artifacts[k].path] == j.artifacts[k].payload
  }

  /** The intent to retire `k` names both records as they are committed, behind a live barrier. */
  ghost predicate IntentHolds<K(!new), P, F>(j: Durable<K, P, F>, k: K)
    requires k in j.retirements
  {
    var i := j.retirements[k];
    && k in j.artifacts && i.record == j.artifacts[k] && Temporary(i.record.kind)
    && i.barrier in j.artifacts && i.barrierRecord == j.artifacts[i.barrier] && Barrier(i.barrierRecord.kind)
  }

  /** The journal invariant: pinned parents, exact live payloads, justified retirements. */
  ghost predicate Valid<K(!new), P, F>(j: Durable<K, P, F>) {
    && Pinned(j)
    && (forall k :: Live(j, k) ==> Stored(j, k))
    && (forall k :: k in j.retirements ==> IntentHolds(j, k))
  }

  /** What `get(key, verify=True)` accepts. */
  ghost predicate Intact<K(!new), P, F>(j: Durable<K, P, F>, k: K) {
    && Live(j, k)
    && (forall p :: p in j.artifacts[k].parents ==>
          p in j.artifacts && j.artifacts[p] == j.artifacts[k].parents[p])
    && Stored(j, k)
  }

  lemma LiveIsIntact<K(!new), P, F>(j: Durable<K, P, F>, k: K)
    requires Valid(j)
    ensures Intact(j, k) <==> Live(j, k)
  {
  }

  // ---------- the ancestor relation ----------

  /** `c` walks from a record to a parent at every step. */
  ghost predicate Chain<K(!new), P, F>(a: map<K, Record<K, P, F>>, c: seq<K>) {
    forall i :: 0 <= i < |c| - 1 ==> c[i] in a && c[i + 1] in a[c[i]].parents
  }

  ghost predicate Ancestor<K(!new), P, F>(a: map<K, Record<K, P, F>>, from: K, k: K) {
    exists c: seq<K> :: |c| >= 2 && Chain(a, c) && c[0] == from && c[|c| - 1] == k
  }

  lemma ParentIsAncestor<K(!new), P, F>(a: map<K, Record<K, P, F>>, from: K, p: K)
    requires from in a && p in a[from].parents
    ensures Ancestor(a, from, p)
  {
    var c := [from, p];
    assert Chain(a, c) && c[0] == from && c[|c| - 1] == p;
  }

  lemma AncestorStep<K(!new), P, F>(a: map<K, Record<K, P, F>>, from: K, k: K, p: K)
    requires Ancestor(a, from, k) && k in a && p in a[k].parents
    ensures Ancestor(a, from, p)
  {
    var c: seq<K> :| |c| >= 2 && Chain(a, c) && c[0] == from && c[|c| - 1] == k;
    var d := c + [p];
    forall i | 0 <= i < |d| - 1 ensures d[i] in a && d[i + 1] in a[d[i]].parents {
      if i < |c| - 1 {
        assert d[i] == c[i] && d[i + 1] == c[i + 1];
      }
    }
    assert Chain(a, d) && d[0] == from && d[|d| - 1] == p;
  }

  /** A set that holds a record's parents and its own parents holds every ancestor. */
  lemma {:induction false} ClosedSetHoldsAncestors<K(!new), P, F>(a: map<K, Record<K, P, F>>, from: K, s: set<K>, c: seq<K>)
    requires from in a && a[from].parents.Keys <= s
    requires forall k :: k in s && k in a ==> a[k].parents.Keys <= s
    requires |c| >= 2 && Chain(a, c) && c[0] == from
    ensures c[|c| - 1] in s
    decreases |c|
  {
    var d := c[..|c| - 1];
    assert c[|d| - 1] in a && c[|d|] in a[c[|d| - 1]].parents;
    if |c| > 2 {
      assert Chain(a, d) by {
        forall i | 0 <= i < |d| - 1 ensures d[i] in a && d[i + 1] in a[d[i]].parents {
          assert d[i] == c[i] && d[i + 1] == c[i + 1];
        }
      }
      ClosedSetHoldsAncestors(a, from, s, d);
    }
  }

  /** Pinned records are well founded, so no record is its own ancestor. */
  lemma {:induction false} ChainDescends<K(!new), P, F>(j: Durable<K, P, F>, c: seq<K>)
    requires Pinned(j) && |c| >= 2 && Chain(j.artifacts, c)
    ensures c[|c| - 1] in j.artifacts && c[0] in j.artifacts
    ensures j.artifacts[c[|c| - 1]] < j.artifacts[c[0]]
    decreases |c|
  {
    var d := c[..|c| - 1];
    var last := c[|d| - 1];
    assert last in j.artifacts && c[|d|] in j.artifacts[last].parents;
    assert j.artifacts[last].parents[c[|d|]] < j.artifacts[last];
    if |c| > 2 {
      assert Chain(j.artifacts, d) by {
        forall i | 0 <= i < |d| - 1 ensures d[i] in j.artifacts && d[i + 1] in j.artifacts[d[i]].parents {
          assert d[i] == c[i] && d[i + 1] == c[i + 1];
        }
      }
      ChainDescends(j, d);
    }
  }

  lemma Acyclic<K(!new), P, F>(j: Durable<K, P, F>, k: K)
    requires Pinned(j)
    ensures !Ancestor(j.artifacts, k, k)
  {
    if Ancestor(j.artifacts, k, k) {
      var c: seq<K> :| |c| >= 2 && Chain(j.artifacts, c) && c[0] == k && c[|c| - 1] == k;
      ChainDescends(j, c);
    }
  }

  // ---------- recording ----------

  function NewRecord<K(!new), P, F>(j: Durable<K, P, F>, kind: Kind, path: P, parents: seq<K>): Record<K, P, F>
    requires path in j.files && forall p :: p in parents ==> p in j.artifacts
  {
    Record(kind, path, j.files[path], map p | p in parents :: j.artifacts[p])
  }

  ghost predicate RecordAccepts<K(!new), P, F>(j: Durable<K, P, F>, key: K, kind: Kind, path: P, parents: seq<K>) {
    && Distinct(parents) && key !in parents && path in j.files
    && (forall p :: p in parents ==> p in j.artifacts)
    && (key in j.artifacts ==> j.artifacts[key] == NewRecord(j, kind, path, parents))
  }

  ghost function Recorded<K(!new), P, F>(j: Durable<K, P, F>, key: K, kind: Kind, path: P, parents: seq<K>): Durable<K, P, F>
    requires RecordAccepts(j, key, kind, path, parents)
  {
    j.(artifacts := j.artifacts[key := NewRecord(j, kind, path, parents)])
  }

  /** A committed record never changes, and recording keeps the invariant, also when the path already
      belongs to another key. */
  lemma RecordingKeepsJournal<K(!new), P, F>(j: Durable<K, P, F>, key: K, kind: Kind, path: P, parents: seq<K>)
    requires Valid(j) && RecordAccepts(j, key, kind, path, parents)
    ensures Valid(Recorded(j, key, kind, path, parents))
    ensures forall k :: k in j.artifacts ==>
      k in Recorded(j, key, kind, path, parents).artifacts && Recorded(j, key, kind, path, parents).artifacts[k] == j.artifacts[k]
  {
    var n := Recorded(j, key, kind, path, parents);
    forall k | Live(n, k) ensures Stored(n, k) {
      if k != key {
        assert Live(j, k);
      }
    }
    forall k | k in n.retirements ensures IntentHolds(n, k) {
      assert IntentHolds(j, k);
    }
  }

  /** Writing a payload keeps the invariant exactly when no live record loses its content. */
  lemma SavingKeepsJournal<K(!new), P, F>(j: Durable<K, P, F>, path: P, file: F)
    requires Valid(j)
    ensures Valid(j.(files := j.files[path := file])) <==>
      forall k :: Live(j, k) && j.artifacts[k].path == path ==> j.artifacts[k].payload == file
  {
    var n := j.(files := j.files[path := file]);
    assert forall k :: Live(n, k) <==> Live(j, k);
    forall k | k in n.retirements ensures IntentHolds(n, k) {
      assert IntentHolds(j, k);
    }
    if Valid(n) {
      forall k | Live(j, k) && j.artifacts[k].path == path ensures j.artifacts[k].payload == file {
        assert Stored(n, k);
      }
    }
  }

  // ---------- retiring ----------

  function PathKeys<K(!new), P(==), F>(a: map<K, Record<K, P, F>>, path: P): set<K> {
    set k | k in a && a[k].path == path
  }

  ghost predicate KeyAccepted<K(!new), P, F>(j: Durable<K, P, F>, key: K, barrier: K)
    requires barrier in j.artifacts
  {
    && Ancestor(j.artifacts, barrier, key)
    && key in j.artifacts && Temporary(j.artifacts[key].kind)
    && (key in j.retirements ==>
          j.retirements[key] == Intent(barrier, j.artifacts[key], j.artifacts[barrier]))
    && PathKeys(j.artifacts, j.artifacts[key].path) == {key}
    && (j.artifacts[key].path in j.files ==> j.files[j.artifacts[key].path] == j.artifacts[key].payload)
    && (j.artifacts[key].path !in j.files ==> key in j.retirements)
  }

  ghost predicate RetireAccepts<K(!new), P, F>(j: Durable<K, P, F>, keys: seq<K>, barrier: K) {
    && keys != [] && Distinct(keys) && barrier !in keys
    && Intact(j, barrier) && Barrier(j.artifacts[barrier].kind)
    && forall key :: key in keys ==> KeyAccepted(j, key, barrier)
  }

  /** What a retirement requires, in full: distinct keys and another, live barrier that ended a block or a
      namespace; and of every key that it is a rolling payload behind the barrier, alone at its path, given up
      for nothing else, and on disk as recorded unless it is given up already. */
  lemma RetirementRequires<K(!new), P, F>(j: Durable<K, P, F>, keys: seq<K>, barrier: K)
    requires Valid(j)
    ensures RetireAccepts(j, keys, barrier) <==>
      && keys != [] && (forall i, n :: 0 <= i < n < |keys| ==> keys[i] != keys[n]) && barrier !in keys
      && barrier in j.artifacts && barrier !in j.retirements && j.artifacts[barrier].kind in {Kind.Block, NamespaceRetirement}
      && forall k :: k in keys ==> MayGo(j, k, barrier)
  {
    LiveIsIntact(j, barrier);
    hide Intact, Ancestor;
    if barrier in j.artifacts {
      forall k ensures KeyAccepted(j, k, barrier) <==> MayGo(j, k, barrier) {
        PathIsOwn(j.artifacts, k);
      }
    }
  }

  ghost predicate MayGo<K(!new), P, F>(j: Durable<K, P, F>, k: K, barrier: K) {
    && Ancestor(j.artifacts, barrier, k) && k in j.artifacts
    && j.artifacts[k].kind in {Kind.Hessian, Kind.Routed, Kind.Replay, Kind.Projection}
    && (forall o :: o in j.artifacts && o != k ==> j.artifacts[o].path != j.artifacts[k].path)
    && (if j.artifacts[k].path in j.files then j.files[j.artifacts[k].path] == j.artifacts[k].payload else k in j.retirements)
    && (k in j.retirements ==> barrier in j.artifacts && j.retirements[k] == Intent(barrier, j.artifacts[k], j.artifacts[barrier]))
  }

  lemma PathIsOwn<K(!new), P, F>(a: map<K, Record<K, P, F>>, k: K)
    ensures k in a ==> (PathKeys(a, a[k].path) == {k} <==> forall o :: o in a && o != k ==> a[o].path != a[k].path)
  {
    if k in a {
      assert k in PathKeys(a, a[k].path);
      if forall o :: o in a && o != k ==> a[o].path != a[k].path {
        assert PathKeys(a, a[k].path) == {k};
      }
      forall o | PathKeys(a, a[k].path) == {k} && o in a && o != k ensures a[o].path != a[k].path {
        assert o !in PathKeys(a, a[k].path);
      }
    }
  }

  function PathsOf<K(!new), P, F>(a: map<K, Record<K, P, F>>, keys: seq<K>): (s: seq<P>)
    requires forall k :: k in keys ==> k in a
    ensures |s| == |keys| && forall i :: 0 <= i < |s| ==> s[i] == a[keys[i]].path
  {
    seq(|keys|, i requires 0 <= i < |keys| => assert keys[i] in keys; a[keys[i]].path)
  }

  function Intents<K(!new), P, F>(a: map<K, Record<K, P, F>>, keys: seq<K>, barrier: K): map<K, Intent<K, P, F>>
    requires barrier in a && forall k :: k in keys ==> k in a
  {
    map k | k in keys :: Intent(barrier, a[k], a[barrier])
  }

  /** After the intents are committed and the first `m` payloads are unlinked. */
  ghost function RetiredTo<K(!new), P, F>(j: Durable<K, P, F>, keys: seq<K>, barrier: K, m: nat): Durable<K, P, F>
    requires RetireAccepts(j, keys, barrier) && m <= |keys|
  {
    var gone := PathsOf(j.artifacts, keys)[..m];
    Durable(j.artifacts,
            j.retirements + Intents(j.artifacts, keys, barrier),
            j.files - (set p | p in gone))
  }

  lemma AcceptedKeysAreCommitted<K(!new), P, F>(j: Durable<K, P, F>, keys: seq<K>, barrier: K)
    requires RetireAccepts(j, keys, barrier)
    ensures barrier in j.artifacts && forall k :: k in keys ==> k in j.artifacts
  {
    assert forall k :: k in keys ==> KeyAccepted(j, k, barrier);
  }

  /** What a retirement that dies may leave behind. */
  ghost predicate Interrupted<K(!new), P, F>(before: Durable<K, P, F>, keys: seq<K>, barrier: K, after: Durable<K, P, F>)
    requires RetireAccepts(before, keys, barrier)
  {
    after == before || exists m :: 0 <= m <= |keys| && after == RetiredTo(before, keys, barrier, m)
  }

  ghost function Retired<K(!new), P, F>(j: Durable<K, P, F>, keys: seq<K>, barrier: K): Durable<K, P, F>
    requires RetireAccepts(j, keys, barrier)
  {
    RetiredTo(j, keys, barrier, |keys|)
  }

  /** These keys are retired for the barrier and their payloads gone; no record changes, and nothing else is
      retired or gone. */
  ghost predicate RetiredExactly<K(!new), P, F>(j: Durable<K, P, F>, n: Durable<K, P, F>, keys: seq<K>, barrier: K) {
    && n.artifacts == j.artifacts && barrier in j.artifacts
    && (forall k :: k in keys ==> k in j.artifacts && j.artifacts[k].path !in n.files)
    && (forall k :: k in keys ==> k in n.retirements && n.retirements[k] == Intent(barrier, j.artifacts[k], j.artifacts[barrier]))
    && (forall k :: k !in keys ==> (k in n.retirements <==> k in j.retirements) && (k in j.retirements ==> n.retirements[k] == j.retirements[k]))
    && (forall p :: p in n.files ==> p in j.files && n.files[p] == j.files[p])
    && (forall p :: p in j.files && p !in n.files ==> exists k :: k in keys && k in j.artifacts && j.artifacts[k].path == p)
  }

  lemma RetiringIsExact<K(!new), P, F>(j: Durable<K, P, F>, keys: seq<K>, barrier: K)
    requires RetireAccepts(j, keys, barrier)
    ensures RetiredExactly(j, Retired(j, keys, barrier), keys, barrier)
  {
    AcceptedKeysAreCommitted(j, keys, barrier);
    hide RetireAccepts, PathsOf;
    PathsAre(j.artifacts, keys);
    var paths := PathsOf(j.artifacts, keys);
    assert paths[..|keys|] == paths;
  }

  lemma PathsAre<K(!new), P, F>(a: map<K, Record<K, P, F>>, keys: seq<K>)
    requires forall k :: k in keys ==> k in a
    ensures |PathsOf(a, keys)| == |keys|
    ensures forall p :: p in PathsOf(a, keys) <==> exists k :: k in keys && a[k].path == p
  {
    var paths := PathsOf(a, keys);
    forall k | k in keys ensures a[k].path in paths {
      var i :| 0 <= i < |keys| && keys[i] == k;
      assert paths[i] == a[k].path;
    }
    forall p | p in paths ensures exists k :: k in keys && a[k].path == p {
      var i :| 0 <= i < |paths| && paths[i] == p;
      assert keys[i] in keys;
    }
  }

  lemma RetiredStep<K(!new), P, F>(j: Durable<K, P, F>, keys: seq<K>, barrier: K, m: nat)
    requires RetireAccepts(j, keys, barrier) && m < |keys|
    ensures RetiredTo(j, keys, barrier, m + 1) ==
            RetiredTo(j, keys, barrier, m).(files := RetiredTo(j, keys, barrier, m).files - {PathsOf(j.artifacts, keys)[m]})
  {
    var paths := PathsOf(j.artifacts, keys);
    assert paths[..m + 1] == paths[..m] + [paths[m]];
    assert RetiredTo(j, keys, barrier, m + 1).files == RetiredTo(j, keys, barrier, m).files - {paths[m]};
  }

  /** An accepted payload path belongs to its key alone. */
  lemma AcceptedPathIsOwn<K(!new), P, F>(j: Durable<K, P, F>, keys: seq<K>, barrier: K, k: K)
    requires RetireAccepts(j, keys, barrier) && k in j.artifacts && k !in keys
    ensures j.artifacts[k].path !in PathsOf(j.artifacts, keys)
  {
    var paths := PathsOf(j.artifacts, keys);
    forall i | 0 <= i < |keys| ensures paths[i] != j.artifacts[k].path {
      assert keys[i] in keys && KeyAccepted(j, keys[i], barrier);
      assert k !in PathKeys(j.artifacts, paths[i]);
    }
  }

  lemma RetiringKeepsJournal<K(!new), P, F>(j: Durable<K, P, F>, keys: seq<K>, barrier: K, m: nat)
    requires Valid(j) && RetireAccepts(j, keys, barrier) && m <= |keys|
    ensures Valid(RetiredTo(j, keys, barrier, m))
    ensures forall k :: Live(RetiredTo(j, keys, barrier, m), k) <==> Live(j, k) && k !in keys
  {
    var n := RetiredTo(j, keys, barrier, m);
    var paths := PathsOf(j.artifacts, keys);
    forall k | Live(n, k) ensures Stored(n, k) {
      assert Live(j, k) && Stored(j, k);
      AcceptedPathIsOwn(j, keys, barrier, k);
      assert j.artifacts[k].path !in paths[..m];
    }
    forall k | k in n.retirements ensures IntentHolds(n, k) {
      if k in keys {
        assert KeyAccepted(j, k, barrier);
      } else {
        assert IntentHolds(j, k);
      }
    }
  }

  /** Dying anywhere in a retirement loses nothing: the same call is accepted again after the intents
      and any number of unlinks ... */
  lemma InterruptedRetirementIsAccepted<K(!new), P, F>(j: Durable<K, P, F>, keys: seq<K>, barrier: K, m: nat)
    requires Valid(j) && RetireAccepts(j, keys, barrier) && m <= |keys|
    ensures RetireAccepts(RetiredTo(j, keys, barrier, m), keys, barrier)
  {
    var s := RetiredTo(j, keys, barrier, m);
    RetiringKeepsJournal(j, keys, barrier, m);
    assert Live(s, barrier);
    forall key | key in keys ensures KeyAccepted(s, key, barrier) {
      assert KeyAccepted(j, key, barrier);
      assert PathKeys(s.artifacts, s.artifacts[key].path) == PathKeys(j.artifacts, j.artifacts[key].path);
    }
  }

  /** ... and carrying on from there reaches what the uninterrupted call reaches. */
  lemma InterruptedRetirementResumes<K(!new), P, F>(j: Durable<K, P, F>, keys: seq<K>, barrier: K, m: nat)
    requires RetireAccepts(j, keys, barrier) && m <= |keys|
    requires RetireAccepts(RetiredTo(j, keys, barrier, m), keys, barrier)
    ensures Retired(RetiredTo(j, keys, barrier, m), keys, barrier) == Retired(j, keys, barrier)
  {
    hide RetireAccepts;
    AcceptedKeysAreCommitted(j, keys, barrier);
    var s := RetiredTo(j, keys, barrier, m);
    var paths := PathsOf(j.artifacts, keys);
    assert PathsOf(s.artifacts, keys) == paths && paths[..|keys|] == paths;
    assert forall p :: p in paths[..m] ==> p in paths;
    assert Retired(s, keys, barrier).files == Retired(j, keys, barrier).files;
  }

  /** One unlink keeps the invariant exactly when no live record still names the path. */
  lemma UnlinkingKeepsJournal<K(!new), P, F>(j: Durable<K, P, F>, path: P)
    requires Valid(j)
    ensures Valid(j.(files := j.files - {path})) <==> forall k :: Live(j, k) ==> j.artifacts[k].path != path
  {
    var n := j.(files := j.files - {path});
    assert forall k :: Live(n, k) <==> Live(j, k);
    forall k | k in n.retirements ensures IntentHolds(n, k) {
      assert IntentHolds(j, k);
    }
    if Valid(n) {
      forall k | Live(j, k) ensures j.artifacts[k].path != path {
        assert Stored(n, k);
      }
    }
  }

  /** Why the journal has one owner. A record committed for a retiring path between the intents and the
      unlinks survives a crash, because the resumed retirement refuses the alias; but an unlink that is
      still in flight takes its payload away. */
  lemma RecordDuringRetirement<K(!new), P, F>(
    j: Durable<K, P, F>, keys: seq<K>, barrier: K, m: nat, key: K,
    other: K, kind: Kind, parents: seq<K>)
    requires Valid(j) && RetireAccepts(j, keys, barrier) && m <= |keys| && key in keys
    requires other !in j.artifacts
    requires RecordAccepts(RetiredTo(j, keys, barrier, m), other, kind, j.artifacts[key].path, parents)
    ensures var late := Recorded(RetiredTo(j, keys, barrier, m), other, kind, j.artifacts[key].path, parents);
      && Valid(late)
      && !RetireAccepts(late, keys, barrier)
      && !Valid(late.(files := late.files - {j.artifacts[key].path}))
  {
    var s, path := RetiredTo(j, keys, barrier, m), j.artifacts[key].path;
    RetiringKeepsJournal(j, keys, barrier, m);
    RecordingKeepsJournal(s, other, kind, path, parents);
    var late := Recorded(s, other, kind, path, parents);
    assert other !in keys by {
      assert forall k :: k in keys ==> KeyAccepted(j, k, barrier);
    }
    assert other != key && other !in s.retirements;
    assert Live(late, other);
    assert other in PathKeys(late.artifacts, path);
    assert PathKeys(late.artifacts, path) != {key};
    UnlinkingKeepsJournal(late, path);
  }

  // ---------- every run of the journal ----------

  /** A durable step: of a writer, of somebody who records, or of a retirement, whose intents are one step
      and whose unlinks are one step each. A crash is the absence of further steps. */
  datatype Step<K, P, F> =
    | Write(path: P, file: F)
    | Commit(key: K, kind: Kind, at: P, parents: seq<K>)
    | Intend(keys: seq<K>, barrier: K)
    | Drop(key: K)

  /** No record shares the path of a retired key. */
  ghost predicate Apart<K(!new), P, F>(j: Durable<K, P, F>) {
    forall r, k :: r in j.retirements && r in j.artifacts && k in j.artifacts && k != r ==> j.artifacts[k].path != j.artifacts[r].path
  }

  /** What a caller of `record_file` can check: no other key that was given up names the path. */
  ghost predicate Free<K(!new), P, F>(j: Durable<K, P, F>, key: K, path: P) {
    forall r :: r in j.retirements && r in j.artifacts && r != key ==> j.artifacts[r].path != path
  }

  /** The store accepts the step; payloads are not written over a live record's content, and records do
      not name a path that was given up. */
  ghost predicate Allowed<K(!new), P, F>(j: Durable<K, P, F>, s: Step<K, P, F>) {
    match s
    case Write(path, file) => forall k :: Live(j, k) && j.artifacts[k].path == path ==> j.artifacts[k].payload == file
    case Commit(key, kind, at, parents) => RecordAccepts(j, key, kind, at, parents) && Free(j, key, at)
    case Intend(keys, barrier) => RetireAccepts(j, keys, barrier)
    case Drop(key) => key in j.retirements && key in j.artifacts
  }

  ghost function After<K(!new), P, F>(j: Durable<K, P, F>, s: Step<K, P, F>): Durable<K, P, F>
    requires Allowed(j, s)
  {
    match s
    case Write(path, file) => j.(files := j.files[path := file])
    case Commit(key, kind, at, parents) => Recorded(j, key, kind, at, parents)
    case Intend(keys, barrier) => RetiredTo(j, keys, barrier, 0)
    case Drop(key) => j.(files := j.files - {j.artifacts[key].path})
  }

  ghost predicate Run<K(!new), P, F>(j: Durable<K, P, F>, steps: seq<Step<K, P, F>>, end: Durable<K, P, F>)
    decreases |steps|
  {
    if steps == [] then end == j
    else Allowed(j, steps[0]) && Run(After(j, steps[0]), steps[1..], end)
  }

  /** Records, writes, intents and unlinks each keep the journal. */
  lemma StepKeepsJournal<K(!new), P, F>(j: Durable<K, P, F>, s: Step<K, P, F>)
    requires Valid(j) && Apart(j) && Allowed(j, s)
    ensures Valid(After(j, s)) && Apart(After(j, s))
  {
    var n := After(j, s);
    match s {
      case Write(path, file) => SavingKeepsJournal(j, path, file);
      case Commit(key, kind, at, parents) => RecordingKeepsJournal(j, key, kind, at, parents);
      case Drop(key) => UnlinkingKeepsJournal(j, j.artifacts[key].path);
      case Intend(keys, barrier) =>
        RetiringKeepsJournal(j, keys, barrier, 0);
        forall r, k | r in n.retirements && r in n.artifacts && k in n.artifacts && k != r ensures n.artifacts[k].path != n.artifacts[r].path {
          if r in keys {
            assert KeyAccepted(j, r, barrier);
            assert k !in PathKeys(j.artifacts, j.artifacts[r].path);
          }
        }
    }
  }

  /** Over every run, however records, writes and the single steps of retirements interleave and wherever
      they are cut short: the invariant holds, committed records never change, retirements never go back,
      and a key that stays live keeps its exact payload. */
  lemma {:induction false} EveryRunKeepsJournal<K(!new), P, F>(j: Durable<K, P, F>, steps: seq<Step<K, P, F>>, end: Durable<K, P, F>)
    requires Valid(j) && Apart(j) && Run(j, steps, end)
    ensures Valid(end) && Apart(end)
    ensures forall k :: k in j.artifacts ==> k in end.artifacts && end.artifacts[k] == j.artifacts[k]
    ensures j.retirements.Keys <= end.retirements.Keys
    ensures forall k :: k in j.artifacts && Live(end, k) ==> Live(j, k) && Stored(end, k)
    decreases |steps|
  {
    hide RetireAccepts, Valid, Apart, Free;
    if steps != [] {
      StepKeepsJournal(j, steps[0]);
      EveryRunKeepsJournal(After(j, steps[0]), steps[1..], end);
    }
    StoredWhenLive(end);
  }

  lemma StoredWhenLive<K(!new), P, F>(j: Durable<K, P, F>)
    requires Valid(j)
    ensures forall k :: Live(j, k) ==> Stored(j, k)
  {
  }

  lemma RetiredAreCommitted<K(!new), P, F>(j: Durable<K, P, F>)
    requires Valid(j)
    ensures forall k :: k in j.retirements ==> k in j.artifacts
  {
    forall k | k in j.retirements ensures k in j.artifacts {
      assert IntentHolds(j, k);
    }
  }

  /** The condition on records is exact: a new record survives every unlink that may still come if and only
      if no key that was given up names its path. */
  lemma FreeIsExact<K(!new), P, F>(j: Durable<K, P, F>, key: K, kind: Kind, at: P, parents: seq<K>)
    requires Valid(j) && Apart(j) && RecordAccepts(j, key, kind, at, parents) && key !in j.artifacts
    ensures var n := Recorded(j, key, kind, at, parents);
      Free(j, key, at) <==> forall r :: r in n.retirements && r in n.artifacts ==> Valid(n.(files := n.files - {n.artifacts[r].path}))
  {
    var n := Recorded(j, key, kind, at, parents);
    RecordingKeepsJournal(j, key, kind, at, parents);
    RetiredAreCommitted(j);
    assert Live(n, key);
    forall r | r in n.retirements && r in n.artifacts
      ensures Valid(n.(files := n.files - {n.artifacts[r].path})) <==> j.artifacts[r].path != at
    {
      UnlinkingKeepsJournal(n, n.artifacts[r].path);
    }
  }

  function Drops<K, P, F>(keys: seq<K>): (r: seq<Step<K, P, F>>)
    ensures |r| == |keys| && forall i :: 0 <= i < |r| ==> r[i] == Drop(keys[i])
  {
    seq(|keys|, i requires 0 <= i < |keys| => Drop(keys[i]))
  }

  /** A retirement is such a run: the intents, then the unlinks in order, up to any point. */
  lemma RetirementIsARun<K(!new), P, F>(j: Durable<K, P, F>, keys: seq<K>, barrier: K, m: nat)
    requires RetireAccepts(j, keys, barrier) && m <= |keys|
    ensures Run(j, [Intend(keys, barrier)] + Drops(keys[..m]), RetiredTo(j, keys, barrier, m))
  {
    var drops: seq<Step<K, P, F>> := Drops(keys[..m]);
    assert ([Intend(keys, barrier)] + drops)[1..] == drops;
    UnlinksAreARun(j, keys, barrier, 0, m);
    assert keys[0..m] == keys[..m];
  }

  lemma {:induction false} UnlinksAreARun<K(!new), P, F>(j: Durable<K, P, F>, keys: seq<K>, barrier: K, i: nat, m: nat)
    requires RetireAccepts(j, keys, barrier) && i <= m <= |keys|
    ensures Run(RetiredTo(j, keys, barrier, i), Drops(keys[i..m]), RetiredTo(j, keys, barrier, m))
    decreases m - i
  {
    if i < m {
      RetiredStep(j, keys, barrier, i);
      AcceptedKeysAreCommitted(j, keys, barrier);
      UnlinksAreARun(j, keys, barrier, i + 1, m);
      var s: seq<Step<K, P, F>> := Drops(keys[i..m]);
      assert s[0] == Drop(keys[i]) && s[1..] == Drops(keys[i + 1..m]);
      assert keys[i] in keys;
    }
  }
}
