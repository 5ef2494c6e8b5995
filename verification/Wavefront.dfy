/** One block end to end: routed capture, quantization, propagation, and the commit of the block. */
module Wavefront {
  import opened BlockDriver
  import opened Driver
  import opened Journal
  import opened Options
  import opened Recipe
  import opened RunInvariant
  import opened RunMeaning
  import opened RunPlan

  /** A bound, uncommitted block with its input frontier committed. */
  ghost predicate Bound(c: Config, j: Store, ns: Namespace, l: nat)
    requires c.Valid()
  {
    && l < Layers(ns) && BlockComplete(ns, l) !in j.artifacts && InputInventory(ns, l) in j.artifacts
    && forall i :: 0 <= i < Width(c, ns) ==> FrontierKey(c, ns, l, i) in j.artifacts
  }

  lemma BoundSurvives(c: Config, j: Store, n: Store, ns: Namespace, l: nat)
    requires c.Valid() && Bound(c, j, ns, l) && Progress(j, n)
    ensures Bound(c, n, ns, l)
  {
  }

  /** The inputs of an uncommitted block are still there. */
  lemma InputIsLive(c: Config, j: Store, ns: Namespace, l: nat, i: nat)
    requires Good(c, j) && c.Valid() && l < Layers(ns) && BlockComplete(ns, l) !in j.artifacts && i < Width(c, ns)
    requires FrontierKey(c, ns, l, i) in j.artifacts
    ensures InRun(c, FrontierKey(c, ns, l, i)) && KindOf(FrontierKey(c, ns, l, i)) == Replay
    ensures Live(j, FrontierKey(c, ns, l, i))
    ensures StateOf(c, FrontierKey(c, ns, l, i)) == Tensors(FrontierTerm(c, ns, l, i), l)
  {
    hide FrontierTerm, Parents;
    OpenIsLive(c, j, FrontierKey(c, ns, l, i));
    FrontierState(c, ns, l, i);
  }

  lemma FrontierState(c: Config, ns: Namespace, l: nat, i: nat)
    requires c.Valid() && l <= Layers(ns) && i < Width(c, ns)
    ensures InRun(c, FrontierKey(c, ns, l, i)) && KindOf(FrontierKey(c, ns, l, i)) == Replay
    ensures StateOf(c, FrontierKey(c, ns, l, i)) == Tensors(FrontierTerm(c, ns, l, i), l)
  {
    hide FrontierTerm;
    if l == 0 && ns == Mtp {
      assert DraftPosition(c, c.draft[i]) == i;
    }
  }

  // ---------- one activation pass ----------

  /** The artifact a pass writes for batch `i`. */
  function Target(ns: Namespace, l: nat, i: nat, routed: bool): Key {
    if routed then RoutedBatch(ns, l, i) else Output(ns, l, i)
  }

  /** The second dependency of the artifacts of a pass. */
  function PassParent(ns: Namespace, l: nat, routed: bool): Key {
    if routed then InputInventory(ns, l) else PhaseComplete(ns, l, Down)
  }

  lemma TargetIsPlanned(c: Config, j: Store, ns: Namespace, l: nat, i: nat, routed: bool)
    requires c.Valid() && l < Layers(ns) && i < Width(c, ns)
    ensures var k := Target(ns, l, i, routed);
      && InRun(c, k) && KindOf(k) == (if routed then Kind.Routed else Replay)
      && StateOf(c, k) == (if routed then Tensors(FromReplay(ns, l, FrontierTerm(c, ns, l, i)), l)
                           else Tensors(Advanced(ns, l, Installed(c, ns, l), FrontierTerm(c, ns, l, i)), l + 1))
      && Parents(c, k) == [FrontierKey(c, ns, l, i), PassParent(ns, l, routed)] && Ordered(c, j, k)
      && !Closing(k)
  {
    hide Config.Valid, Installed;
  }

  /** A worker: load the input frontier, run the block, write the payload. */
  method Execute(d: Driver, block: Block, ns: Namespace, l: nat, i: nat, inputKey: Key, routed: bool) returns (o: Outcome<()>)
    requires d.Sound() && d.c.Valid() && Bound(d.c, d.View(), ns, l) && i < Width(d.c, ns)
    requires inputKey == FrontierKey(d.c, ns, l, i) && Target(ns, l, i, routed) !in d.journal.artifacts
    requires routed || block.installed == Installed(d.c, ns, l)
    modifies d.journal
    ensures !o.Raised? && (!d.journal.fallible ==> o.Done?) && d.Sound() && Progress(old(d.View()), d.View())
    ensures d.journal.artifacts == old(d.journal.artifacts)
    ensures forall k :: IsWritten(d.c, old(d.View()), k) ==> IsWritten(d.c, d.View(), k)
    ensures o.Done? ==> IsWritten(d.c, d.View(), Target(ns, l, i, routed))
  {
    ProgressComposes(d.View(), d.View(), d.View());
    hide Good, Config.Valid, Installed, FrontierKey, Bound, IsWritten, Progress, FrontierTerm;
    var term :- ReadInput(d, ns, l, i, inputKey);
    var fails := d.journal.Fails();
    if fails {
      return Stopped; // the forward pass fails or its result is not finite
    }
    WriteTarget(d, block, ns, l, i, routed, term);
    return Done(());
  }

  method ReadInput(d: Driver, ns: Namespace, l: nat, i: nat, inputKey: Key) returns (o: Outcome<Term>)
    requires d.Sound() && d.c.Valid() && Bound(d.c, d.View(), ns, l) && i < Width(d.c, ns)
    requires inputKey == FrontierKey(d.c, ns, l, i)
    ensures !o.Raised? && (!d.journal.fallible ==> o.Done?)
    ensures o.Done? ==> o.value == FrontierTerm(d.c, ns, l, i)
  {
    InputIsLive(d.c, d.View(), ns, l, i);
    hide Good, Config.Valid, StateOf, InRun, FrontierTerm, FrontierKey, IsTemporary, Bound;
    var state :- d.Load(inputKey, Replay);
    if state.None? {
      return Raised(MissingArtifact);
    }
    if state.value.nextLayer != l {
      return Raised(WrongLayer);
    }
    return Done(state.value.term);
  }

  method WriteTarget(d: Driver, block: Block, ns: Namespace, l: nat, i: nat, routed: bool, term: Term)
    requires d.Sound() && d.c.Valid() && l < Layers(ns) && i < Width(d.c, ns)
    requires Target(ns, l, i, routed) !in d.journal.artifacts && term == FrontierTerm(d.c, ns, l, i)
    requires routed || block.installed == Installed(d.c, ns, l)
    modifies d.journal
    ensures d.Sound() && Progress(old(d.View()), d.View())
    ensures d.journal.artifacts == old(d.journal.artifacts)
    ensures forall k :: IsWritten(d.c, old(d.View()), k) ==> IsWritten(d.c, d.View(), k)
    ensures IsWritten(d.c, d.View(), Target(ns, l, i, routed))
  {
    hide Good, Config.Valid, StateOf, InRun, Ordered, FrontierTerm, Installed, IsWritten, Progress, KindOf, Parents, IsTemporary;
    TargetIsPlanned(d.c, d.View(), ns, l, i, routed);
    SavingWrites(d.c, d.View(), Target(ns, l, i, routed));
    var result := if routed then Tensors(FromReplay(ns, l, term), l) else Tensors(Advanced(ns, l, block.installed, term), l + 1);
    d.Save(Target(ns, l, i, routed), File(if routed then Kind.Routed else Replay, Target(ns, l, i, routed), result));
  }

  /** Writing a planned payload without a record. */
  lemma SavingWrites(c: Config, j: Store, key: Key)
    requires c.Valid() && InRun(c, key) && key !in j.artifacts
    ensures var n := j.(files := j.files[key := FileOf(c, key)]);
      Progress(j, n) && IsWritten(c, n, key) && forall k :: IsWritten(c, j, k) ==> IsWritten(c, n, k)
  {
    hide InRun, FileOf, Config.Valid;
  }

  /** The planned payload of a key is on disk. */
  ghost predicate IsWritten(c: Config, j: Store, k: Key)
    requires c.Valid()
  {
    InRun(c, k) && k in j.files && j.files[k] == FileOf(c, k)
  }

  /** Check one batch of a window: whether it has to be submitted. */
  method StartBatch(d: Driver, ns: Namespace, l: nat, i: nat, inputKey: Key, routed: bool) returns (o: Outcome<bool>)
    requires d.Sound() && d.c.Valid() && Bound(d.c, d.View(), ns, l) && i < Width(d.c, ns)
    requires inputKey == FrontierKey(d.c, ns, l, i)
    ensures !o.Raised? && (!d.journal.fallible ==> o.Done?)
    ensures o.Done? ==> (o.value <==> Target(ns, l, i, routed) !in d.journal.artifacts)
  {
    hide Good, Config.Valid, Bound, Installed, FrontierKey;
    var key := Target(ns, l, i, routed);
    var existing := d.journal.Get(key, false);
    if existing.value.Some? {
      o := CheckExisting(d, ns, l, i, routed, existing.value.value);
      return;
    }
    o := CheckInput(d, ns, l, i, inputKey);
  }

  method CheckExisting(d: Driver, ns: Namespace, l: nat, i: nat, routed: bool, record: Entry) returns (o: Outcome<bool>)
    requires d.Sound() && d.c.Valid() && Bound(d.c, d.View(), ns, l) && i < Width(d.c, ns)
    requires Target(ns, l, i, routed) in d.journal.artifacts && record == d.journal.artifacts[Target(ns, l, i, routed)]
    ensures !o.Raised? && (!d.journal.fallible ==> o.Done?) && (o.Done? ==> !o.value)
  {
    var key := Target(ns, l, i, routed);
    TargetIsPlanned(d.c, d.View(), ns, l, i, routed);
    LoadFacts(d.c, d.View(), key);
    TargetIsKept(d.c, d.View(), ns, l, i, routed);
    hide Good, Config.Valid, Bound, Installed, FrontierKey, InRun, IsTemporary, StateOf;
    if record.kind != (if routed then Kind.Routed else Replay) {
      return Raised(WrongKind);
    }
    if !routed {
      var state :- d.Load(key, Replay);
      if state.None? {
        return Raised(MissingArtifact);
      }
      if state.value.nextLayer != l + 1 {
        return Raised(WrongLayer);
      }
    }
    return Done(false);
  }

  /** While a block is uncommitted its outputs cannot have been consumed. */
  lemma TargetIsKept(c: Config, j: Store, ns: Namespace, l: nat, i: nat, routed: bool)
    requires Good(c, j) && c.Valid() && Bound(c, j, ns, l) && i < Width(c, ns) && Target(ns, l, i, routed) in j.artifacts
    ensures Live(j, Target(ns, l, i, routed))
  {
    hide StateOf, Parents, FrontierKey, Good;
    if !routed {
      LaterBarrierIsMissing(c, j, ns, l);
    }
    KeptIsLive(c, j, Target(ns, l, i, routed));
  }

  lemma LaterBarrierIsMissing(c: Config, j: Store, ns: Namespace, l: nat)
    requires Good(c, j) && c.Valid() && l < Layers(ns) && BlockComplete(ns, l) !in j.artifacts
    ensures BarrierOf(Output(ns, l, 0)) !in j.artifacts
  {
    hide StateOf, FrontierKey, Good, InRun, FileOf, Swept;
    if BarrierOf(Output(ns, l, 0)) in j.artifacts {
      if l < Last(ns) {
        BlocksArePrefix(c, j, ns, l + 1);
      } else {
        CommittedIsPlanned(c, j, RetirementMarker(ns));
        CommittedIsPlanned(c, j, NamespaceComplete(ns));
      }
    }
  }

  method CheckInput(d: Driver, ns: Namespace, l: nat, i: nat, inputKey: Key) returns (o: Outcome<bool>)
    requires d.Sound() && d.c.Valid() && Bound(d.c, d.View(), ns, l) && i < Width(d.c, ns)
    requires inputKey == FrontierKey(d.c, ns, l, i)
    ensures o == Done(true)
  {
    InputIsLive(d.c, d.View(), ns, l, i);
    LoadFacts(d.c, d.View(), inputKey);
    hide Good, Config.Valid, Installed, FrontierKey, StateOf;
    var record := d.journal.Get(inputKey, false);
    if record.value.None? || record.value.value.kind != Replay {
      return Raised(MissingArtifact);
    }
    return Done(true);
  }

  // ---------- windows ----------

  /** Every batch below `n` of a pass is committed. */
  ghost predicate Passed(j: Store, ns: Namespace, l: nat, routed: bool, n: nat) {
    forall i: nat :: i < n ==> Target(ns, l, i, routed) in j.artifacts
  }

  /** The jobs of a window in the order of submission, those not yet done, and those that failed. */
  datatype Pool = Pool(pending: seq<nat>, left: set<nat>, failed: set<nat>)

  /** Every batch of the window is committed or was submitted once; a submitted one is not committed before
      its worker is done, and what a worker is done with is written. */
  ghost predicate Window(c: Config, j: Store, ns: Namespace, l: nat, routed: bool, from: nat, to: nat, pool: Pool)
    requires c.Valid()
  {
    && (forall i: nat :: from <= i < to ==> Target(ns, l, i, routed) in j.artifacts || i in pool.pending)
    && Distinct(pool.pending) && (forall i :: i in pool.pending ==> from <= i < to && i < Width(c, ns))
    && (forall i :: i in pool.left ==> i in pool.pending && Target(ns, l, i, routed) !in j.artifacts)
    && (forall i :: i in pool.pending && i !in pool.left && i !in pool.failed ==> IsWritten(c, j, Target(ns, l, i, routed)))
  }

  function Submitted(pool: Pool, i: nat): Pool {
    pool.(pending := pool.pending + [i], left := pool.left + {i})
  }

  lemma Submits(c: Config, j: Store, ns: Namespace, l: nat, routed: bool, from: nat, i: nat, pool: Pool)
    requires c.Valid() && Window(c, j, ns, l, routed, from, i, pool) && from <= i < Width(c, ns)
    ensures Target(ns, l, i, routed) !in j.artifacts ==> Window(c, j, ns, l, routed, from, i + 1, Submitted(pool, i))
    ensures Target(ns, l, i, routed) in j.artifacts ==> Window(c, j, ns, l, routed, from, i + 1, pool)
  {
    hide Target, IsWritten, Config.Valid;
    assert i !in pool.pending;
  }

  /** A job that ended: its payload is written, or it failed. */
  lemma JobEnds(c: Config, j: Store, n: Store, ns: Namespace, l: nat, routed: bool, from: nat, to: nat, pool: Pool, i: nat)
    requires c.Valid() && Window(c, j, ns, l, routed, from, to, pool) && i in pool.left
    requires n.artifacts == j.artifacts && forall k :: IsWritten(c, j, k) ==> IsWritten(c, n, k)
    ensures Window(c, n, ns, l, routed, from, to, pool.(left := pool.left - {i}, failed := pool.failed + {i}))
    ensures IsWritten(c, n, Target(ns, l, i, routed)) ==> Window(c, n, ns, l, routed, from, to, pool.(left := pool.left - {i}))
  {
    hide Target, IsWritten, Config.Valid;
  }

  /** One worker takes one of the jobs that are left. */
  method Work(d: Driver, blocks: seq<Block>, ns: Namespace, l: nat, inputKeys: seq<Key>, routed: bool,
      ghost from: nat, to: nat, pool: Pool, i: nat) returns (o: Outcome<Pool>)
    requires d.Sound() && d.c.Valid() && Bound(d.c, d.View(), ns, l) && blocks != [] && inputKeys == FrontierKeys(d.c, ns, l) && to <= |inputKeys|
    requires routed || forall b :: b in blocks ==> b.installed == Installed(d.c, ns, l)
    requires Window(d.c, d.View(), ns, l, routed, from, to, pool) && i in pool.left
    modifies d.journal
    ensures !o.Raised? && (!d.journal.fallible ==> o.Done?) && d.Sound() && Progress(old(d.View()), d.View())
    ensures d.journal.artifacts == old(d.journal.artifacts)
    ensures o.Done? ==> Window(d.c, d.View(), ns, l, routed, from, to, o.value) && o.value.left == pool.left - {i} && o.value.pending == pool.pending
    ensures o.Done? ==> pool.failed <= o.value.failed && (!d.journal.fallible ==> o.value.failed == pool.failed)
  {
    hide Good, Config.Valid, Installed, FrontierKey, IsWritten, Progress, Bound, Target;
    ghost var before := d.View();
    assert blocks[i % |blocks|] in blocks;
    assert i in pool.pending;
    var done := Execute(d, blocks[i % |blocks|], ns, l, i, inputKeys[i], routed);
    JobEnds(d.c, before, d.View(), ns, l, routed, from, to, pool, i);
    if done.Done? {
      return Done(pool.(left := pool.left - {i}));
    }
    if * {
      return Stopped; // the process died
    }
    return Done(pool.(left := pool.left - {i}, failed := pool.failed + {i}));
  }

  /** What the workers get done, in whatever order, while the owner does something else. */
  method Workers(d: Driver, blocks: seq<Block>, ns: Namespace, l: nat, inputKeys: seq<Key>, routed: bool,
      ghost from: nat, to: nat, pool: Pool) returns (o: Outcome<Pool>)
    requires d.Sound() && d.c.Valid() && Bound(d.c, d.View(), ns, l) && blocks != [] && inputKeys == FrontierKeys(d.c, ns, l) && to <= |inputKeys|
    requires routed || forall b :: b in blocks ==> b.installed == Installed(d.c, ns, l)
    requires Window(d.c, d.View(), ns, l, routed, from, to, pool)
    modifies d.journal
    ensures !o.Raised? && (!d.journal.fallible ==> o.Done?) && d.Sound() && Progress(old(d.View()), d.View())
    ensures d.journal.artifacts == old(d.journal.artifacts)
    ensures o.Done? ==> Window(d.c, d.View(), ns, l, routed, from, to, o.value) && o.value.left <= pool.left && o.value.pending == pool.pending
    ensures o.Done? && !d.journal.fallible ==> o.value.failed == pool.failed
  {
    hide Good, Config.Valid, Installed, FrontierKey, IsWritten, Progress, Bound, Target, Window;
    ghost var begin := d.View();
    ProgressComposes(begin, begin, begin);
    var now := pool;
    while now.left != {}
      invariant d.Sound() && Progress(begin, d.View()) && d.journal.artifacts == begin.artifacts && Bound(d.c, d.View(), ns, l)
      invariant Window(d.c, d.View(), ns, l, routed, from, to, now) && now.left <= pool.left && now.pending == pool.pending
      invariant !d.journal.fallible ==> now.failed == pool.failed
      decreases |now.left|
    {
      if * {
        break;
      }
      var i :| i in now.left;
      ghost var middle := d.View();
      var worked := Work(d, blocks, ns, l, inputKeys, routed, from, to, now, i);
      ProgressComposes(begin, middle, d.View());
      if !worked.Done? {
        return Stopped;
      }
      BoundSurvives(d.c, middle, d.View(), ns, l);
      now := worked.value;
    }
    return Done(now);
  }

  lemma EmptyWindow(c: Config, j: Store, ns: Namespace, l: nat, routed: bool, from: nat)
    requires c.Valid()
    ensures Window(c, j, ns, l, routed, from, from, Pool([], {}, {}))
  {
  }

  /** Submit one batch unless it is committed; workers already run. */
  method Submit(d: Driver, blocks: seq<Block>, ns: Namespace, l: nat, inputKeys: seq<Key>, routed: bool,
      ghost from: nat, i: nat, pool: Pool) returns (o: Outcome<Pool>)
    requires d.Sound() && d.c.Valid() && Bound(d.c, d.View(), ns, l) && blocks != []
    requires inputKeys == FrontierKeys(d.c, ns, l) && from <= i < |inputKeys|
    requires routed || forall b :: b in blocks ==> b.installed == Installed(d.c, ns, l)
    requires Window(d.c, d.View(), ns, l, routed, from, i, pool) && (!d.journal.fallible ==> pool.failed == {})
    modifies d.journal
    ensures !o.Raised? && (!d.journal.fallible ==> o.Done?) && d.Sound() && Progress(old(d.View()), d.View())
    ensures d.journal.artifacts == old(d.journal.artifacts)
    ensures o.Done? ==> Window(d.c, d.View(), ns, l, routed, from, i + 1, o.value)
    ensures o.Done? && !d.journal.fallible ==> o.value.failed == {}
  {
    hide Good, Config.Valid, Installed, FrontierKey, IsWritten, Progress, Bound, Target, Window;
    ProgressComposes(d.View(), d.View(), d.View());
    var started := StartBatch(d, ns, l, i, inputKeys[i], routed);
    if !started.Done? {
      return Stopped;
    }
    Submits(d.c, d.View(), ns, l, routed, from, i, pool);
    var busy := if started.value then Submitted(pool, i) else pool;
    o := Workers(d, blocks, ns, l, inputKeys, routed, from, i + 1, busy);
  }

  /** Submit the batches of one window, at most one per block. */
  method StartWindow(d: Driver, blocks: seq<Block>, ns: Namespace, l: nat, inputKeys: seq<Key>, routed: bool, from: nat, to: nat)
    returns (o: Outcome<Pool>)
    requires d.Sound() && d.c.Valid() && Bound(d.c, d.View(), ns, l) && blocks != []
    requires inputKeys == FrontierKeys(d.c, ns, l) && from <= to <= |inputKeys|
    requires routed || forall b :: b in blocks ==> b.installed == Installed(d.c, ns, l)
    modifies d.journal
    ensures !o.Raised? && (!d.journal.fallible ==> o.Done?) && d.Sound() && Progress(old(d.View()), d.View())
    ensures d.journal.artifacts == old(d.journal.artifacts)
    ensures o.Done? ==> Window(d.c, d.View(), ns, l, routed, from, to, o.value)
    ensures o.Done? && !d.journal.fallible ==> o.value.failed == {}
  {
    hide Good, Config.Valid, Installed, FrontierKey, IsWritten, Progress, Bound, Target, Window;
    EmptyWindow(d.c, d.View(), ns, l, routed, from);
    ghost var begin := d.View();
    ProgressComposes(begin, begin, begin);
    var pool := Pool([], {}, {});
    for i := from to to
      invariant d.Sound() && Progress(begin, d.View()) && d.journal.artifacts == begin.artifacts
      invariant Bound(d.c, d.View(), ns, l)
      invariant Window(d.c, d.View(), ns, l, routed, from, i, pool) && (!d.journal.fallible ==> pool.failed == {})
    {
      ghost var middle := d.View();
      var submitted := Submit(d, blocks, ns, l, inputKeys, routed, from, i, pool);
      ProgressComposes(begin, middle, d.View());
      if !submitted.Done? {
        return Stopped;
      }
      BoundSurvives(d.c, middle, d.View(), ns, l);
      pool := submitted.value;
    }
    return Done(pool);
  }

  lemma TargetIsReady(c: Config, j: Store, ns: Namespace, l: nat, i: nat, routed: bool)
    requires Good(c, j) && c.Valid() && Bound(c, j, ns, l) && i < Width(c, ns) && PassParent(ns, l, routed) in j.artifacts
    requires IsWritten(c, j, Target(ns, l, i, routed))
    ensures var k := Target(ns, l, i, routed);
      && InRun(c, k) && KindOf(k) == (if routed then Kind.Routed else Replay) && !Closing(k)
      && k in j.files && j.files[k] == FileOf(c, k) && (k in j.artifacts ==> Live(j, k)) && Ordered(c, j, k)
      && Parents(c, k) == [FrontierKey(c, ns, l, i), PassParent(ns, l, routed)]
      && forall p :: p in Parents(c, k) ==> p in j.artifacts
  {
    hide Good, Config.Valid, StateOf, FileOf, Ordered, FrontierKey, PassParent;
    TargetIsPlanned(c, j, ns, l, i, routed);
    if Target(ns, l, i, routed) in j.artifacts {
      TargetIsKept(c, j, ns, l, i, routed);
    }
  }

  /** Commit one written batch with its dependencies. */
  method CommitBatch(d: Driver, ns: Namespace, l: nat, i: nat, inputKey: Key, parent: Key, routed: bool) returns (o: Outcome<()>)
    requires d.Sound() && d.c.Valid() && Bound(d.c, d.View(), ns, l) && i < Width(d.c, ns)
    requires inputKey == FrontierKey(d.c, ns, l, i) && parent == PassParent(ns, l, routed) && parent in d.journal.artifacts
    requires IsWritten(d.c, d.View(), Target(ns, l, i, routed))
    modifies d.journal
    ensures !o.Raised? && (!d.journal.fallible ==> o.Done?) && d.Sound() && Progress(old(d.View()), d.View())
    ensures d.journal.files == old(d.journal.files) && d.journal.artifacts.Keys <= old(d.journal.artifacts.Keys) + {Target(ns, l, i, routed)}
    ensures o.Done? ==> Target(ns, l, i, routed) in d.journal.artifacts
  {
    hide Good, Config.Valid, StateOf, FileOf, InRun, Ordered, Parents, FrontierKey, Bound, PassParent;
    TargetIsReady(d.c, d.View(), ns, l, i, routed);
    o := d.Record(Target(ns, l, i, routed), if routed then Kind.Routed else Replay, [inputKey, parent]);
  }

  /** `future.result()`: the workers go on until this batch is done; a failure ends the pass once the pool is
      drained. */
  method Await(d: Driver, blocks: seq<Block>, ns: Namespace, l: nat, inputKeys: seq<Key>, routed: bool,
      ghost from: nat, to: nat, pool: Pool, i: nat) returns (o: Outcome<Pool>)
    requires d.Sound() && d.c.Valid() && Bound(d.c, d.View(), ns, l) && blocks != [] && inputKeys == FrontierKeys(d.c, ns, l) && to <= |inputKeys|
    requires routed || forall b :: b in blocks ==> b.installed == Installed(d.c, ns, l)
    requires Window(d.c, d.View(), ns, l, routed, from, to, pool) && i in pool.pending && (!d.journal.fallible ==> pool.failed == {})
    modifies d.journal
    ensures !o.Raised? && (!d.journal.fallible ==> o.Done?) && d.Sound() && Progress(old(d.View()), d.View())
    ensures d.journal.artifacts == old(d.journal.artifacts)
    ensures o.Done? ==> Window(d.c, d.View(), ns, l, routed, from, to, o.value) && o.value.pending == pool.pending
    ensures o.Done? ==> i !in o.value.left && i !in o.value.failed && (!d.journal.fallible ==> o.value.failed == {})
  {
    hide Good, Config.Valid, Installed, FrontierKey, IsWritten, Progress, Bound, Target, Window;
    ghost var begin := d.View();
    o := Workers(d, blocks, ns, l, inputKeys, routed, from, to, pool);
    if !o.Done? {
      return;
    }
    ghost var middle := d.View();
    ProgressComposes(begin, middle, middle);
    BoundSurvives(d.c, begin, middle, ns, l);
    if i in o.value.left {
      o := Work(d, blocks, ns, l, inputKeys, routed, from, to, o.value, i);
      ProgressComposes(begin, middle, d.View());
      if !o.Done? {
        return;
      }
      BoundSurvives(d.c, middle, d.View(), ns, l);
    }
    if i in o.value.failed {
      ghost var last := d.View();
      var drained := Workers(d, blocks, ns, l, inputKeys, routed, from, to, o.value);
      ProgressComposes(begin, last, d.View());
      return Stopped;
    }
  }

  lemma WrittenWhenDone(c: Config, j: Store, ns: Namespace, l: nat, routed: bool, from: nat, to: nat, pool: Pool, i: nat)
    requires c.Valid() && Window(c, j, ns, l, routed, from, to, pool) && i in pool.pending && i !in pool.left && i !in pool.failed
    ensures from <= i < to && i < Width(c, ns) && IsWritten(c, j, Target(ns, l, i, routed))
  {
    hide Target, IsWritten, Config.Valid;
  }

  /** Committing a finished batch leaves the other jobs alone. */
  lemma CommitJoins(c: Config, j: Store, n: Store, ns: Namespace, l: nat, routed: bool, from: nat, to: nat, pool: Pool, i: nat)
    requires c.Valid() && Window(c, j, ns, l, routed, from, to, pool) && i in pool.pending && i !in pool.left
    requires n.files == j.files && j.artifacts.Keys <= n.artifacts.Keys <= j.artifacts.Keys + {Target(ns, l, i, routed)}
    ensures Window(c, n, ns, l, routed, from, to, pool)
  {
    hide Config.Valid, InRun, FileOf;
  }

  /** Commit the batches of a window in the order of submission. */
  method CommitWindow(d: Driver, blocks: seq<Block>, ns: Namespace, l: nat, inputKeys: seq<Key>, parent: Key, routed: bool,
      from: nat, to: nat, pool: Pool) returns (o: Outcome<()>)
    requires d.Sound() && d.c.Valid() && Bound(d.c, d.View(), ns, l) && blocks != []
    requires inputKeys == FrontierKeys(d.c, ns, l) && parent == PassParent(ns, l, routed) && parent in d.journal.artifacts
    requires routed || forall b :: b in blocks ==> b.installed == Installed(d.c, ns, l)
    requires from <= to <= |inputKeys| && Window(d.c, d.View(), ns, l, routed, from, to, pool) && Passed(d.View(), ns, l, routed, from)
    requires !d.journal.fallible ==> pool.failed == {}
    modifies d.journal
    ensures !o.Raised? && (!d.journal.fallible ==> o.Done?) && d.Sound() && Progress(old(d.View()), d.View())
    ensures o.Done? ==> Passed(d.View(), ns, l, routed, to)
  {
    hide Good, Config.Valid, FrontierKey, Progress, Bound, Target, PassParent, Installed, Window, IsWritten;
    ghost var begin := d.View();
    ProgressComposes(begin, begin, begin);
    var now := pool;
    for n := 0 to |pool.pending|
      invariant d.Sound() && Progress(begin, d.View()) && Bound(d.c, d.View(), ns, l)
      invariant parent in d.journal.artifacts && begin.artifacts.Keys <= d.journal.artifacts.Keys
      invariant Window(d.c, d.View(), ns, l, routed, from, to, now) && now.pending == pool.pending && (!d.journal.fallible ==> now.failed == {})
      invariant forall m :: 0 <= m < n ==> Target(ns, l, pool.pending[m], routed) in d.journal.artifacts
    {
      ghost var first := d.View();
      assert pool.pending[n] in now.pending;
      var awaited := Await(d, blocks, ns, l, inputKeys, routed, from, to, now, pool.pending[n]);
      ghost var second := d.View();
      ProgressComposes(begin, first, second);
      if !awaited.Done? {
        return Stopped;
      }
      now := awaited.value;
      BoundSurvives(d.c, first, second, ns, l);
      WrittenWhenDone(d.c, second, ns, l, routed, from, to, now, pool.pending[n]);
      o := CommitBatch(d, ns, l, pool.pending[n], inputKeys[pool.pending[n]], parent, routed);
      ProgressComposes(begin, second, d.View());
      if !o.Done? {
        return;
      }
      ProgressKeeps(second, d.View());
      BoundSurvives(d.c, second, d.View(), ns, l);
      CommitJoins(d.c, second, d.View(), ns, l, routed, from, to, now, pool.pending[n]);
    }
    WindowIsPassed(d.c, d.View(), ns, l, routed, from, to, now);
    return Done(());
  }

  lemma WindowIsPassed(c: Config, j: Store, ns: Namespace, l: nat, routed: bool, from: nat, to: nat, pool: Pool)
    requires c.Valid() && Window(c, j, ns, l, routed, from, to, pool)
    requires forall m :: 0 <= m < |pool.pending| ==> Target(ns, l, pool.pending[m], routed) in j.artifacts
    ensures Passed(j, ns, l, routed, from) ==> Passed(j, ns, l, routed, to)
  {
    hide Target, IsWritten, Config.Valid;
  }

  /** `_activate`: one pass over the inputs in windows of original ordinals. Within a window the payloads
      appear in any order and any of the jobs may fail. */
  method Activate(d: Driver, blocks: seq<Block>, ns: Namespace, l: nat, inputKeys: seq<Key>, parent: Key, routed: bool) returns (o: Outcome<()>)
    requires d.Sound() && d.c.Valid() && Bound(d.c, d.View(), ns, l) && blocks != []
    requires inputKeys == FrontierKeys(d.c, ns, l) && parent == PassParent(ns, l, routed) && parent in d.journal.artifacts
    requires routed || forall b :: b in blocks ==> b.installed == Installed(d.c, ns, l)
    modifies d.journal
    ensures !o.Raised? && (!d.journal.fallible ==> o.Done?) && d.Sound() && Progress(old(d.View()), d.View())
    ensures o.Done? ==> Passed(d.View(), ns, l, routed, Width(d.c, ns))
    ensures o.Done? ==> forall i: nat :: i < |inputKeys| ==>
      if routed then RoutedMeans(d.journal.artifacts, ns, l, i) else OutputMeans(d.journal.artifacts, ns, l, i)
  {
    hide Good, Config.Valid, FrontierKey, Progress, Bound, Target, PassParent, Installed, Window, RoutedMeans, OutputMeans;
    ghost var begin := d.View();
    ProgressComposes(begin, begin, begin);
    var offset := 0;
    while offset < |inputKeys|
      invariant offset <= |inputKeys| && d.Sound() && Progress(begin, d.View()) && Bound(d.c, d.View(), ns, l)
      invariant parent in d.journal.artifacts && Passed(d.View(), ns, l, routed, offset)
    {
      var to := if offset + |blocks| < |inputKeys| then offset + |blocks| else |inputKeys|;
      ghost var first := d.View();
      var window := StartWindow(d, blocks, ns, l, inputKeys, routed, offset, to);
      ghost var second := d.View();
      ProgressComposes(begin, first, second);
      if !window.Done? {
        return Stopped;
      }
      BoundSurvives(d.c, first, second, ns, l);
      o := CommitWindow(d, blocks, ns, l, inputKeys, parent, routed, offset, to, window.value);
      ProgressComposes(begin, second, d.View());
      if !o.Done? {
        return;
      }
      ProgressKeeps(second, d.View());
      BoundSurvives(d.c, second, d.View(), ns, l);
      offset := to;
    }
    PassMeans(d.c, d.View(), ns, l, routed);
    return Done(());
  }

  /** What a pass leaves for each batch. */
  lemma PassMeans(c: Config, j: Store, ns: Namespace, l: nat, routed: bool)
    requires Good(c, j) && c.Valid() && Passed(j, ns, l, routed, Width(c, ns))
    ensures forall i: nat :: i < Width(c, ns) ==> if routed then RoutedMeans(j.artifacts, ns, l, i) else OutputMeans(j.artifacts, ns, l, i)
  {
    hide Good, RoutedMeans, OutputMeans, Config.Valid;
    forall i: nat | i < Width(c, ns)
      ensures if routed then RoutedMeans(j.artifacts, ns, l, i) else OutputMeans(j.artifacts, ns, l, i)
    {
      assert Target(ns, l, i, routed) in j.artifacts;
      if routed {
        RoutedsMean(c, j, ns, l, i);
      } else {
        OutputsMean(c, j, ns, l, i);
      }
    }
  }

  // ---------- the block ----------

  /** A block may be processed: its inputs are committed and its predecessor is swept. */
  ghost predicate Ready(c: Config, j: Store, ns: Namespace, l: nat)
    requires c.Valid()
  {
    && l < Layers(ns) && Ordered(c, j, InputInventory(ns, l))
    && (BlockComplete(ns, l) in j.artifacts ==> BarrierOf(Output(ns, l, 0)) !in j.artifacts)
    && forall i :: 0 <= i < Width(c, ns) ==> FrontierKey(c, ns, l, i) in j.artifacts
  }

  method BindInputs(d: Driver, ns: Namespace, l: nat, inputKeys: seq<Key>, devices: nat) returns (o: Outcome<()>)
    requires d.Sound() && d.c.Valid() && Ready(d.c, d.View(), ns, l)
    requires inputKeys == FrontierKeys(d.c, ns, l) && devices == d.c.replicas
    modifies d.journal
    ensures !o.Raised? && (!d.journal.fallible ==> o.Done?) && d.Sound() && Progress(old(d.View()), d.View())
    ensures o.Done? ==> InputInventory(ns, l) in d.journal.artifacts
  {
    hide Good, Config.Valid, Ordered, FrontierKey;
    var inventory := KeyList(inputKeys, devices);
    var previous :- d.Load(InputInventory(ns, l), Kind.Inventory);
    if previous.None? {
      o := d.Publish(InputInventory(ns, l), Kind.Inventory, inventory, inputKeys);
      return;
    } else if previous.value != inventory {
      return Raised(InventoryChanged);
    }
    return Done(());
  }

  /** `_input`: a committed frontier of the expected layer. */
  method CheckOutputs(d: Driver, ns: Namespace, l: nat, keys: seq<Key>) returns (o: Outcome<()>)
    requires d.Sound() && d.c.Valid() && BlockComplete(ns, l) in d.journal.artifacts && BarrierOf(Output(ns, l, 0)) !in d.journal.artifacts
    requires keys == FrontierKeys(d.c, ns, l + 1)
    ensures !o.Raised? && (!d.journal.fallible ==> o.Done?)
  {
    hide Good, Config.Valid;
    for i := 0 to |keys| {
      OutputIsLive(d.c, d.View(), ns, l, i);
      hide InRun, StateOf, FrontierTerm, IsTemporary;
      var state :- d.Load(keys[i], Replay);
      if state.None? {
        return Raised(MissingArtifact);
      }
      if state.value.nextLayer != l + 1 {
        return Raised(WrongLayer);
      }
    }
    return Done(());
  }

  /** The outputs of a completed block, until the next barrier. */
  lemma OutputIsLive(c: Config, j: Store, ns: Namespace, l: nat, i: nat)
    requires Good(c, j) && BlockComplete(ns, l) in j.artifacts && BarrierOf(Output(ns, l, 0)) !in j.artifacts && i < Width(c, ns)
    ensures c.Valid() && l < Layers(ns) && InRun(c, Output(ns, l, i)) && Output(ns, l, i) in j.artifacts && Live(j, Output(ns, l, i))
    ensures StateOf(c, Output(ns, l, i)) == Tensors(FrontierTerm(c, ns, l + 1, i), l + 1)
  {
    hide Good, FrontierTerm;
    GoodConfig(c, j);
    CommittedIsPlanned(c, j, BlockComplete(ns, l));
    FrontierKeyIsMember(c, ns, l + 1, i);
    KeptIsLive(c, j, Output(ns, l, i));
  }

  /** Give the replica the projections the block already has. */
  method InstallReplica(d: Driver, replica: Block) returns (o: Outcome<()>)
    requires d.Sound() && d.c.Valid() && replica.layer < Layers(replica.ns) && replica.installed == map[]
    requires forall ph :: PhaseComplete(replica.ns, replica.layer, ph) in d.journal.artifacts
    modifies replica
    ensures !o.Raised? && (!d.journal.fallible ==> o.Done?)
    ensures o.Done? ==> replica.installed == Installed(d.c, replica.ns, replica.layer)
  {
    hide Good, Config.Valid, SelectedTerms, SelectionOf, SlotList;
    var first :- LoadSelection(d, replica.ns, replica.layer, GateUp, MissingArtifact);
    var _ :- InstallSelected(d, replica, GateUp, first);
    var second :- LoadSelection(d, replica.ns, replica.layer, Down, MissingArtifact);
    var _ :- InstallSelected(d, replica, Down, second);
    return Done(());
  }

  /** `Wavefront.process`. */
  method Process(d: Driver, block: Block, replica: Block?, inputKeys: seq<Key>) returns (o: Outcome<State>)
    requires d.Sound() && d.c.Valid() && Ready(d.c, d.View(), block.ns, block.layer)
    requires inputKeys == FrontierKeys(d.c, block.ns, block.layer) && block.installed == map[]
    requires d.c.replicas == if replica == null then 1 else 2
    requires replica != null ==>
      replica != block && replica.ns == block.ns && replica.layer == block.layer && replica.installed == map[]
    modifies d.journal, block, replica
    ensures !o.Raised? && (!d.journal.fallible ==> o.Done?) && d.Sound() && Closed(old(d.View()), d.View(), BlockComplete(block.ns, block.layer))
    ensures o.Done? ==> BlockComplete(block.ns, block.layer) in d.journal.artifacts
    ensures o.Done? ==> o.value == BlockState(d.c, block.ns, block.layer)
  {
    hide Good, Config.Valid, Ready, Closed, Progress, BlockState;
    var ns, l := block.ns, block.layer;
    ghost var begin, b := d.View(), BlockComplete(ns, l);
    ProgressComposes(begin, begin, begin);
    ProgressIsClosed(begin, begin, begin, b);
    InputsAreDistinct(d.c, ns, l);
    if inputKeys == [] || (exists i, j :: 0 <= i < j < |inputKeys| && inputKeys[i] == inputKeys[j]) {
      return Raised(InventoryChanged);
    }
    ReadyFacts(d.c, d.View(), ns, l);
    var bound := BindInputs(d, ns, l, inputKeys, if replica == null then 1 else 2);
    ghost var ready := d.View();
    ProgressIsClosed(begin, ready, ready, b);
    if !bound.Done? {
      return Stopped;
    }
    ReadySurvives(d.c, begin, ready, ns, l);
    BlockPlan(d.c, ns, l);
    hide StateOf, InRun;
    var complete :- d.Load(BlockComplete(ns, l), Kind.Block);
    if complete.Some? {
      BlockStateKeys(d.c, ns, l);
      var _ :- CheckOutputs(d, ns, l, complete.value.keys);
      return Done(complete.value);
    }
    o := ProcessOpen(d, block, replica, inputKeys);
    ProgressIsClosed(begin, ready, d.View(), b);
  }

  lemma InputsAreDistinct(c: Config, ns: Namespace, l: nat)
    requires c.Valid()
    ensures FrontierKeys(c, ns, l) != [] && Distinct(FrontierKeys(c, ns, l))
  {
    FrontierKeysDistinct(c, ns, l);
  }

  lemma ReadyFacts(c: Config, j: Store, ns: Namespace, l: nat)
    requires c.Valid() && Ready(c, j, ns, l)
    ensures l < Layers(ns)
    ensures BlockComplete(ns, l) in j.artifacts ==> BarrierOf(Output(ns, l, 0)) !in j.artifacts
  {
  }

  lemma ReadySurvives(c: Config, j: Store, n: Store, ns: Namespace, l: nat)
    requires c.Valid() && Ready(c, j, ns, l) && Progress(j, n) && InputInventory(ns, l) in n.artifacts
    ensures BlockComplete(ns, l) in n.artifacts ==> BarrierOf(Output(ns, l, 0)) !in n.artifacts
    ensures BlockComplete(ns, l) !in n.artifacts ==> Bound(c, n, ns, l)
  {
  }

  lemma BlockPlan(c: Config, ns: Namespace, l: nat)
    requires c.Valid() && l < Layers(ns)
    ensures InRun(c, BlockComplete(ns, l)) && StateOf(c, BlockComplete(ns, l)) == BlockState(c, ns, l)
    ensures !IsTemporary(c, BlockComplete(ns, l))
  {
  }

  lemma BlockStateKeys(c: Config, ns: Namespace, l: nat)
    ensures BlockState(c, ns, l).Handoff? && BlockState(c, ns, l).keys == FrontierKeys(c, ns, l + 1)
    ensures BlockState(c, ns, l).nextLayer == l + 1
  {
  }

  /** The passes and phases of a block that is not committed yet. */
  method ProcessOpen(d: Driver, block: Block, replica: Block?, inputKeys: seq<Key>) returns (o: Outcome<State>)
    requires d.Sound() && d.c.Valid() && Bound(d.c, d.View(), block.ns, block.layer)
    requires inputKeys == FrontierKeys(d.c, block.ns, block.layer) && block.installed == map[]
    requires replica != null ==>
      replica != block && replica.ns == block.ns && replica.layer == block.layer && replica.installed == map[]
    modifies d.journal, block, replica
    ensures !o.Raised? && (!d.journal.fallible ==> o.Done?) && d.Sound() && Closed(old(d.View()), d.View(), BlockComplete(block.ns, block.layer))
    ensures o.Done? ==> BlockComplete(block.ns, block.layer) in d.journal.artifacts
    ensures o.Done? ==> o.value == BlockState(d.c, block.ns, block.layer)
  {
    hide Good, Config.Valid, Bound, Progress, Closed, Open, Installed, FrontierKey, Passed, BlockState;
    var ns, l := block.ns, block.layer;
    ghost var begin, b := d.View(), BlockComplete(ns, l);
    BoundFacts(d.c, begin, ns, l);
    var blocks := if replica == null then [block] else [block, replica];
    var routed := Activate(d, blocks, ns, l, inputKeys, InputInventory(ns, l), true);
    ghost var first := d.View();
    ProgressIsClosed(begin, first, first, b);
    if !routed.Done? {
      return Stopped;
    }
    BoundSurvives(d.c, begin, first, ns, l);
    RoutedIsOpen(d.c, first, ns, l);
    var phase := RunBlock(d, block, RoutedKeys(d.c, ns, l));
    ghost var second := d.View();
    ProgressComposes(begin, first, second);
    ProgressIsClosed(begin, second, second, b);
    if !phase.Done? {
      return Stopped;
    }
    BoundSurvives(d.c, first, second, ns, l);
    if replica != null {
      PhasesCommitted(d.c, second, ns, l);
      var installed := InstallReplica(d, replica);
      if !installed.Done? {
        return Stopped;
      }
    }
    o := Propagate(d, blocks, ns, l, inputKeys, phase.value);
    ProgressIsClosed(begin, second, d.View(), b);
  }

  lemma BoundFacts(c: Config, j: Store, ns: Namespace, l: nat)
    requires c.Valid() && Bound(c, j, ns, l)
    ensures l < Layers(ns) && InputInventory(ns, l) in j.artifacts && BlockComplete(ns, l) !in j.artifacts
  {
  }

  lemma RoutedIsOpen(c: Config, j: Store, ns: Namespace, l: nat)
    requires c.Valid() && Bound(c, j, ns, l) && Passed(j, ns, l, true, Width(c, ns))
    ensures Open(c, j, ns, l)
  {
    forall i | 0 <= i < Width(c, ns) ensures RoutedBatch(ns, l, i) in j.artifacts {
      assert Target(ns, l, i, true) in j.artifacts;
    }
  }

  lemma PhasesCommitted(c: Config, j: Store, ns: Namespace, l: nat)
    requires Good(c, j) && PhaseComplete(ns, l, Down) in j.artifacts
    ensures forall ph :: PhaseComplete(ns, l, ph) in j.artifacts
  {
    hide Good, StateOf;
    GoodConfig(c, j);
    CommittedIsPlanned(c, j, PhaseComplete(ns, l, Down));
    PhaseIsUnder(c, j, PhaseComplete(ns, l, Down), ns, l, Down, 0);
    CommittedIsPlanned(c, j, HessianOf(ns, l, Down, 0));
    forall ph ensures PhaseComplete(ns, l, ph) in j.artifacts {
      if ph == GateUp {} else {}
    }
  }

  /** Advance every frontier through the finished block and commit the block. */
  method Propagate(d: Driver, blocks: seq<Block>, ns: Namespace, l: nat, inputKeys: seq<Key>, phase: Key) returns (o: Outcome<State>)
    requires d.Sound() && d.c.Valid() && Bound(d.c, d.View(), ns, l) && blocks != []
    requires inputKeys == FrontierKeys(d.c, ns, l) && phase == PhaseComplete(ns, l, Down) && phase in d.journal.artifacts
    requires forall b :: b in blocks ==> b.installed == Installed(d.c, ns, l)
    modifies d.journal
    ensures !o.Raised? && (!d.journal.fallible ==> o.Done?) && d.Sound() && Closed(old(d.View()), d.View(), BlockComplete(ns, l))
    ensures o.Done? ==> BlockComplete(ns, l) in d.journal.artifacts && o.value == BlockState(d.c, ns, l)
  {
    hide Good, Config.Valid, Bound, Progress, Closed, Installed, FrontierKey, Passed, BlockState, InRun;
    ghost var begin, b := d.View(), BlockComplete(ns, l);
    BoundFacts(d.c, begin, ns, l);
    var passed := Activate(d, blocks, ns, l, inputKeys, phase, false);
    ghost var first := d.View();
    ProgressIsClosed(begin, first, first, b);
    ProgressKeeps(begin, first);
    if !passed.Done? {
      return Stopped;
    }
    BoundSurvives(d.c, begin, first, ns, l);
    o := CommitBlock(d, ns, l, phase);
    ProgressIsClosed(begin, first, d.View(), b);
  }

  method CommitBlock(d: Driver, ns: Namespace, l: nat, phase: Key) returns (o: Outcome<State>)
    requires d.Sound() && d.c.Valid() && Bound(d.c, d.View(), ns, l) && Passed(d.View(), ns, l, false, Width(d.c, ns))
    requires phase == PhaseComplete(ns, l, Down) && phase in d.journal.artifacts
    modifies d.journal
    ensures !o.Raised? && (!d.journal.fallible ==> o.Done?) && d.Sound() && Closed(old(d.View()), d.View(), BlockComplete(ns, l))
    ensures o.Done? ==> BlockComplete(ns, l) in d.journal.artifacts && o.value == BlockState(d.c, ns, l)
  {
    hide Good, Config.Valid;
    var outputs := FrontierKeys(d.c, ns, l + 1);
    forall k | k in outputs ensures k in d.journal.artifacts {
      var i :| 0 <= i < |outputs| && outputs[i] == k;
      assert Target(ns, l, i, false) in d.journal.artifacts;
    }
    var complete := Handoff(outputs, Some(phase), l + 1);
    var _ :- d.Publish(BlockComplete(ns, l), Kind.Block, complete, [InputInventory(ns, l), phase] + outputs);
    return Done(complete);
  }
}
