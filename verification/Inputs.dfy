/** The first frontier of a namespace: from the corpus, or from the main model's last frontier. */
module Inputs {
  import opened Driver
  import opened Journal
  import opened Options
  import opened Recipe
  import opened RunInvariant
  import opened RunOutcome
  import opened RunPlan
  import opened Wavefront

  function InventoryKey(ns: Namespace): Key {
    if ns == Base then CorpusInventory else DraftInventory
  }

  function CompleteKey(ns: Namespace): Key {
    if ns == Base then CorpusComplete else DraftComplete
  }

  /** Preparation has begun and is not complete. */
  ghost predicate Preparing(c: Config, j: Store, ns: Namespace)
    requires c.Valid()
  {
    && InventoryKey(ns) in j.artifacts && CompleteKey(ns) !in j.artifacts
    && (ns == Mtp ==> forall r: nat :: r < c.records ==> Output(Base, Last(Base), r) in j.artifacts)
  }

  /** Records that neither close anything nor complete the preparation. */
  ghost predicate Prepares(j: Store, n: Store, ns: Namespace) {
    Progress(j, n) && (CompleteKey(ns) in n.artifacts ==> CompleteKey(ns) in j.artifacts)
  }

  lemma PreparesComposes(j: Store, m: Store, n: Store, ns: Namespace)
    ensures Prepares(j, j, ns)
    ensures Prepares(j, m, ns) && Prepares(m, n, ns) ==> Prepares(j, n, ns)
    ensures Prepares(j, n, ns) ==> Progress(j, n)
  {
    ProgressComposes(j, m, n);
  }

  lemma PreparingSurvives(c: Config, j: Store, n: Store, ns: Namespace)
    requires c.Valid() && Preparing(c, j, ns) && Prepares(j, n, ns)
    ensures Preparing(c, n, ns)
  {
  }

  /** Nothing of the namespace's first block can be committed before its inputs are complete. */
  lemma FirstBlockIsMissing(c: Config, j: Store, ns: Namespace)
    requires Good(c, j) && CompleteKey(ns) !in j.artifacts
    ensures BlockComplete(ns, 0) !in j.artifacts
    ensures ns == Mtp ==> RetirementMarker(Base) !in j.artifacts
  {
    hide Good, StateOf, Swept;
    GoodConfig(c, j);
    if ns == Mtp && RetirementMarker(Base) in j.artifacts {
      CommittedIsPlanned(c, j, RetirementMarker(Base));
    }
    if BlockComplete(ns, 0) in j.artifacts {
      BlocksArePrefix(c, j, ns, 0);
      CommittedIsPlanned(c, j, Key.NamespaceInputs(ns));
      if ns == Mtp {
        SweptIsCommitted(c, j, RetirementMarker(Base));
      }
    }
  }

  lemma FirstFrontierIsLive(c: Config, j: Store, ns: Namespace, i: nat)
    requires Good(c, j) && c.Valid() && CompleteKey(ns) !in j.artifacts && i < Width(c, ns)
    ensures InRun(c, FrontierKey(c, ns, 0, i)) && KindOf(FrontierKey(c, ns, 0, i)) == Replay
    ensures StateOf(c, FrontierKey(c, ns, 0, i)) == Tensors(FrontierTerm(c, ns, 0, i), 0)
    ensures FrontierKey(c, ns, 0, i) in j.artifacts ==> Live(j, FrontierKey(c, ns, 0, i))
  {
    hide Good, FrontierTerm;
    FrontierState(c, ns, 0, i);
    FirstBlockIsMissing(c, j, ns);
    if FrontierKey(c, ns, 0, i) in j.artifacts {
      KeptIsLive(c, j, FrontierKey(c, ns, 0, i));
    }
  }

  /** The main model's last frontier waits for the handoff. */
  lemma MainOutputIsLive(c: Config, j: Store, r: nat)
    requires Good(c, j) && c.Valid() && Preparing(c, j, Mtp) && r < c.records
    ensures InRun(c, Output(Base, Last(Base), r)) && Live(j, Output(Base, Last(Base), r))
    ensures StateOf(c, Output(Base, Last(Base), r)) == Tensors(FrontierTerm(c, Base, Layers(Base), r), Layers(Base))
  {
    hide Good, FrontierTerm;
    FirstBlockIsMissing(c, j, Mtp);
    KeptIsLive(c, j, Output(Base, Last(Base), r));
  }

  // ---------- what exists ----------

  /** The batches still to prepare; the others are loaded and checked. */
  method Survey(d: Driver, ns: Namespace) returns (o: Outcome<seq<nat>>)
    requires d.Sound() && d.c.Valid() && Preparing(d.c, d.View(), ns)
    ensures !o.Raised? && (!d.journal.fallible ==> o.Done?)
    ensures o.Done? ==> forall i: nat :: i < Width(d.c, ns) ==> FrontierKey(d.c, ns, 0, i) in d.journal.artifacts || i in o.value
    ensures o.Done? ==> forall i :: i in o.value ==> i < Width(d.c, ns)
  {
    hide Good, Config.Valid, FrontierKey, Preparing;
    CompleteIsMissing(d.c, d.View(), ns);
    var missing: seq<nat> := [];
    for i := 0 to Width(d.c, ns)
      invariant forall n: nat :: n < i ==> FrontierKey(d.c, ns, 0, n) in d.journal.artifacts || n in missing
      invariant forall n :: n in missing ==> n < i
    {
      var found :- CheckFirst(d, ns, i);
      if !found {
        missing := missing + [i];
      }
    }
    return Done(missing);
  }

  /** Whether a first frontier is committed; if it is, it is loaded and checked. */
  method CheckFirst(d: Driver, ns: Namespace, i: nat) returns (o: Outcome<bool>)
    requires d.Sound() && d.c.Valid() && CompleteKey(ns) !in d.journal.artifacts && i < Width(d.c, ns)
    ensures !o.Raised? && (!d.journal.fallible ==> o.Done?)
    ensures o.Done? ==> o.value == (FrontierKey(d.c, ns, 0, i) in d.journal.artifacts)
  {
    hide Good, Config.Valid, FrontierKey, InRun, StateOf, IsTemporary, KindOf;
    var key := FrontierKey(d.c, ns, 0, i);
    FirstFrontierIsLive(d.c, d.View(), ns, i);
    var record := d.journal.Get(key, false);
    if record.value.None? {
      return Done(false);
    }
    LoadFacts(d.c, d.View(), key);
    if record.value.value.kind != Replay {
      return Raised(WrongKind);
    }
    var state :- d.Load(key, Replay);
    if state.None? || state.value.nextLayer != 0 {
      return Raised(WrongLayer);
    }
    return Done(true);
  }

  lemma CompleteIsMissing(c: Config, j: Store, ns: Namespace)
    requires c.Valid() && Preparing(c, j, ns)
    ensures CompleteKey(ns) !in j.artifacts
  {
  }

  // ---------- windows of two ----------

  /** One adapter's work: tokens, or a main state with its anchors, to a first frontier. */
  method Prepare(d: Driver, ns: Namespace, i: nat) returns (o: Outcome<()>)
    requires d.Sound() && d.c.Valid() && Preparing(d.c, d.View(), ns) && i < Width(d.c, ns)
    requires FrontierKey(d.c, ns, 0, i) !in d.journal.artifacts
    modifies d.journal
    ensures !o.Raised? && (!d.journal.fallible ==> o.Done?) && d.Sound() && Prepares(old(d.View()), d.View(), ns)
    ensures d.journal.artifacts == old(d.journal.artifacts)
    ensures forall k :: IsWritten(d.c, old(d.View()), k) ==> IsWritten(d.c, d.View(), k)
    ensures o.Done? ==> IsWritten(d.c, d.View(), FrontierKey(d.c, ns, 0, i))
  {
    hide Good, IsWritten, FrontierKey, Prepares;
    PreparesComposes(d.View(), d.View(), d.View(), ns);
    var fails := d.journal.Fails();
    if fails {
      return Stopped; // the adapter fails or its result is not finite
    }
    var term := Prepared(i);
    if ns == Mtp {
      var r := d.c.draft[i];
      MainOutputIsLive(d.c, d.View(), r);
      var state :- d.Load(Output(Base, Last(Base), r), Replay);
      if state.None? || state.value.nextLayer != Layers(Base) {
        return Raised(WrongLayer);
      }
      term := Joint(r, d.c.positions[r], state.value.term);
    }
    WriteFirst(d, ns, i, term);
    return Done(());
  }

  method WriteFirst(d: Driver, ns: Namespace, i: nat, term: Term)
    requires d.Sound() && d.c.Valid() && Preparing(d.c, d.View(), ns) && i < Width(d.c, ns)
    requires FrontierKey(d.c, ns, 0, i) !in d.journal.artifacts && term == FrontierTerm(d.c, ns, 0, i)
    modifies d.journal
    ensures d.Sound() && Prepares(old(d.View()), d.View(), ns)
    ensures d.journal.artifacts == old(d.journal.artifacts)
    ensures forall k :: IsWritten(d.c, old(d.View()), k) ==> IsWritten(d.c, d.View(), k)
    ensures IsWritten(d.c, d.View(), FrontierKey(d.c, ns, 0, i))
  {
    hide Good, Config.Valid, StateOf, InRun, Ordered, FrontierTerm, FrontierKey, IsWritten, Progress, KindOf, IsTemporary, Preparing;
    CompleteIsMissing(d.c, d.View(), ns);
    FirstFrontierIsLive(d.c, d.View(), ns, i);
    SavingWrites(d.c, d.View(), FrontierKey(d.c, ns, 0, i));
    d.Save(FrontierKey(d.c, ns, 0, i), File(Replay, FrontierKey(d.c, ns, 0, i), Tensors(term, 0)));
  }

  /** The dependencies of a first frontier. */
  function FirstParents(c: Config, ns: Namespace, i: nat): seq<Key>
    requires i < Width(c, ns)
  {
    if ns == Base then [CorpusInventory] else [DraftInventory, Output(Base, Last(Base), c.draft[i])]
  }

  lemma FirstIsReady(c: Config, j: Store, ns: Namespace, i: nat)
    requires c.Valid() && Preparing(c, j, ns) && i < Width(c, ns)
    ensures var k := FrontierKey(c, ns, 0, i);
      && InRun(c, k) && KindOf(k) == Replay && Parents(c, k) == FirstParents(c, ns, i) && Ordered(c, j, k) && !Closing(k)
      && k != CompleteKey(ns) && forall p :: p in Parents(c, k) ==> p in j.artifacts
  {
  }

  method CommitFirst(d: Driver, ns: Namespace, i: nat) returns (o: Outcome<()>)
    requires d.Sound() && d.c.Valid() && Preparing(d.c, d.View(), ns) && i < Width(d.c, ns)
    requires IsWritten(d.c, d.View(), FrontierKey(d.c, ns, 0, i))
    modifies d.journal
    ensures !o.Raised? && (!d.journal.fallible ==> o.Done?) && d.Sound() && Prepares(old(d.View()), d.View(), ns) && d.journal.files == old(d.journal.files)
    ensures d.journal.artifacts.Keys <= old(d.journal.artifacts.Keys) + {FrontierKey(d.c, ns, 0, i)}
    ensures o.Done? ==> FrontierKey(d.c, ns, 0, i) in d.journal.artifacts
  {
    hide Good, Config.Valid, StateOf, FileOf, InRun, Ordered, Parents, FrontierKey, FirstParents, Preparing, IsTemporary, BarrierOf;
    FirstIsReady(d.c, d.View(), ns, i);
    CompleteIsMissing(d.c, d.View(), ns);
    FirstFrontierIsLive(d.c, d.View(), ns, i);
    o := d.Record(FrontierKey(d.c, ns, 0, i), Replay, FirstParents(d.c, ns, i));
  }

  /** The jobs of a window: a job that is left is not committed, and one that is done is written. */
  ghost predicate Adapting(c: Config, j: Store, ns: Namespace, pool: Pool)
    requires c.Valid()
  {
    && (forall i :: i in pool.pending ==> i < Width(c, ns))
    && (forall i :: i in pool.left && i < Width(c, ns) ==> i in pool.pending && FrontierKey(c, ns, 0, i) !in j.artifacts)
    && (forall i :: i in pool.pending && i < Width(c, ns) && i !in pool.left && i !in pool.failed ==>
          FrontierKey(c, ns, 0, i) in j.artifacts || IsWritten(c, j, FrontierKey(c, ns, 0, i)))
  }

  function WindowPool(c: Config, artifacts: map<Key, Entry>, ns: Namespace, window: seq<nat>): Pool {
    Pool(window, set i | i in window && i < Width(c, ns) && FrontierKey(c, ns, 0, i) !in artifacts, {})
  }

  lemma WindowStarts(c: Config, j: Store, ns: Namespace, window: seq<nat>)
    requires c.Valid() && forall i :: i in window ==> i < Width(c, ns)
    ensures Adapting(c, j, ns, WindowPool(c, j.artifacts, ns, window))
    ensures forall i :: i in WindowPool(c, j.artifacts, ns, window).left ==> i in window
  {
    hide Config.Valid, FrontierKey, IsWritten;
  }

  lemma AdapterEnds(c: Config, j: Store, n: Store, ns: Namespace, pool: Pool, i: nat)
    requires c.Valid() && Adapting(c, j, ns, pool) && i in pool.left && i < Width(c, ns)
    requires n.artifacts == j.artifacts && forall k :: IsWritten(c, j, k) ==> IsWritten(c, n, k)
    ensures Adapting(c, n, ns, pool.(left := pool.left - {i}, failed := pool.failed + {i}))
    ensures IsWritten(c, n, FrontierKey(c, ns, 0, i)) ==> Adapting(c, n, ns, pool.(left := pool.left - {i}))
  {
    hide Config.Valid, FrontierKey, IsWritten;
  }

  /** One adapter takes one of the jobs that are left. */
  method Adapt(d: Driver, ns: Namespace, pool: Pool, i: nat) returns (o: Outcome<Pool>)
    requires d.Sound() && d.c.Valid() && Preparing(d.c, d.View(), ns) && Adapting(d.c, d.View(), ns, pool)
    requires i in pool.left && i < Width(d.c, ns)
    modifies d.journal
    ensures !o.Raised? && (!d.journal.fallible ==> o.Done?) && d.Sound() && Prepares(old(d.View()), d.View(), ns)
    ensures d.journal.artifacts == old(d.journal.artifacts)
    ensures o.Done? ==> Adapting(d.c, d.View(), ns, o.value) && o.value.left == pool.left - {i} && o.value.pending == pool.pending
    ensures o.Done? && !d.journal.fallible ==> o.value.failed == pool.failed
  {
    hide Good, Config.Valid, FrontierKey, IsWritten, Preparing, Prepares;
    ghost var before := d.View();
    var done := Prepare(d, ns, i);
    AdapterEnds(d.c, before, d.View(), ns, pool, i);
    if done.Done? {
      return Done(pool.(left := pool.left - {i}));
    }
    if * {
      return Stopped; // the process died
    }
    return Done(pool.(left := pool.left - {i}, failed := pool.failed + {i}));
  }

  /** What the adapters get done, in whatever order, while the owner does something else. */
  method Adapters(d: Driver, ns: Namespace, pool: Pool) returns (o: Outcome<Pool>)
    requires d.Sound() && d.c.Valid() && Preparing(d.c, d.View(), ns) && Adapting(d.c, d.View(), ns, pool)
    requires forall i :: i in pool.left ==> i < Width(d.c, ns)
    modifies d.journal
    ensures !o.Raised? && (!d.journal.fallible ==> o.Done?) && d.Sound() && Prepares(old(d.View()), d.View(), ns)
    ensures d.journal.artifacts == old(d.journal.artifacts)
    ensures o.Done? ==> Adapting(d.c, d.View(), ns, o.value) && o.value.left <= pool.left && o.value.pending == pool.pending
    ensures o.Done? && !d.journal.fallible ==> o.value.failed == pool.failed
  {
    hide Good, Config.Valid, FrontierKey, IsWritten, Preparing, Prepares, Adapting;
    ghost var begin := d.View();
    PreparesComposes(begin, begin, begin, ns);
    var now := pool;
    while now.left != {}
      invariant d.Sound() && Prepares(begin, d.View(), ns) && d.journal.artifacts == begin.artifacts && Preparing(d.c, d.View(), ns)
      invariant Adapting(d.c, d.View(), ns, now) && now.left <= pool.left && now.pending == pool.pending
      invariant !d.journal.fallible ==> now.failed == pool.failed
      decreases |now.left|
    {
      if * {
        break;
      }
      var i :| i in now.left;
      ghost var middle := d.View();
      var adapted := Adapt(d, ns, now, i);
      PreparesComposes(begin, middle, d.View(), ns);
      PreparesComposes(middle, d.View(), d.View(), ns);
      if !adapted.Done? {
        return Stopped;
      }
      PreparingSurvives(d.c, middle, d.View(), ns);
      now := adapted.value;
    }
    return Done(now);
  }

  /** Wait for one job; a failure ends the preparation once the other adapter is done. */
  method AwaitFirst(d: Driver, ns: Namespace, pool: Pool, i: nat) returns (o: Outcome<Pool>)
    requires d.Sound() && d.c.Valid() && Preparing(d.c, d.View(), ns) && Adapting(d.c, d.View(), ns, pool)
    requires (forall i :: i in pool.left ==> i < Width(d.c, ns)) && (!d.journal.fallible ==> pool.failed == {})
    modifies d.journal
    ensures !o.Raised? && (!d.journal.fallible ==> o.Done?) && d.Sound() && Prepares(old(d.View()), d.View(), ns)
    ensures d.journal.artifacts == old(d.journal.artifacts)
    ensures o.Done? ==> Adapting(d.c, d.View(), ns, o.value) && o.value.left <= pool.left && o.value.pending == pool.pending
    ensures o.Done? ==> i !in o.value.left && i !in o.value.failed && (!d.journal.fallible ==> o.value.failed == {})
  {
    hide Good, Config.Valid, FrontierKey, IsWritten, Preparing, Prepares, Adapting;
    ghost var begin := d.View();
    o := Adapters(d, ns, pool);
    if !o.Done? {
      return;
    }
    ghost var middle := d.View();
    PreparesComposes(begin, middle, middle, ns);
    PreparingSurvives(d.c, begin, middle, ns);
    if i in o.value.left {
      o := Adapt(d, ns, o.value, i);
      PreparesComposes(begin, middle, d.View(), ns);
      if !o.Done? {
        return;
      }
      PreparingSurvives(d.c, middle, d.View(), ns);
    }
    if i in o.value.failed {
      ghost var last := d.View();
      var drained := Adapters(d, ns, o.value);
      PreparesComposes(begin, last, d.View(), ns);
      return Stopped;
    }
  }

  /** Committing a finished job leaves the others alone. */
  lemma FirstJoins(c: Config, j: Store, n: Store, ns: Namespace, pool: Pool, i: nat)
    requires c.Valid() && Adapting(c, j, ns, pool) && i < Width(c, ns) && i !in pool.left
    requires n.files == j.files && j.artifacts.Keys <= n.artifacts.Keys <= j.artifacts.Keys + {FrontierKey(c, ns, 0, i)}
    ensures Adapting(c, n, ns, pool)
  {
    hide InRun, FileOf;
    forall m | m in pool.left && m < Width(c, ns) ensures FrontierKey(c, ns, 0, m) !in n.artifacts {
      assert m != i;
      assert m < i || i < m;
    }
  }

  lemma FirstIsDone(c: Config, j: Store, ns: Namespace, pool: Pool, i: nat)
    requires c.Valid() && Adapting(c, j, ns, pool) && i in pool.pending && i !in pool.left && i !in pool.failed
    ensures i < Width(c, ns) && (FrontierKey(c, ns, 0, i) in j.artifacts || IsWritten(c, j, FrontierKey(c, ns, 0, i)))
  {
  }

  /** Prepare the batches of one window side by side, and commit them in order, each as soon as it is done. */
  method PrepareWindow(d: Driver, ns: Namespace, window: seq<nat>) returns (o: Outcome<()>)
    requires d.Sound() && d.c.Valid() && Preparing(d.c, d.View(), ns) && forall i :: i in window ==> i < Width(d.c, ns)
    modifies d.journal
    ensures !o.Raised? && (!d.journal.fallible ==> o.Done?) && d.Sound() && Prepares(old(d.View()), d.View(), ns)
    ensures o.Done? ==> forall i :: i in window ==> FrontierKey(d.c, ns, 0, i) in d.journal.artifacts
  {
    hide Good, Config.Valid, FrontierKey, IsWritten, Preparing, Prepares, Adapting;
    ghost var begin := d.View();
    PreparesComposes(begin, begin, begin, ns);
    WindowStarts(d.c, begin, ns, window);
    var pool := WindowPool(d.c, d.journal.artifacts, ns, window);
    for n := 0 to |window|
      invariant d.Sound() && Prepares(begin, d.View(), ns) && Preparing(d.c, d.View(), ns)
      invariant Adapting(d.c, d.View(), ns, pool) && pool.pending == window && (!d.journal.fallible ==> pool.failed == {})
      invariant forall i :: i in pool.left ==> i in window
      invariant forall m :: 0 <= m < n ==> window[m] < Width(d.c, ns) && FrontierKey(d.c, ns, 0, window[m]) in d.journal.artifacts
    {
      ghost var first := d.View();
      assert window[n] in window;
      var awaited := AwaitFirst(d, ns, pool, window[n]);
      ghost var second := d.View();
      PreparesComposes(begin, first, second, ns);
      if !awaited.Done? {
        return Stopped;
      }
      pool := awaited.value;
      PreparingSurvives(d.c, first, second, ns);
      FirstIsDone(d.c, second, ns, pool, window[n]);
      if FrontierKey(d.c, ns, 0, window[n]) !in d.journal.artifacts {
        o := CommitFirst(d, ns, window[n]);
        PreparesComposes(begin, second, d.View(), ns);
        PreparesComposes(second, d.View(), d.View(), ns);
        if !o.Done? {
          return;
        }
        ProgressKeeps(second, d.View());
        PreparingSurvives(d.c, second, d.View(), ns);
        FirstJoins(d.c, second, d.View(), ns, pool, window[n]);
      }
    }
    return Done(());
  }

  /** All missing batches, two adapters at a time. */
  method PrepareMissing(d: Driver, ns: Namespace, missing: seq<nat>) returns (o: Outcome<()>)
    requires d.Sound() && d.c.Valid() && Preparing(d.c, d.View(), ns) && forall i :: i in missing ==> i < Width(d.c, ns)
    modifies d.journal
    ensures !o.Raised? && (!d.journal.fallible ==> o.Done?) && d.Sound() && Prepares(old(d.View()), d.View(), ns)
    ensures o.Done? ==> forall i :: i in missing ==> FrontierKey(d.c, ns, 0, i) in d.journal.artifacts
  {
    hide Good, Config.Valid, FrontierKey, Preparing, Prepares;
    ghost var begin := d.View();
    PreparesComposes(begin, begin, begin, ns);
    var offset := 0;
    while offset < |missing|
      invariant offset <= |missing| && d.Sound() && Prepares(begin, d.View(), ns) && Preparing(d.c, d.View(), ns)
      invariant forall n :: 0 <= n < offset ==> missing[n] < Width(d.c, ns) && FrontierKey(d.c, ns, 0, missing[n]) in d.journal.artifacts
    {
      var to := if offset + 2 < |missing| then offset + 2 else |missing|;
      ghost var middle := d.View();
      var window := missing[offset..to];
      assert forall i :: i in window ==> i in missing;
      o := PrepareWindow(d, ns, window);
      PreparesComposes(begin, middle, d.View(), ns);
      PreparesComposes(middle, d.View(), d.View(), ns);
      if !o.Done? {
        return;
      }
      ProgressKeeps(middle, d.View());
      PreparingSurvives(d.c, middle, d.View(), ns);
      assert forall n :: offset <= n < to ==> missing[n] == window[n - offset] && missing[n] in window;
      offset := to;
    }
    return Done(());
  }

  // ---------- the two preparations ----------

  method BindInventory(d: Driver, ns: Namespace, inventory: State, parents: seq<Key>) returns (o: Outcome<()>)
    requires d.Sound() && d.c.Valid() && inventory == StateOf(d.c, InventoryKey(ns)) && parents == Parents(d.c, InventoryKey(ns))
    requires forall p :: p in parents ==> p in d.journal.artifacts
    modifies d.journal
    ensures !o.Raised? && (!d.journal.fallible ==> o.Done?) && d.Sound() && Prepares(old(d.View()), d.View(), ns)
    ensures o.Done? ==> InventoryKey(ns) in d.journal.artifacts
  {
    hide Good, Config.Valid, StateOf, Parents;
    PreparesComposes(d.View(), d.View(), d.View(), ns);
    var previous :- d.Load(InventoryKey(ns), Kind.Inventory);
    if previous.None? {
      o := d.Publish(InventoryKey(ns), Kind.Inventory, inventory, parents);
      return;
    } else if previous.value != inventory {
      return Raised(InventoryChanged);
    }
    return Done(());
  }

  /** Survey, prepare and commit the completion. */
  method PrepareAll(d: Driver, ns: Namespace) returns (o: Outcome<State>)
    requires d.Sound() && d.c.Valid() && Preparing(d.c, d.View(), ns)
    modifies d.journal
    ensures !o.Raised? && (!d.journal.fallible ==> o.Done?) && d.Sound() && Progress(old(d.View()), d.View())
    ensures o.Done? ==> o.value == InitialState(d.c, ns) && CompleteKey(ns) in d.journal.artifacts
  {
    hide Good, Config.Valid, FrontierKey, Preparing, Prepares, Progress, InitialState;
    ghost var begin := d.View();
    ProgressComposes(begin, begin, begin);
    var missing :- Survey(d, ns);
    o := Stopped;
    var prepared := PrepareMissing(d, ns, missing);
    PreparesComposes(begin, d.View(), d.View(), ns);
    if !prepared.Done? {
      return;
    }
    PreparesComposes(begin, begin, d.View(), ns);
    ProgressKeeps(begin, d.View());
    PreparingSurvives(d.c, begin, d.View(), ns);
    ghost var middle := d.View();
    o := CommitComplete(d, ns);
    ProgressComposes(begin, middle, d.View());
  }

  method CommitComplete(d: Driver, ns: Namespace) returns (o: Outcome<State>)
    requires d.Sound() && d.c.Valid() && Preparing(d.c, d.View(), ns)
    requires forall i: nat :: i < Width(d.c, ns) ==> FrontierKey(d.c, ns, 0, i) in d.journal.artifacts
    modifies d.journal
    ensures !o.Raised? && (!d.journal.fallible ==> o.Done?) && d.Sound() && Progress(old(d.View()), d.View())
    ensures o.Done? ==> o.value == InitialState(d.c, ns) && CompleteKey(ns) in d.journal.artifacts
  {
    hide Good, Config.Valid, FrontierKey;
    var keys := FrontierKeys(d.c, ns, 0);
    forall k | k in keys ensures k in d.journal.artifacts {
      var i :| 0 <= i < |keys| && keys[i] == k;
      assert k == FrontierKey(d.c, ns, 0, i);
    }
    var result := Handoff(keys, None, 0);
    var _ :- d.Publish(CompleteKey(ns), Kind.Inputs, result, [InventoryKey(ns)] + keys);
    return Done(result);
  }

  /** `prepare_frontiers`: the corpus inputs, called while they are incomplete. */
  method PrepareFrontiers(d: Driver) returns (o: Outcome<State>)
    requires d.Sound() && d.c.Valid() && CorpusComplete !in d.journal.artifacts
    modifies d.journal
    ensures !o.Raised? && (!d.journal.fallible ==> o.Done?) && d.Sound() && Progress(old(d.View()), d.View())
    ensures o.Done? ==> o.value == InitialState(d.c, Base) && CorpusComplete in d.journal.artifacts
  {
    hide Good, Config.Valid, Prepares, Progress, InitialState;
    ghost var begin := d.View();
    o := Stopped;
    var bound := BindInventory(d, Base, Corpus(d.c.records), []);
    PreparesComposes(begin, d.View(), d.View(), Base);
    PreparesComposes(begin, begin, d.View(), Base);
    if !bound.Done? {
      return;
    }
    ghost var middle := d.View();
    NotComplete(begin, middle, Base);
    o := PrepareAll(d, Base);
    ProgressComposes(begin, middle, d.View());
  }

  lemma NotComplete(j: Store, n: Store, ns: Namespace)
    requires Prepares(j, n, ns) && CompleteKey(ns) !in j.artifacts
    ensures CompleteKey(ns) !in n.artifacts
  {
  }

  /** `prepare_draft_frontiers`: the handoff from the complete main corpus, while it is incomplete. */
  method PrepareDraftFrontiers(d: Driver, main: State) returns (o: Outcome<State>)
    requires d.Sound() && d.c.Valid() && DraftComplete !in d.journal.artifacts
    requires NamespaceComplete(Base) in d.journal.artifacts && main == NamespaceState(d.c, Base)
    modifies d.journal
    ensures !o.Raised? && (!d.journal.fallible ==> o.Done?) && d.Sound() && Progress(old(d.View()), d.View())
    ensures o.Done? ==> o.value == InitialState(d.c, Mtp) && DraftComplete in d.journal.artifacts
  {
    hide Good, Config.Valid, Prepares, Progress, InitialState, NamespaceState;
    ghost var begin := d.View();
    ProgressComposes(begin, begin, begin);
    MainIsCommitted(d.c, begin);
    var corpus :- d.Load(CorpusInventory, Kind.Inventory);
    var complete :- d.Load(NamespaceComplete(Base), Kind.Namespace);
    NamespaceStateIs(d.c, Base);
    if corpus.None? || corpus.value != Corpus(d.c.records) || complete.None? || complete.value != main
      || main.nextLayer != Layers(Base) || |main.keys| != d.c.records
    {
      return Raised(InventoryChanged);
    }
    o := Stopped;
    var bound := BindInventory(d, Mtp, DraftPlan(d.c.positions, main), [CorpusInventory, NamespaceComplete(Base)]);
    PreparesComposes(begin, d.View(), d.View(), Mtp);
    PreparesComposes(begin, begin, d.View(), Mtp);
    if !bound.Done? {
      return;
    }
    ghost var middle := d.View();
    NotComplete(begin, middle, Mtp);
    ProgressKeeps(begin, middle);
    o := PrepareAll(d, Mtp);
    ProgressComposes(begin, middle, d.View());
  }

  lemma NamespaceStateIs(c: Config, ns: Namespace)
    requires c.Valid()
    ensures NamespaceState(c, ns).Handoff? && NamespaceState(c, ns).keys == FrontierKeys(c, ns, Layers(ns))
    ensures NamespaceState(c, ns).nextLayer == Layers(ns) && NamespaceState(c, ns).keys != []
    ensures StateOf(c, NamespaceComplete(ns)) == NamespaceState(c, ns)
    ensures !IsTemporary(c, NamespaceComplete(ns))
  {
  }

  /** A complete main namespace has its corpus and its whole last frontier committed. */
  lemma MainIsCommitted(c: Config, j: Store)
    requires Good(c, j) && NamespaceComplete(Base) in j.artifacts
    ensures CorpusInventory in j.artifacts
    ensures forall r: nat :: r < c.records ==> Output(Base, Last(Base), r) in j.artifacts
  {
    hide Good, StateOf, Swept, IsTemporary;
    GoodConfig(c, j);
    NamespaceReaches(c, j, Base);
    CommittedIsPlanned(c, j, Key.NamespaceInputs(Base));
    CommittedIsPlanned(c, j, CorpusComplete);
    CommittedIsPlanned(c, j, BlockComplete(Base, Last(Base)));
    forall r: nat | r < c.records ensures Output(Base, Last(Base), r) in j.artifacts {
      FrontierKeyIsMember(c, Base, Layers(Base), r);
    }
  }
}
