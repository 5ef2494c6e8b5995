/** The resumable run of both namespaces. Every method may be entered on any journal that an earlier
    attempt left behind, and may stop anywhere. */
module Coordinator {
  import opened BlockDriver
  import opened Driver
  import opened Inputs
  import opened Journal
  import opened Options
  import opened Recipe
  import opened Retention
  import opened RunInvariant
  import opened RunMeaning
  import opened RunOutcome
  import opened RunPlan
  import opened RunStore
  import opened Wavefront

  // ---------- the last frontier of a namespace ----------

  /** A namespace's handoff is complete. */
  ghost predicate HandedOff(j: Store, ns: Namespace) {
    NamespaceComplete(ns) in j.artifacts && Downstream(ns) in j.artifacts
  }

  /** What replaces a namespace's last frontier: every payload is still there before authorization. */
  lemma ReplacementIsLive(c: Config, j: Store, ns: Namespace, k: Key)
    requires Good(c, j) && HandedOff(j, ns) && RetirementMarker(ns) !in j.artifacts
    requires k in DownstreamState(c, ns).keys
    ensures c.Valid() && InRun(c, k) && KindOf(k) == Replay && k in j.artifacts && Live(j, k)
    ensures StateOf(c, k).Tensors? && StateOf(c, k).nextLayer == DownstreamState(c, ns).nextLayer
  {
    hide Good, FrontierTerm, Swept;
    GoodConfig(c, j);
    CommittedIsPlanned(c, j, Downstream(ns));
    if ns == Base {
      var i :| 0 <= i < Width(c, Mtp) && FrontierKeys(c, Mtp, 0)[i] == k;
      FrontierState(c, Mtp, 0, i);
      NoDraftBlock(c, j);
      KeptIsLive(c, j, k);
    } else {
      var i :| 0 <= i < Width(c, Mtp) && FrontierKeys(c, Mtp, Layers(Mtp))[i] == k;
      FrontierState(c, Mtp, Layers(Mtp), i);
      CommittedIsPlanned(c, j, BlockComplete(Mtp, Last(Mtp)));
      KeptIsLive(c, j, k);
    }
  }

  /** The draft namespace starts only behind the main namespace's retirement. */
  lemma NoDraftBlock(c: Config, j: Store)
    requires Good(c, j) && RetirementMarker(Base) !in j.artifacts
    ensures BlockComplete(Mtp, 0) !in j.artifacts
  {
    hide Good, StateOf, Swept;
    GoodConfig(c, j);
    if BlockComplete(Mtp, 0) in j.artifacts {
      BlocksArePrefix(c, j, Mtp, 0);
      CommittedIsPlanned(c, j, Key.NamespaceInputs(Mtp));
      SweptIsCommitted(c, j, RetirementMarker(Base));
    }
  }

  /** Reload every replacement payload. */
  method VerifyReplacement(d: Driver, ns: Namespace, downstream: State) returns (o: Outcome<()>)
    requires d.Sound() && d.c.Valid() && HandedOff(d.View(), ns) && RetirementMarker(ns) !in d.journal.artifacts
    requires downstream == DownstreamState(d.c, ns) && downstream.Handoff?
    ensures !o.Raised? && (!d.journal.fallible ==> o.Done?)
  {
    hide Good, Config.Valid, DownstreamState, FrontierTerm;
    for i := 0 to |downstream.keys| {
      var key := downstream.keys[i];
      assert key in downstream.keys;
      ReplacementIsLive(d.c, d.View(), ns, key);
      LoadFacts(d.c, d.View(), key);
      var record := d.journal.Get(key, false);
      if record.value.None? || record.value.value.kind != Replay {
        return Raised(WrongKind);
      }
      hide InRun, StateOf, IsTemporary;
      var state :- d.Load(key, Replay);
      if state.None? || state.value.nextLayer != downstream.nextLayer {
        return Raised(WrongLayer);
      }
    }
    return Done(());
  }

  lemma HandoffStates(c: Config, ns: Namespace)
    requires c.Valid()
    ensures DownstreamState(c, ns).Handoff? && DownstreamState(c, ns).keys != []
    ensures InRun(c, Downstream(ns)) && StateOf(c, Downstream(ns)) == DownstreamState(c, ns)
    ensures ns == Base ==> DownstreamState(c, ns).nextLayer == 0
    ensures KindOf(Downstream(ns)) == if ns == Base then Kind.Inputs else Kind.Namespace
    ensures !IsTemporary(c, Downstream(ns)) && !IsTemporary(c, RetirementMarker(ns)) && !IsTemporary(c, DraftInventory)
    ensures StateOf(c, DraftInventory) == DraftPlan(c.positions, NamespaceState(c, Base))
    ensures StateOf(c, RetirementMarker(ns)) == Authorization(NamespaceState(c, ns), Downstream(ns), DownstreamState(c, ns))
    ensures Parents(c, RetirementMarker(ns)) == if ns == Base then [NamespaceComplete(Base), DraftComplete] else [NamespaceComplete(Mtp)]
  {
  }

  /** Commit the authorization to give up the last frontier, after verifying what replaces it. */
  method AuthorizeRetirement(d: Driver, ns: Namespace, complete: State, downstream: State) returns (o: Outcome<()>)
    requires d.Sound() && d.c.Valid() && HandedOff(d.View(), ns)
    requires complete == NamespaceState(d.c, ns) && downstream == DownstreamState(d.c, ns)
    modifies d.journal
    ensures !o.Raised? && (!d.journal.fallible ==> o.Done?) && d.Sound() && Grown(old(d.View()), d.View())
    ensures o.Done? ==> RetirementMarker(ns) in d.journal.artifacts
  {
    hide Good, Config.Valid, StateOf, NamespaceState, DownstreamState, Parents, IsTemporary;
    HandoffStates(d.c, ns);
    var expected := Authorization(complete, Downstream(ns), downstream);
    var authorization :- d.Load(RetirementMarker(ns), Kind.NamespaceRetirement);
    if authorization.None? {
      var _ :- VerifyReplacement(d, ns, downstream);
      var parents := if ns == Base then [NamespaceComplete(Base), DraftComplete] else [NamespaceComplete(Mtp)];
      o := d.Publish(RetirementMarker(ns), Kind.NamespaceRetirement, expected, parents);
      return;
    } else if authorization.value != expected {
      return Raised(RetirementChanged);
    }
    return Done(());
  }

  /** A later journal holds at least the same records. */
  ghost predicate Later(j: Store, n: Store) {
    forall k :: k in j.artifacts ==> k in n.artifacts
  }

  lemma LaterComposes(j: Store, m: Store, n: Store)
    ensures Later(j, j)
    ensures Later(j, m) && Later(m, n) ==> Later(j, n)
    ensures Grown(j, n) ==> Later(j, n)
    ensures n.artifacts == j.artifacts ==> Later(j, n)
  {
  }

  /** `retire_namespace_frontier`. */
  method RetireNamespaceFrontier(d: Driver, ns: Namespace) returns (o: Outcome<State>)
    requires d.Sound() && d.c.Valid() && HandedOff(d.View(), ns)
    modifies d.journal
    ensures !o.Raised? && (!d.journal.fallible ==> o.Done?) && d.Sound() && Later(old(d.View()), d.View())
    ensures o.Done? ==> o.value == NamespaceState(d.c, ns) && Swept(d.c, d.View(), RetirementMarker(ns)) && FrontierShed(d.View(), ns)
  {
    hide Good, Config.Valid, StateOf, NamespaceState, DownstreamState, IsTemporary, Swept, Later, FrontierShed;
    ghost var begin := d.View();
    LaterComposes(begin, begin, begin);
    NamespaceStateIs(d.c, ns);
    HandoffStates(d.c, ns);
    var complete :- d.Load(NamespaceComplete(ns), Kind.Namespace);
    if complete.None? || complete.value.nextLayer != Layers(ns) {
      return Raised(InvalidRetention);
    }
    var downstream :- d.Load(Downstream(ns), if ns == Base then Kind.Inputs else Kind.Namespace);
    if downstream.None? || downstream.value.keys == [] || complete.value.keys == [] {
      return Raised(InvalidRetention);
    }
    if ns == Base {
      DraftInventoryIsCommitted(d.c, begin);
      var inventory :- d.Load(DraftInventory, Kind.Inventory);
      if inventory.None? || inventory.value.main != complete.value || downstream.value.nextLayer != 0 {
        return Raised(InvalidRetention);
      }
    }
    o := Stopped;
    var authorized := AuthorizeRetirement(d, ns, complete.value, downstream.value);
    ghost var middle := d.View();
    LaterComposes(begin, middle, middle);
    if !authorized.Done? {
      return;
    }
    LastFrontierIsTemporary(d.c, ns);
    var removed := RetireKeys(d, complete.value.keys, RetirementMarker(ns));
    LaterComposes(begin, middle, d.View());
    LaterComposes(middle, d.View(), d.View());
    if removed.Done? {
      LaterHas(begin, d.View(), NamespaceComplete(ns));
      SweptFrontierIsShed(d.c, d.View(), ns);
      return Done(complete.value);
    }
  }

  lemma DraftInventoryIsCommitted(c: Config, j: Store)
    requires Good(c, j) && DraftComplete in j.artifacts
    ensures DraftInventory in j.artifacts
  {
    hide Good, StateOf;
    CommittedIsPlanned(c, j, DraftComplete);
  }

  lemma LastFrontierIsTemporary(c: Config, ns: Namespace)
    requires c.Valid()
    ensures var keys := FrontierKeys(c, ns, Layers(ns));
      && keys != [] && Distinct(keys) && forall k :: k in keys <==> IsTemporary(c, k) && BarrierOf(k) == RetirementMarker(ns)
  {
    hide BitsOf;
    InputsAreDistinct(c, ns, Layers(ns));
    forall k | IsTemporary(c, k) && BarrierOf(k) == RetirementMarker(ns) ensures k in FrontierKeys(c, ns, Layers(ns)) {
      FrontierKeyIsMember(c, ns, Layers(ns), k.batch);
    }
  }

  // ---------- one namespace ----------

  /** The namespace stands at `layer`: earlier blocks complete, this one not, nothing authorized. */
  ghost predicate At(c: Config, j: Store, ns: Namespace, layer: nat)
    requires c.Valid()
  {
    && layer <= Layers(ns) && RetirementMarker(ns) !in j.artifacts && Key.NamespaceInputs(ns) in j.artifacts
    && (layer > 0 ==> BlockComplete(ns, layer - 1) in j.artifacts)
    && (layer < Layers(ns) ==> BlockComplete(ns, layer) !in j.artifacts)
  }

  function FrontierAt(c: Config, ns: Namespace, layer: nat): State {
    if layer == 0 then InitialState(c, ns) else BlockState(c, ns, layer - 1)
  }

  /** `Wavefront.latest`: the newest completed block, if any, with its outputs reloaded. Completed
      markers are always a prefix, so the search never reports a gap. */
  method Latest(d: Driver, ns: Namespace) returns (o: Outcome<Option<State>>)
    requires d.Sound() && d.c.Valid() && RetirementMarker(ns) !in d.journal.artifacts && Key.NamespaceInputs(ns) in d.journal.artifacts
    ensures !o.Raised? && (!d.journal.fallible ==> o.Done?)
    ensures o.Done? && o.value.None? ==> At(d.c, d.View(), ns, 0)
    ensures o.Done? && o.value.Some? ==>
      exists l :: 0 < l <= Layers(ns) && o.value.value == BlockState(d.c, ns, l - 1) && At(d.c, d.View(), ns, l)
  {
    hide Good, Config.Valid, BlockState, IsTemporary, InRun;
    var latest: Option<State>, gap := None, false;
    ghost var last: nat := 0;
    for layer := 0 to Layers(ns)
      invariant last <= layer && (gap <==> last < layer)
      invariant latest == if last == 0 then None else Some(BlockState(d.c, ns, last - 1))
      invariant last > 0 ==> BlockComplete(ns, last - 1) in d.journal.artifacts
      invariant last < layer ==> BlockComplete(ns, last) !in d.journal.artifacts
    {
      BlockInRun(d.c, ns, layer);
      hide StateOf;
      var complete :- d.Load(BlockComplete(ns, layer), Kind.Block);
      if complete.None? {
        gap := true;
      } else {
        EarlierBlocks(d.c, d.View(), ns, layer, last);
        BlockStateKeys(d.c, ns, layer);
        InputsAreDistinct(d.c, ns, layer + 1);
        if gap || complete.value.nextLayer != layer + 1 || complete.value.keys == [] {
          return Raised(InventoryChanged);
        }
        latest, last := complete, layer + 1;
      }
    }
    if latest.Some? {
      BlockStateKeys(d.c, ns, last - 1);
      assert last < Layers(ns) ==> BarrierOf(Output(ns, last - 1, 0)) == BlockComplete(ns, last);
      var _ :- CheckOutputs(d, ns, latest.value.nextLayer - 1, latest.value.keys);
      assert At(d.c, d.View(), ns, last) && latest.value == BlockState(d.c, ns, last - 1);
    }
    return Done(latest);
  }

  lemma BlockInRun(c: Config, ns: Namespace, l: nat)
    requires c.Valid() && l < Layers(ns)
    ensures InRun(c, BlockComplete(ns, l)) && !IsTemporary(c, BlockComplete(ns, l))
    ensures StateOf(c, BlockComplete(ns, l)) == BlockState(c, ns, l)
  {
  }

  lemma AtIsReady(c: Config, j: Store, ns: Namespace, layer: nat)
    requires Good(c, j) && c.Valid() && At(c, j, ns, layer) && layer < Layers(ns)
    requires layer > 0 ==> Swept(c, j, BlockComplete(ns, layer - 1))
    ensures Ready(c, j, ns, layer)
  {
    hide Good, StateOf, Swept, IsTemporary;
    CommittedIsPlanned(c, j, Key.NamespaceInputs(ns));
    if layer > 0 {
      CommittedIsPlanned(c, j, BlockComplete(ns, layer - 1));
    }
    forall i | 0 <= i < Width(c, ns) ensures FrontierKey(c, ns, layer, i) in j.artifacts {
      FrontierKeyIsMember(c, ns, layer, i);
    }
  }

  /** A namespace may start: its inputs are complete, and the main one is out of the way. */
  ghost predicate Startable(c: Config, j: Store, ns: Namespace)
    requires c.Valid()
  {
    && CompleteKey(ns) in j.artifacts && Ordered(c, j, Key.NamespaceInputs(ns))
  }

  method BindNamespace(d: Driver, ns: Namespace, initial: State) returns (o: Outcome<()>)
    requires d.Sound() && d.c.Valid() && Startable(d.c, d.View(), ns) && initial == InitialState(d.c, ns)
    modifies d.journal
    ensures !o.Raised? && (!d.journal.fallible ==> o.Done?) && d.Sound() && Progress(old(d.View()), d.View())
    ensures o.Done? ==> Key.NamespaceInputs(ns) in d.journal.artifacts
  {
    hide Good, Config.Valid, Ordered;
    FirstKeysCommitted(d.c, d.View(), ns);
    var previous :- d.Load(Key.NamespaceInputs(ns), Kind.NamespaceInputs);
    if previous.None? {
      o := d.Publish(Key.NamespaceInputs(ns), Kind.NamespaceInputs, initial, initial.keys);
      return;
    } else if previous.value != initial {
      return Raised(InventoryChanged);
    }
    return Done(());
  }

  lemma FirstKeysCommitted(c: Config, j: Store, ns: Namespace)
    requires Good(c, j) && CompleteKey(ns) in j.artifacts
    ensures forall k :: k in FrontierKeys(c, ns, 0) ==> k in j.artifacts
  {
    hide Good, StateOf;
    CommittedIsPlanned(c, j, CompleteKey(ns));
  }

  /** One turn of the layer loop: process the block, then retire what it supersedes. */
  method RunLayer(d: Driver, ns: Namespace, layer: nat, frontier: State) returns (o: Outcome<State>)
    requires d.Sound() && d.c.Valid() && At(d.c, d.View(), ns, layer) && layer < Layers(ns)
    requires layer > 0 ==> Swept(d.c, d.View(), BlockComplete(ns, layer - 1))
    requires frontier == FrontierAt(d.c, ns, layer)
    modifies d.journal
    ensures !o.Raised? && (!d.journal.fallible ==> o.Done?) && d.Sound() && Later(old(d.View()), d.View())
    ensures o.Done? ==> o.value == FrontierAt(d.c, ns, layer + 1) && At(d.c, d.View(), ns, layer + 1)
    ensures o.Done? ==> Swept(d.c, d.View(), BlockComplete(ns, layer))
  {
    hide Good, Config.Valid, Swept, Ready, Later, Closed;
    ghost var begin := d.View();
    LaterComposes(begin, begin, begin);
    AtIsReady(d.c, begin, ns, layer);
    LaterBarrierIsMissing(d.c, begin, ns, layer);
    var block := new Block(ns, layer);
    var replica: Block? := null;
    if d.c.replicas == 2 {
      replica := new Block(ns, layer);
    }
    ReplicasAreOneOrTwo(d.c);
    var processed := Process(d, block, replica, frontier.keys);
    ghost var middle := d.View();
    ClosedFacts(begin, middle, BlockComplete(ns, layer));
    if !processed.Done? {
      return Stopped;
    }
    var removed := RetireBlockTemporaries(d, ns, layer);
    LaterComposes(begin, middle, d.View());
    LaterComposes(middle, d.View(), d.View());
    if !removed.Done? {
      return Stopped;
    }
    return Done(processed.value);
  }

  lemma ReplicasAreOneOrTwo(c: Config)
    requires c.Valid()
    ensures c.replicas == 1 || c.replicas == 2
  {
  }

  lemma ClosedFacts(j: Store, n: Store, b: Key)
    requires Closed(j, n, b)
    ensures Later(j, n) && forall k :: Closing(k) && k in n.artifacts ==> k in j.artifacts || k == b
  {
  }

  /** Where to resume: at the newest block, whose retirement is finished first. */
  method Resume(d: Driver, ns: Namespace, initial: State) returns (o: Outcome<State>)
    requires d.Sound() && d.c.Valid() && RetirementMarker(ns) !in d.journal.artifacts && Key.NamespaceInputs(ns) in d.journal.artifacts
    requires initial == InitialState(d.c, ns)
    modifies d.journal
    ensures !o.Raised? && (!d.journal.fallible ==> o.Done?) && d.Sound() && d.journal.artifacts == old(d.journal.artifacts)
    ensures o.Done? ==> o.value.Handoff? && o.value == FrontierAt(d.c, ns, o.value.nextLayer) && At(d.c, d.View(), ns, o.value.nextLayer)
    ensures o.Done? && o.value.nextLayer > 0 ==> Swept(d.c, d.View(), BlockComplete(ns, o.value.nextLayer - 1))
  {
    hide Good, Config.Valid, Swept;
    var latest :- Latest(d, ns);
    if latest.Some? {
      var frontier := latest.value;
      ghost var l :| 0 < l <= Layers(ns) && frontier == BlockState(d.c, ns, l - 1) && At(d.c, d.View(), ns, l);
      var _ :- RetireBlockTemporaries(d, ns, frontier.nextLayer - 1);
      return Done(frontier);
    }
    return Done(initial);
  }

  /** `run_namespace`. */
  method RunNamespace(d: Driver, ns: Namespace, initial: State) returns (o: Outcome<State>)
    requires d.Sound() && d.c.Valid() && Startable(d.c, d.View(), ns) && initial == InitialState(d.c, ns)
    modifies d.journal
    ensures !o.Raised? && (!d.journal.fallible ==> o.Done?) && d.Sound() && Later(old(d.View()), d.View())
    ensures o.Done? ==> o.value == NamespaceState(d.c, ns) && NamespaceComplete(ns) in d.journal.artifacts
  {
    hide Good, Config.Valid, Startable, Later, Progress, InitialState, NamespaceState, Swept, At, IsTemporary;
    ghost var begin := d.View();
    LaterComposes(begin, begin, begin);
    o := Stopped;
    var bound := BindNamespace(d, ns, initial);
    ghost var second := d.View();
    ProgressIsLater(begin, second);
    if !bound.Done? {
      return;
    }
    MarkerIsPlanned(d.c, ns);
    hide StateOf;
    var marker :- d.Load(RetirementMarker(ns), Kind.NamespaceRetirement);
    if marker.Some? {
      MarkerHandsOff(d.c, second, ns);
      o := RetireNamespaceFrontier(d, ns);
      LaterComposes(begin, second, d.View());
      LaterHas(second, d.View(), NamespaceComplete(ns));
      return;
    }
    o := RunLayers(d, ns, initial);
    LaterComposes(begin, second, d.View());
  }

  lemma ProgressIsLater(j: Store, n: Store)
    requires Progress(j, n)
    ensures Later(j, n)
  {
  }

  lemma LaterHas(j: Store, n: Store, k: Key)
    requires Later(j, n) && k in j.artifacts
    ensures k in n.artifacts
  {
  }

  lemma MarkerIsPlanned(c: Config, ns: Namespace)
    requires c.Valid()
    ensures InRun(c, RetirementMarker(ns)) && !IsTemporary(c, RetirementMarker(ns))
  {
  }

  lemma MarkerHandsOff(c: Config, j: Store, ns: Namespace)
    requires Good(c, j) && RetirementMarker(ns) in j.artifacts
    ensures HandedOff(j, ns)
  {
    hide Good, StateOf;
    CommittedIsPlanned(c, j, RetirementMarker(ns));
  }

  method RunLayers(d: Driver, ns: Namespace, initial: State) returns (o: Outcome<State>)
    requires d.Sound() && d.c.Valid() && RetirementMarker(ns) !in d.journal.artifacts && Key.NamespaceInputs(ns) in d.journal.artifacts
    requires initial == InitialState(d.c, ns)
    modifies d.journal
    ensures !o.Raised? && (!d.journal.fallible ==> o.Done?) && d.Sound() && Later(old(d.View()), d.View())
    ensures o.Done? ==> o.value == NamespaceState(d.c, ns) && NamespaceComplete(ns) in d.journal.artifacts
  {
    hide Good, Config.Valid, Later, Swept, FrontierAt, At, NamespaceState;
    ghost var begin := d.View();
    LaterComposes(begin, begin, begin);
    o := Resume(d, ns, initial);
    LaterComposes(begin, d.View(), d.View());
    if !o.Done? {
      return;
    }
    var frontier, layer := o.value, o.value.nextLayer;
    AtBound(d.c, d.View(), ns, layer);
    while layer < Layers(ns)
      invariant d.Sound() && Later(begin, d.View()) && layer <= Layers(ns)
      invariant At(d.c, d.View(), ns, layer) && frontier == FrontierAt(d.c, ns, layer)
      invariant layer > 0 ==> Swept(d.c, d.View(), BlockComplete(ns, layer - 1))
    {
      ghost var middle := d.View();
      o := RunLayer(d, ns, layer, frontier);
      LaterComposes(begin, middle, d.View());
      if !o.Done? {
        return;
      }
      frontier, layer := o.value, layer + 1;
    }
    ghost var middle := d.View();
    AtEnd(d.c, middle, ns);
    o := CompleteNamespace(d, ns, frontier);
    LaterComposes(begin, middle, d.View());
  }

  lemma AtBound(c: Config, j: Store, ns: Namespace, layer: nat)
    requires c.Valid() && At(c, j, ns, layer)
    ensures layer <= Layers(ns)
  {
  }

  lemma AtEnd(c: Config, j: Store, ns: Namespace)
    requires c.Valid() && At(c, j, ns, Layers(ns))
    ensures FrontierAt(c, ns, Layers(ns)) == NamespaceState(c, ns)
    ensures BlockComplete(ns, Last(ns)) in j.artifacts && Key.NamespaceInputs(ns) in j.artifacts
  {
  }

  method CompleteNamespace(d: Driver, ns: Namespace, frontier: State) returns (o: Outcome<State>)
    requires d.Sound() && d.c.Valid() && frontier == NamespaceState(d.c, ns) && Swept(d.c, d.View(), BlockComplete(ns, Last(ns)))
    requires BlockComplete(ns, Last(ns)) in d.journal.artifacts && Key.NamespaceInputs(ns) in d.journal.artifacts
    modifies d.journal
    ensures !o.Raised? && (!d.journal.fallible ==> o.Done?) && d.Sound() && Later(old(d.View()), d.View())
    ensures o.Done? ==> o.value == NamespaceState(d.c, ns) && NamespaceComplete(ns) in d.journal.artifacts
  {
    hide Good, Config.Valid, Swept, NamespaceState;
    var key := NamespaceComplete(ns);
    var existing :- d.Load(key, Kind.Namespace);
    if existing.None? {
      var parents := [Key.NamespaceInputs(ns), BlockComplete(ns, Layers(ns) - 1)];
      var _ :- d.Publish(key, Kind.Namespace, frontier, parents);
    } else if existing.value != frontier {
      return Raised(InventoryChanged);
    }
    return Done(frontier);
  }

  // ---------- the whole run ----------

  /** The corpus inputs, prepared now or earlier. */
  method CorpusInputs(d: Driver) returns (o: Outcome<State>)
    requires d.Sound() && d.c.Valid()
    modifies d.journal
    ensures !o.Raised? && (!d.journal.fallible ==> o.Done?) && d.Sound() && Later(old(d.View()), d.View())
    ensures o.Done? ==> o.value == InitialState(d.c, Base) && CorpusComplete in d.journal.artifacts
  {
    hide Good, Config.Valid, Progress, InitialState;
    LaterComposes(d.View(), d.View(), d.View());
    var corpus :- d.Load(CorpusInventory, Kind.Inventory);
    if corpus.Some? && corpus.value != Corpus(d.c.records) {
      return Raised(InventoryChanged);
    }
    var initial :- d.Load(CorpusComplete, Kind.Inputs);
    if initial.Some? {
      return Done(initial.value);
    }
    ghost var begin := d.View();
    o := PrepareFrontiers(d);
    ProgressIsLater(begin, d.View());
  }

  /** The draft inputs, handed off now or earlier. */
  method DraftInputs(d: Driver, main: State) returns (o: Outcome<State>)
    requires d.Sound() && d.c.Valid() && NamespaceComplete(Base) in d.journal.artifacts && main == NamespaceState(d.c, Base)
    modifies d.journal
    ensures !o.Raised? && (!d.journal.fallible ==> o.Done?) && d.Sound() && Later(old(d.View()), d.View())
    ensures o.Done? ==> o.value == InitialState(d.c, Mtp) && DraftComplete in d.journal.artifacts
  {
    hide Good, Config.Valid, Progress, InitialState, NamespaceState;
    LaterComposes(d.View(), d.View(), d.View());
    HandoffStates(d.c, Base);
    var inventory :- d.Load(DraftInventory, Kind.Inventory);
    if inventory.Some? && inventory.value != DraftPlan(d.c.positions, main) {
      return Raised(InventoryChanged);
    }
    var initial :- d.Load(DraftComplete, Kind.Inputs);
    if initial.Some? {
      return Done(initial.value);
    }
    ghost var begin := d.View();
    o := PrepareDraftFrontiers(d, main);
    ProgressIsLater(begin, d.View());
  }

  method CompleteRun(d: Driver, main: State, draft: State) returns (o: Outcome<State>)
    requires d.Sound() && d.c.Valid() && Swept(d.c, d.View(), RetirementMarker(Mtp))
    requires main == NamespaceState(d.c, Base) && draft == NamespaceState(d.c, Mtp)
    requires forall ns :: NamespaceComplete(ns) in d.journal.artifacts
    modifies d.journal
    ensures !o.Raised? && (!d.journal.fallible ==> o.Done?) && d.Sound() && Later(old(d.View()), d.View())
    ensures o.Done? ==> QuantizationComplete in d.journal.artifacts
  {
    hide Good, Config.Valid, Swept, NamespaceState;
    LaterComposes(d.View(), d.View(), d.View());
    var result := Completion(main, draft);
    var previous :- d.Load(QuantizationComplete, Quantization);
    if previous.None? {
      var _ :- d.Publish(QuantizationComplete, Quantization, result, [NamespaceComplete(Base), NamespaceComplete(Mtp)]);
    } else if previous.value != result {
      return Raised(InventoryChanged);
    }
    return Done(result);
  }

  /** `quantize_namespaces`, started or resumed on whatever an earlier attempt left. None of the code's
      own checks ever refuses: it completes, or it stops with the journal still good. */
  method QuantizeNamespaces(d: Driver) returns (o: Outcome<State>)
    requires d.Sound() && d.c.Valid()
    modifies d.journal
    ensures !o.Raised? && (!d.journal.fallible ==> o.Done?) && d.Sound() && Later(old(d.View()), d.View())
    ensures forall k :: k in d.journal.artifacts ==> Means(d.c, d.journal.artifacts, k)
    ensures o.Done? ==> QuantizationComplete in d.journal.artifacts
  {
    hide Good, Config.Valid, Later, Means;
    o := BothNamespaces(d);
    forall k | k in d.journal.artifacts ensures Means(d.c, d.journal.artifacts, k) {
      EveryRecordMeans(d.c, d.View(), k);
    }
  }

  /** The main namespace, and then the draft's. */
  method BothNamespaces(d: Driver) returns (o: Outcome<State>)
    requires d.Sound() && d.c.Valid()
    modifies d.journal
    ensures !o.Raised? && (!d.journal.fallible ==> o.Done?) && d.Sound() && Later(old(d.View()), d.View())
    ensures o.Done? ==> QuantizationComplete in d.journal.artifacts
  {
    hide Good, Config.Valid, Later, InitialState, NamespaceState, Swept;
    ghost var begin := d.View();
    var initial := CorpusInputs(d);
    ghost var first := d.View();
    if !initial.Done? {
      return Stopped;
    }
    var main := RunNamespace(d, Base, initial.value);
    ghost var second := d.View();
    LaterComposes(begin, first, second);
    if !main.Done? {
      return Stopped;
    }
    o := QuantizeDraft(d, main.value);
    LaterComposes(begin, second, d.View());
  }

  /** From the complete main namespace to the end. */
  method QuantizeDraft(d: Driver, main: State) returns (o: Outcome<State>)
    requires d.Sound() && d.c.Valid() && NamespaceComplete(Base) in d.journal.artifacts && main == NamespaceState(d.c, Base)
    modifies d.journal
    ensures !o.Raised? && (!d.journal.fallible ==> o.Done?) && d.Sound() && Later(old(d.View()), d.View())
    ensures o.Done? ==> QuantizationComplete in d.journal.artifacts
  {
    hide Good, Config.Valid, Later, InitialState, NamespaceState, Swept;
    ghost var begin := d.View();
    var initial := DraftInputs(d, main);
    ghost var first := d.View();
    if !initial.Done? {
      return Stopped;
    }
    LaterHas(begin, first, NamespaceComplete(Base));
    var retired := RetireNamespaceFrontier(d, Base);
    ghost var second := d.View();
    LaterComposes(begin, first, second);
    if !retired.Done? {
      return Stopped;
    }
    LaterHas(first, second, NamespaceComplete(Base));
    LaterHas(first, second, DraftComplete);
    var draft := RunNamespace(d, Mtp, initial.value);
    ghost var third := d.View();
    LaterComposes(begin, second, third);
    if !draft.Done? {
      return Stopped;
    }
    LaterHas(second, third, NamespaceComplete(Base));
    var last := RetireNamespaceFrontier(d, Mtp);
    ghost var fourth := d.View();
    LaterComposes(begin, third, fourth);
    if !last.Done? {
      return Stopped;
    }
    LaterHas(third, fourth, NamespaceComplete(Base));
    LaterHas(third, fourth, NamespaceComplete(Mtp));
    BothComplete(fourth);
    o := CompleteRun(d, main, draft.value);
    LaterComposes(begin, fourth, d.View());
  }

  lemma BothComplete(j: Store)
    requires NamespaceComplete(Base) in j.artifacts && NamespaceComplete(Mtp) in j.artifacts
    ensures forall ns :: NamespaceComplete(ns) in j.artifacts
  {
    forall ns ensures NamespaceComplete(ns) in j.artifacts {
      if ns == Base {} else {}
    }
  }

  /** A run from an empty disk: any number of lives that may be cut short anywhere, each opening what the
      one before left, and then one in which nothing fails. Every life has a subset size and a number of
      workers of its own. The last one completes, with the one disk that every completed run has. */
  method RunToCompletion(c: Config, cut: seq<(Subset, Workers)>, last: (Subset, Workers)) returns (d: Driver)
    requires c.Valid()
    ensures fresh(d) && fresh(d.journal) && d.c == c && d.Sound()
    ensures QuantizationComplete in d.journal.artifacts
    ensures forall k :: k in d.journal.artifacts ==> Means(c, d.journal.artifacts, k) && KindDecides(d.View(), k)
    ensures forall n :: Good(c, n) && QuantizationComplete in n.artifacts ==> n == d.View()
  {
    hide Good, Config.Valid, Means, KindDecides;
    GoodStart(c);
    var disk: Store := Durable(map[], map[], map[]);
    for i := 0 to |cut|
      invariant Good(c, disk)
    {
      disk := OneLife(c, disk, cut[i].0, cut[i].1);
    }
    var journal := new RunStore<Key, Key, File>(disk, false);
    d := new Driver(c, journal, last.0, last.1);
    var o := QuantizeNamespaces(d);
    OnlyOutcome(c, d.View());
    forall k | k in d.journal.artifacts ensures KindDecides(d.View(), k) {
      CompletionByKind(c, d.View(), k);
    }
  }

  /** `OneOutcome`, seen from one completed run. */
  lemma OnlyOutcome(c: Config, j: Store)
    requires Good(c, j) && QuantizationComplete in j.artifacts
    ensures forall n :: Good(c, n) && QuantizationComplete in n.artifacts ==> n == j
  {
    hide Good;
    forall n | Good(c, n) && QuantizationComplete in n.artifacts ensures n == j {
      OneOutcome(c, n, j);
    }
  }

  /** A life that may end anywhere leaves a good disk. */
  method OneLife(c: Config, disk: Store, subset: Subset, workers: Workers) returns (left: Store)
    requires c.Valid() && Good(c, disk)
    ensures Good(c, left)
  {
    hide Good, Config.Valid;
    var journal := new RunStore<Key, Key, File>(disk, true);
    var d := new Driver(c, journal, subset, workers);
    var o := QuantizeNamespaces(d);
    left := Durable(journal.artifacts, journal.retirements, journal.files);
  }
}
