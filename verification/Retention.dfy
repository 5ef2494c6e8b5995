/** Giving up superseded payloads, only behind a completion that was verified. */
module Retention {
  import opened BlockDriver
  import opened Driver
  import opened Journal
  import opened Recipe
  import opened RunInvariant
  import opened RunMeaning
  import opened RunOutcome
  import opened RunPlan
  import opened Wavefront

  // ---------- what the block keeps ----------

  ghost predicate IsSelected(c: Config, ns: Namespace, l: nat, k: Key)
    requires c.Valid()
  {
    k.Candidate? && k.ns == ns && k.layer == l && k.slot.expert < Experts(ns) && k.bits == BitsOf(c, ns, l, k.slot)
  }

  /** Entry `i` of a committed selection: a projection that is still there. */
  lemma SelectionIsKept(c: Config, j: Store, ns: Namespace, l: nat, ph: Phase, i: nat)
    requires Good(c, j) && c.Valid() && l < Layers(ns) && PhaseComplete(ns, l, ph) in j.artifacts && i < |SlotList(ph, Experts(ns))|
    ensures var slots := SlotList(ph, Experts(ns));
      var k := SelectedKey(c, ns, l, slots[i]);
      && |SelectionOf(c, ns, l, slots)| == |slots| && SelectionOf(c, ns, l, slots)[i] == (slots[i], k)
      && InRun(c, k) && KindOf(k) == Kind.Projection && Live(j, k)
      && SelectedKeys(c, ns, l, slots[..i + 1]) == SelectedKeys(c, ns, l, slots[..i]) + [k]
  {
    hide Good, Config.Valid, SelectionOf, SelectedKeys, SelectedKey, StateOf, InRun;
    var slots := SlotList(ph, Experts(ns));
    assert slots[i] in slots;
    SelectionGrows(c, ns, l, slots, i, map[]);
    SelectionAt(c, ns, l, slots, i);
    SelectedIsKept(c, j, ns, l, slots[i]);
  }

  /** Load every selected projection of a phase, and collect the keys. */
  method VerifyPhase(d: Driver, ns: Namespace, l: nat, ph: Phase) returns (o: Outcome<set<Key>>)
    requires d.Sound() && d.c.Valid() && l < Layers(ns) && PhaseComplete(ns, l, ph) in d.journal.artifacts
    ensures !o.Raised? && (!d.journal.fallible ==> o.Done?)
    ensures o.Done? ==> forall k :: k in o.value <==> IsSelected(d.c, ns, l, k) && PhaseOf(k.slot.projection) == ph
  {
    hide Good, Config.Valid, SelectionOf, SelectedKeys, SelectedKey, SlotList, StateOf, InRun, IsTemporary, IsSelected, KindOf;
    var selection :- LoadSelection(d, ns, l, ph, InvalidRetention);
    ghost var slots := SlotList(ph, Experts(ns));
    SelectionSize(d.c, ns, l, slots);
    SelectionSize(d.c, ns, l, slots[..0]);
    var selected: set<Key> := {};
    for i := 0 to |selection|
      invariant selected == Members(SelectedKeys(d.c, ns, l, slots[..i]))
    {
      SelectionIsKept(d.c, d.View(), ns, l, ph, i);
      var key := selection[i].1;
      var projection :- d.Load(key, Kind.Projection);
      if projection.None? {
        return Raised(InvalidRetention);
      }
      selected := selected + {key};
    }
    assert slots[..|slots|] == slots;
    SelectedSet(d.c, ns, l, ph);
    return Done(selected);
  }

  lemma SelectedSet(c: Config, ns: Namespace, l: nat, ph: Phase)
    requires c.Valid()
    ensures forall k :: k in Members(SelectedKeys(c, ns, l, SlotList(ph, Experts(ns)))) <==>
      IsSelected(c, ns, l, k) && PhaseOf(k.slot.projection) == ph
  {
    hide Config.Valid, BitsOf;
    var slots := SlotList(ph, Experts(ns));
    var selected := SelectedKeys(c, ns, l, slots);
    forall k | k in selected ensures IsSelected(c, ns, l, k) && PhaseOf(k.slot.projection) == ph {
      var n :| 0 <= n < |slots| && k == selected[n];
      assert slots[n] in slots;
    }
    forall k | IsSelected(c, ns, l, k) && PhaseOf(k.slot.projection) == ph ensures k in selected {
      assert k.slot in slots;
      var n :| 0 <= n < |slots| && slots[n] == k.slot;
      assert k == selected[n];
    }
  }

  /** The replacement frontier, verified payload by payload. */
  method VerifyOutputs(d: Driver, ns: Namespace, l: nat, keys: seq<Key>) returns (o: Outcome<()>)
    requires d.Sound() && d.c.Valid() && BlockComplete(ns, l) in d.journal.artifacts && BarrierOf(Output(ns, l, 0)) !in d.journal.artifacts
    requires keys == FrontierKeys(d.c, ns, l + 1)
    ensures !o.Raised? && (!d.journal.fallible ==> o.Done?)
  {
    hide Good, Config.Valid, FrontierTerm;
    for i := 0 to |keys| {
      OutputIsLive(d.c, d.View(), ns, l, i);
      GoodIsValid(d.c, d.View());
      LiveIsIntact(d.View(), keys[i]);
      LoadFacts(d.c, d.View(), keys[i]);
      var record := d.journal.Get(keys[i], true);
      if record.Raised? {
        return Raised(CorruptPayload);
      }
      if record.value.None? || record.value.value.kind != Replay {
        return Raised(InvalidRetention);
      }
      hide InRun, StateOf, IsTemporary;
      var state :- d.Load(keys[i], Replay);
      if state.None? || state.value.nextLayer != l + 1 {
        return Raised(InvalidRetention);
      }
    }
    return Done(());
  }

  lemma GoodIsValid(c: Config, j: Store)
    requires Good(c, j)
    ensures Valid(j)
  {
  }

  // ---------- what the block gives up ----------

  /** Keys under the block's root. */
  predicate UnderRoot(k: Key, ns: Namespace, l: nat) {
    InBlock(k) && k.ns == ns && k.layer == l
  }

  /** The payload kinds a block sheds: captures, and projections that were not selected. */
  predicate Shed(kind: Kind, selected: bool) {
    kind == Kind.Routed || kind == Hessian || (kind == Kind.Projection && !selected)
  }

  /** The scan over the block's committed keys. */
  method CollectTemporaries(d: Driver, ns: Namespace, l: nat, selected: set<Key>) returns (keys: seq<Key>)
    ensures Distinct(keys)
    ensures forall k :: k in keys <==>
      k in d.journal.artifacts && UnderRoot(k, ns, l) && Shed(d.journal.artifacts[k].kind, k in selected)
  {
    keys := [];
    var rest := d.journal.artifacts.Keys;
    while rest != {}
      invariant Distinct(keys) && rest <= d.journal.artifacts.Keys
      invariant forall k :: k in keys <==>
        k in d.journal.artifacts && k !in rest && UnderRoot(k, ns, l) && Shed(d.journal.artifacts[k].kind, k in selected)
      decreases rest
    {
      var k :| k in rest;
      rest := rest - {k};
      if UnderRoot(k, ns, l) && Shed(d.journal.artifacts[k].kind, k in selected) {
        keys := keys + [k];
      }
    }
  }

  /** The inputs of a block together with what the scan finds are exactly the temporaries behind it. */
  lemma CollectedAreTemporaries(c: Config, j: Store, ns: Namespace, l: nat, k: Key, selected: bool)
    requires Good(c, j) && BlockComplete(ns, l) in j.artifacts
    requires selected <==> IsSelected(c, ns, l, k)
    ensures k in FrontierKeys(c, ns, l) || (k in j.artifacts && UnderRoot(k, ns, l) && Shed(j.artifacts[k].kind, selected))
      <==> IsTemporary(c, k) && BarrierOf(k) == BlockComplete(ns, l)
    ensures k in FrontierKeys(c, ns, l) ==> !UnderRoot(k, ns, l)
  {
    hide Good, StateOf, BitsOf, Parents, FileOf;
    GoodConfig(c, j);
    CommittedIsPlanned(c, j, BlockComplete(ns, l));
    if k in FrontierKeys(c, ns, l) {
      InputIsTemporary(c, ns, l, k);
    }
    if k in j.artifacts {
      CommittedIsPlanned(c, j, k);
    }
    if IsTemporary(c, k) && BarrierOf(k) == BlockComplete(ns, l) {
      TemporaryIsAncestor(c, j, k);
      TemporaryIsInput(c, ns, l, k);
    }
  }

  lemma InputIsTemporary(c: Config, ns: Namespace, l: nat, k: Key)
    requires c.Valid() && l < Layers(ns) && k in FrontierKeys(c, ns, l)
    ensures IsTemporary(c, k) && BarrierOf(k) == BlockComplete(ns, l) && KindOf(k) == Replay && !UnderRoot(k, ns, l)
  {
    var i :| 0 <= i < Width(c, ns) && FrontierKeys(c, ns, l)[i] == k;
    assert k == FrontierKey(c, ns, l, i);
  }

  lemma TemporaryIsInput(c: Config, ns: Namespace, l: nat, k: Key)
    requires c.Valid() && IsTemporary(c, k) && BarrierOf(k) == BlockComplete(ns, l)
    ensures UnderRoot(k, ns, l) || k in FrontierKeys(c, ns, l)
  {
    hide BitsOf;
    if !UnderRoot(k, ns, l) {
      FrontierKeyIsMember(c, ns, l, InputBatch(c, k));
    }
  }

  lemma ListedAreTemporaries(c: Config, j: Store, ns: Namespace, l: nat, inputs: seq<Key>, found: seq<Key>, selected: set<Key>)
    requires Good(c, j) && c.Valid() && BlockComplete(ns, l) in j.artifacts && inputs == FrontierKeys(c, ns, l) && Distinct(found)
    requires forall k :: k in selected <==> IsSelected(c, ns, l, k)
    requires forall k :: k in found <==> k in j.artifacts && UnderRoot(k, ns, l) && Shed(j.artifacts[k].kind, k in selected)
    ensures inputs + found != [] && Distinct(inputs + found)
    ensures forall k :: k in inputs + found <==> IsTemporary(c, k) && BarrierOf(k) == BlockComplete(ns, l)
  {
    hide Good, IsSelected, Config.Valid, FrontierKeys, IsTemporary, BarrierOf, UnderRoot, Shed;
    InputsAreDistinct(c, ns, l);
    forall k
      ensures k in inputs + found <==> IsTemporary(c, k) && BarrierOf(k) == BlockComplete(ns, l)
      ensures k in inputs ==> k !in found
    {
      CollectedAreTemporaries(c, j, ns, l, k, k in selected);
    }
    DistinctJoin(inputs, found);
  }

  lemma DistinctJoin<T>(a: seq<T>, b: seq<T>)
    requires Distinct(a) && Distinct(b) && forall x :: x in a ==> x !in b
    ensures Distinct(a + b)
  {
    forall i, j | 0 <= i < j < |a + b| ensures (a + b)[i] != (a + b)[j] {
      if i < |a| <= j {
        assert (a + b)[i] in a && (a + b)[j] in b;
      }
    }
  }

  /** `retire_block_temporaries`: verify what replaces them, then give them up. */
  method RetireBlockTemporaries(d: Driver, ns: Namespace, l: nat) returns (o: Outcome<nat>)
    requires d.Sound() && d.c.Valid() && l < Layers(ns)
    requires BlockComplete(ns, l) in d.journal.artifacts && BarrierOf(Output(ns, l, 0)) !in d.journal.artifacts
    modifies d.journal
    ensures !o.Raised? && (!d.journal.fallible ==> o.Done?) && d.Sound() && d.journal.artifacts == old(d.journal.artifacts)
    ensures o.Done? ==> Swept(d.c, d.View(), BlockComplete(ns, l))
    ensures o.Done? ==> BlockShed(d.View(), ns, l)
    ensures SelectionKept(d.View(), ns, l) && OutputsKept(d.View(), ns, l)
  {
    hide Good, Config.Valid, IsSelected, FrontierKeys, IsTemporary, BarrierOf, UnderRoot, Shed, Swept, BlockState, BlockShed, SelectionKept, OutputsKept;
    BlockKeeps(d.c, d.View(), ns, l);
    BlockIsCommitted(d.c, d.View(), ns, l);
    var complete :- d.Load(BlockComplete(ns, l), Kind.Block);
    if complete.None? {
      return Raised(InvalidRetention);
    }
    BlockStateKeys(d.c, ns, l);
    var outputs := complete.value.keys;
    var _ :- VerifyOutputs(d, ns, l, outputs);
    var first :- VerifyPhase(d, ns, l, GateUp);
    var second :- VerifyPhase(d, ns, l, Down);
    var selected := first + second;
    EitherPhase(d.c, ns, l, first, second);
    o := RetireListed(d, ns, l, outputs, selected);
    BlockKeeps(d.c, d.View(), ns, l);
    if o.Done? {
      SweptIsShed(d.c, d.View(), ns, l);
    }
  }

  lemma EitherPhase(c: Config, ns: Namespace, l: nat, first: set<Key>, second: set<Key>)
    requires c.Valid()
    requires forall k :: k in first <==> IsSelected(c, ns, l, k) && PhaseOf(k.slot.projection) == GateUp
    requires forall k :: k in second <==> IsSelected(c, ns, l, k) && PhaseOf(k.slot.projection) == Down
    ensures forall k :: k in first + second <==> IsSelected(c, ns, l, k)
  {
  }

  lemma BlockIsCommitted(c: Config, j: Store, ns: Namespace, l: nat)
    requires Good(c, j) && BlockComplete(ns, l) in j.artifacts
    ensures c.Valid() && l < Layers(ns) && InRun(c, BlockComplete(ns, l)) && InRun(c, InputInventory(ns, l))
    ensures StateOf(c, BlockComplete(ns, l)) == BlockState(c, ns, l)
    ensures StateOf(c, InputInventory(ns, l)) == KeyList(FrontierKeys(c, ns, l), c.replicas)
    ensures !IsTemporary(c, BlockComplete(ns, l)) && !IsTemporary(c, InputInventory(ns, l))
    ensures InputInventory(ns, l) in j.artifacts
    ensures forall ph :: PhaseComplete(ns, l, ph) in j.artifacts
  {
    hide Good, FrontierTerm;
    GoodConfig(c, j);
    BlocksArePrefix(c, j, ns, l);
    CommittedIsPlanned(c, j, BlockComplete(ns, l));
    PhasesCommitted(c, j, ns, l);
  }

  method RetireListed(d: Driver, ns: Namespace, l: nat, outputs: seq<Key>, selected: set<Key>) returns (o: Outcome<nat>)
    requires d.Sound() && d.c.Valid() && BlockComplete(ns, l) in d.journal.artifacts
    requires outputs == FrontierKeys(d.c, ns, l + 1) && forall k :: k in selected <==> IsSelected(d.c, ns, l, k)
    modifies d.journal
    ensures !o.Raised? && (!d.journal.fallible ==> o.Done?) && d.Sound() && d.journal.artifacts == old(d.journal.artifacts)
    ensures o.Done? ==> Swept(d.c, d.View(), BlockComplete(ns, l))
  {
    hide Good, Config.Valid, IsSelected, FrontierKeys, IsTemporary, BarrierOf, UnderRoot, Shed, Swept, StateOf;
    BlockIsCommitted(d.c, d.View(), ns, l);
    var inputs :- d.Load(InputInventory(ns, l), Kind.Inventory);
    OutputsAreOther(d.c, ns, l);
    if inputs.None? || outputs == [] || Members(inputs.value.keys) * Members(outputs) != {} {
      return Raised(InvalidRetention);
    }
    var found := CollectTemporaries(d, ns, l, selected);
    var keys := inputs.value.keys + found;
    ListedAreTemporaries(d.c, d.View(), ns, l, inputs.value.keys, found, selected);
    KeptAreNotListed(d.c, ns, l, keys, selected);
    if selected * Members(keys) != {} || Members(outputs) * Members(keys) != {} {
      return Raised(InvalidRetention);
    }
    o := RetireKeys(d, keys, BlockComplete(ns, l));
  }

  lemma OutputsAreOther(c: Config, ns: Namespace, l: nat)
    requires c.Valid() && l < Layers(ns)
    ensures FrontierKeys(c, ns, l + 1) != []
    ensures Members(FrontierKeys(c, ns, l)) * Members(FrontierKeys(c, ns, l + 1)) == {}
  {
    forall k | k in FrontierKeys(c, ns, l) ensures k !in FrontierKeys(c, ns, l + 1) {
      InputIsTemporary(c, ns, l, k);
      OutputsHaveLaterBarrier(c, ns, l);
    }
    InputsAreDistinct(c, ns, l + 1);
  }

  lemma OutputsHaveLaterBarrier(c: Config, ns: Namespace, l: nat)
    requires c.Valid() && l < Layers(ns)
    ensures forall k :: k in FrontierKeys(c, ns, l + 1) ==> k.Output? && k.layer == l && BarrierOf(k) != BlockComplete(ns, l)
  {
  }

  lemma KeptAreNotListed(c: Config, ns: Namespace, l: nat, keys: seq<Key>, selected: set<Key>)
    requires c.Valid() && l < Layers(ns) && forall k :: k in selected <==> IsSelected(c, ns, l, k)
    requires forall k :: k in keys <==> IsTemporary(c, k) && BarrierOf(k) == BlockComplete(ns, l)
    ensures selected * Members(keys) == {} && Members(FrontierKeys(c, ns, l + 1)) * Members(keys) == {}
  {
    hide Config.Valid, BitsOf;
    OutputsHaveLaterBarrier(c, ns, l);
  }

  /** Hand all of a barrier's temporaries to the journal. */
  method RetireKeys(d: Driver, keys: seq<Key>, barrier: Key) returns (o: Outcome<nat>)
    requires d.Sound() && d.c.Valid() && barrier in d.journal.artifacts && Closing(barrier)
    requires keys != [] && Distinct(keys) && forall k :: k in keys <==> IsTemporary(d.c, k) && BarrierOf(k) == barrier
    modifies d.journal
    ensures !o.Raised? && (!d.journal.fallible ==> o.Done?) && d.Sound() && d.journal.artifacts == old(d.journal.artifacts)
    ensures o.Done? ==> Swept(d.c, d.View(), barrier)
  {
    hide Good, Config.Valid, IsTemporary, BarrierOf, Swept, RetireAccepts;
    ghost var before := d.View();
    RetirementIsAccepted(d.c, before, keys, barrier);
    GoodIsValid(d.c, before);
    o := d.journal.RetireFiles(keys, barrier);
    if o.Done? {
      RetiringKeepsGood(d.c, before, keys, barrier, |keys|);
      RetiringSweeps(d.c, before, keys, barrier);
    } else {
      InterruptedIsGood(d.c, before, keys, barrier, d.View());
    }
  }

  lemma InterruptedIsGood(c: Config, j: Store, keys: seq<Key>, barrier: Key, n: Store)
    requires Good(c, j) && RetireAccepts(j, keys, barrier) && Interrupted(j, keys, barrier, n)
    requires forall k :: k in keys ==> IsTemporary(c, k) && BarrierOf(k) == barrier
    ensures Good(c, n)
  {
    hide Good, RetireAccepts, RetiredTo;
    if n != j {
      var m :| 0 <= m <= |keys| && n == RetiredTo(j, keys, barrier, m);
      RetiringKeepsGood(c, j, keys, barrier, m);
    }
  }
}
