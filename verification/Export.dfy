/** Binding a finished run's selected projections for the export. */
module Export {
  import opened BlockDriver
  import opened Driver
  import opened Journal
  import opened Recipe
  import opened RunInvariant
  import opened RunMeaning
  import opened RunOutcome
  import opened RunPlan
  import opened Sorting

  function MatrixOf(ns: Namespace, l: nat, s: Slot): Matrix {
    Matrix(ns, l, s.expert, s.projection)
  }

  function SlotOf(m: Matrix): Slot {
    Slot(m.expert, m.projection)
  }

  /** The binding of exactly the routed matrices that satisfy a test. */
  ghost predicate Binds(c: Config, selected: map<Matrix, Key>, ns: Namespace, l: nat, ph: Phase, experts: nat)
    requires c.Valid()
  {
    && (forall m :: m in selected <==> m.ns == ns && m.layer == l && m.expert < experts && PhaseOf(m.projection) == ph)
    && (forall m :: m in selected ==> selected[m] == SelectedKey(c, ns, l, SlotOf(m)))
  }

  /** One phase: every expected slot once, each bound to a candidate of that slot. */
  method CollectPhase(d: Driver, ns: Namespace, l: nat, ph: Phase) returns (o: Outcome<map<Matrix, Key>>)
    requires d.Sound() && d.c.Valid() && l < Layers(ns) && PhaseComplete(ns, l, ph) in d.journal.artifacts
    ensures !o.Raised? && (!d.journal.fallible ==> o.Done?)
    ensures o.Done? ==> Binds(d.c, o.value, ns, l, ph, Experts(ns))
  {
    hide Good, Config.Valid, SelectionOf, SlotList, BitsOf, SelectedKey, Binds;
    var marker :- d.Load(PhaseComplete(ns, l, ph), Kind.Phase);
    if marker.None? {
      return Raised(MissingArtifact);
    }
    o := BindPhase(d.c, ns, l, ph, marker.value.selected);
  }

  method BindPhase(c: Config, ns: Namespace, l: nat, ph: Phase, marked: seq<(Slot, Key)>) returns (o: Outcome<map<Matrix, Key>>)
    requires c.Valid() && l < Layers(ns) && marked == SelectionOf(c, ns, l, SlotList(ph, Experts(ns)))
    ensures o.Done? && Binds(c, o.value, ns, l, ph, Experts(ns))
  {
    hide Config.Valid, SelectionOf, BitsOf, SelectedKey, Binds, SlotList;
    var expected := SlotList(ph, Experts(ns));
    ghost var slots := expected;
    SelectionSize(c, ns, l, slots);
    SlotListIsDistinct(ph, Experts(ns));
    var observed: set<Slot>, selected: map<Matrix, Key> := {}, map[];
    for i := 0 to |marked|
      invariant observed == Members(slots[..i])
      invariant forall m :: m in selected <==> m.ns == ns && m.layer == l && SlotOf(m) in observed
      invariant forall m :: m in selected ==> selected[m] == SelectedKey(c, ns, l, SlotOf(m))
    {
      assert slots[i] in slots && slots[..i + 1] == slots[..i] + [slots[i]];
      assert slots[i] !in slots[..i];
      SelectionAt(c, ns, l, slots, i);
      var s, key := marked[i].0, marked[i].1;
      if s !in expected || s in observed {
        return Raised(InventoryChanged);
      }
      SelectedIsOneOfTwo(c, ns, l, s);
      if key != Candidate(ns, l, s, 3) && key != Candidate(ns, l, s, 4) {
        return Raised(InventoryChanged);
      }
      observed := observed + {s};
      selected := selected[MatrixOf(ns, l, s) := key];
      assert SlotOf(MatrixOf(ns, l, s)) == s;
    }
    assert slots[..|slots|] == slots;
    if observed != Members(expected) {
      return Raised(InventoryChanged);
    }
    PhaseIsBound(c, selected, ns, l, ph, observed);
    return Done(selected);
  }

  lemma SelectedIsOneOfTwo(c: Config, ns: Namespace, l: nat, s: Slot)
    requires c.Valid()
    ensures SelectedKey(c, ns, l, s) == Candidate(ns, l, s, 3) || SelectedKey(c, ns, l, s) == Candidate(ns, l, s, 4)
  {
  }

  lemma PhaseIsBound(c: Config, selected: map<Matrix, Key>, ns: Namespace, l: nat, ph: Phase, observed: set<Slot>)
    requires c.Valid() && observed == Members(SlotList(ph, Experts(ns)))
    requires forall m :: m in selected <==> m.ns == ns && m.layer == l && SlotOf(m) in observed
    requires forall m :: m in selected ==> selected[m] == SelectedKey(c, ns, l, SlotOf(m))
    ensures Binds(c, selected, ns, l, ph, Experts(ns))
  {
    hide Config.Valid, SelectedKey;
  }

  /** The routed matrices of the first `layers` blocks of a namespace. */
  ghost predicate BindsLayers(c: Config, selected: map<Matrix, Key>, ns: Namespace, layers: nat)
    requires c.Valid()
  {
    && (forall m :: m in selected <==> m.ns == ns && m.layer < layers && m.expert < Experts(ns))
    && (forall m :: m in selected ==> selected[m] == SelectedKey(c, m.ns, m.layer, SlotOf(m)))
  }

  lemma LayerJoins(c: Config, a: map<Matrix, Key>, g: map<Matrix, Key>, b: map<Matrix, Key>, ns: Namespace, l: nat)
    requires c.Valid() && BindsLayers(c, a, ns, l) && Binds(c, g, ns, l, GateUp, Experts(ns)) && Binds(c, b, ns, l, Down, Experts(ns))
    ensures BindsLayers(c, a + g + b, ns, l + 1)
  {
    hide Config.Valid, SelectedKey;
  }

  method CollectNamespace(d: Driver, ns: Namespace) returns (o: Outcome<map<Matrix, Key>>)
    requires d.Sound() && d.c.Valid() && NamespaceComplete(ns) in d.journal.artifacts
    ensures !o.Raised? && (!d.journal.fallible ==> o.Done?)
    ensures o.Done? ==> BindsLayers(d.c, o.value, ns, Layers(ns))
  {
    hide Good, Config.Valid, Swept, Binds, IsTemporary;
    NamespaceReaches(d.c, d.View(), ns);
    var selected: map<Matrix, Key> := map[];
    for l := 0 to Layers(ns)
      invariant BindsLayers(d.c, selected, ns, l)
    {
      CompletePhases(d.c, d.View(), ns, l);
      var complete :- d.Load(BlockComplete(ns, l), Kind.Block);
      if complete.None? {
        return Raised(MissingArtifact);
      }
      var gateUp :- CollectPhase(d, ns, l, GateUp);
      var down :- CollectPhase(d, ns, l, Down);
      LayerJoins(d.c, selected, gateUp, down, ns, l);
      selected := selected + gateUp + down;
    }
    return Done(selected);
  }

  lemma CompletePhases(c: Config, j: Store, ns: Namespace, l: nat)
    requires Good(c, j) && c.Valid() && BlockComplete(ns, l) in j.artifacts
    ensures l < Layers(ns) && InRun(c, BlockComplete(ns, l)) && !IsTemporary(c, BlockComplete(ns, l))
    ensures forall ph :: PhaseComplete(ns, l, ph) in j.artifacts
  {
    hide Good, Ancestor, StateOf;
    BlocksArePrefix(c, j, ns, l);
    BlockIsUnder(c, j, BlockComplete(ns, l), ns, l);
  }

  // ---------- the tier map ----------

  /** The tiers that a run with these inputs selects. */
  ghost predicate IsTierMap(c: Config, tiers: map<Matrix, int>)
    requires c.Valid()
  {
    && (forall m :: m in tiers <==> Expected(m))
    && (forall m :: m in tiers ==> tiers[m] == BitsOf(c, m.ns, m.layer, SlotOf(m)))
  }

  lemma {:induction false} UniqueMembers(s: seq<nat>)
    requires Unique(s)
    ensures |Members(s)| == |s|
  {
    if s != [] {
      var t := s[..|s| - 1];
      assert s == t + [s[|s| - 1]];
      UniqueMembers(t);
      assert Members(s) == Members(t) + {s[|s| - 1]};
      assert s[|s| - 1] !in t;
    }
  }

  lemma UpgradedAreChosen(c: Config, tiers: map<Matrix, int>, ns: Namespace, layer: nat, p: Projection)
    requires c.Valid() && IsTierMap(c, tiers) && layer < Layers(ns)
    ensures |Upgraded(tiers, ns, layer, p)| == Quota(ns, p)
  {
    hide Config.Valid, Scores;
    QuotasAreAQuarter(Experts(ns));
    var top := UpgradesOf(c, ns, layer, p);
    TopIsPreferred(Scores(c, ns, layer, p), Quota(ns, p));
    UniqueMembers(top);
    forall e: nat ensures e in Upgraded(tiers, ns, layer, p) <==> e in Members(top) {
      assert SlotOf(Matrix(ns, layer, e, p)) == Slot(e, p);
      assert Expected(Matrix(ns, layer, e, p)) <==> e < Experts(ns);
      if e in top {
        var i :| 0 <= i < |top| && top[i] == e;
      }
    }
    assert Upgraded(tiers, ns, layer, p) == Members(top);
  }

  /** The selected tiers meet the recipe exactly: every routed matrix, every quota, 13/4 bits. */
  lemma SelectedTiersAreValid(c: Config, tiers: map<Matrix, int>)
    requires c.Valid() && IsTierMap(c, tiers)
    ensures ValidSourceTiers(tiers)
  {
    hide Config.Valid, UpgradesOf;
    forall ns, layer: nat, p | layer < Layers(ns) ensures |Upgraded(tiers, ns, layer, p)| == Quota(ns, p) {
      UpgradedAreChosen(c, tiers, ns, layer, p);
    }
  }

  /** The key is the matrix's own candidate of this many bits, and its block selected it. */
  ghost predicate IsListed(a: Records, m: Matrix, k: Key, bits: int) {
    && k.Candidate? && k.ns == m.ns && k.layer == m.layer && k.slot == Slot(m.expert, m.projection) && k.bits == bits
    && Listed(a, m.ns, m.layer, k)
  }

  lemma BoundIsListed(c: Config, j: Store, m: Matrix)
    requires Good(c, j) && QuantizationComplete in j.artifacts && c.Valid() && Expected(m)
    ensures var k := SelectedKey(c, m.ns, m.layer, SlotOf(m)); IsListed(j.artifacts, m, k, k.bits)
  {
    hide Good, Config.Valid, BitsOf, Listed;
    forall ph ensures PhaseComplete(m.ns, m.layer, ph) in j.artifacts {
      CompletionIsWhole(c, j, PhaseComplete(m.ns, m.layer, ph));
    }
    ListedAre(c, j, m.ns, m.layer, SelectedKey(c, m.ns, m.layer, SlotOf(m)));
  }

  /** `collect_selected`: on a finished run it never refuses, and binds a valid tier map. */
  method CollectSelected(d: Driver) returns (o: Outcome<(map<Matrix, Key>, map<Matrix, int>)>)
    requires d.Sound() && d.c.Valid() && QuantizationComplete in d.journal.artifacts
    ensures !o.Raised? && (!d.journal.fallible ==> o.Done?)
    ensures o.Done? ==> forall m :: m in o.value.0 <==> Expected(m)
    ensures o.Done? ==> forall m :: m in o.value.0 ==> o.value.0[m] == SelectedKey(d.c, m.ns, m.layer, SlotOf(m)) && Intact(d.View(), o.value.0[m])
    ensures o.Done? ==> IsTierMap(d.c, o.value.1) && ValidSourceTiers(o.value.1)
    ensures o.Done? ==> o.value.1.Keys == o.value.0.Keys && forall m :: m in o.value.0 ==>
      IsListed(d.journal.artifacts, m, o.value.0[m], o.value.1[m])
  {
    hide Good, Config.Valid, Swept, Intact, ValidSourceTiers, IsListed;
    CompletionReaches(d.c, d.View());
    var base :- CollectNamespace(d, Base);
    var mtp :- CollectNamespace(d, Mtp);
    var selected := base + mtp;
    BothNamespaces(d.c, base, mtp);
    var tiers := map m | m in selected :: selected[m].bits;
    SelectedTiersAreValid(d.c, tiers);
    forall m | m in selected ensures Intact(d.View(), selected[m]) && IsListed(d.journal.artifacts, m, selected[m], tiers[m]) {
      BoundIsIntact(d.c, d.View(), m);
      BoundIsListed(d.c, d.View(), m);
    }
    return Done((selected, tiers));
  }

  lemma BothNamespaces(c: Config, base: map<Matrix, Key>, mtp: map<Matrix, Key>)
    requires c.Valid() && BindsLayers(c, base, Base, Layers(Base)) && BindsLayers(c, mtp, Mtp, Layers(Mtp))
    ensures forall m :: m in base + mtp <==> Expected(m)
    ensures forall m :: m in base + mtp ==> (base + mtp)[m] == SelectedKey(c, m.ns, m.layer, SlotOf(m))
    ensures forall m :: m in base + mtp ==> (base + mtp)[m].Candidate? && (base + mtp)[m].bits == BitsOf(c, m.ns, m.layer, SlotOf(m))
  {
    hide Config.Valid, BitsOf;
  }

  lemma BoundIsIntact(c: Config, j: Store, m: Matrix)
    requires Good(c, j) && c.Valid() && QuantizationComplete in j.artifacts && Expected(m)
    ensures Intact(j, SelectedKey(c, m.ns, m.layer, SlotOf(m)))
  {
    hide Good, Config.Valid, Intact, StateOf;
    CompletionIsWhole(c, j, PhaseComplete(m.ns, m.layer, PhaseOf(m.projection)));
    SelectedStaysIntact(c, j, m.ns, m.layer, SlotOf(m));
  }
}
