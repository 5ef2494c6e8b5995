/** What a run's journal says, read off its records alone: every payload is the one function of the payloads
    that its record, or a record it depends on, names. No term of the plan occurs in these statements. */
module RunMeaning {
  import opened Journal
  import opened Options
  import opened Recipe
  import opened RunInvariant
  import opened RunPlan

  type Records = map<Key, Entry>

  /** A committed record of this kind, path, payload and these dependencies. */
  ghost predicate Holds(a: Records, k: Key, kind: Kind, state: State, parents: set<Key>) {
    k in a && a[k].kind == kind && a[k].path == k && a[k].payload == File(kind, k, state) && a[k].parents.Keys == parents
  }

  predicate IsTensor(a: Records, k: Key) {
    k in a && a[k].payload.state.Tensors?
  }

  predicate IsList(a: Records, k: Key) {
    k in a && a[k].payload.state.KeyList?
  }

  predicate IsHandoff(a: Records, k: Key) {
    k in a && a[k].payload.state.Handoff?
  }

  predicate IsSelection(a: Records, k: Key) {
    k in a && a[k].payload.state.Selection?
  }

  function TermAt(a: Records, k: Key): Term
    requires IsTensor(a, k)
  {
    a[k].payload.state.term
  }

  // ---------- a block's inputs and batches ----------

  /** The inputs of a block are the outputs of the one before, or the namespace's inputs. */
  ghost predicate InputsMean(c: Config, a: Records, ns: Namespace, l: nat) {
    var from := if l > 0 then BlockComplete(ns, l - 1) else Key.NamespaceInputs(ns);
    IsHandoff(a, from) && var keys := a[from].payload.state.keys;
      Holds(a, InputInventory(ns, l), Kind.Inventory, KeyList(keys, c.replicas), Members(keys))
  }

  /** A routed batch is made of the input at its place. */
  ghost predicate RoutedMeans(a: Records, ns: Namespace, l: nat, i: nat) {
    && IsList(a, InputInventory(ns, l)) && i < |a[InputInventory(ns, l)].payload.state.keys|
    && var input := a[InputInventory(ns, l)].payload.state.keys[i];
      && IsTensor(a, input)
      && Holds(a, RoutedBatch(ns, l, i), Kind.Routed, Tensors(FromReplay(ns, l, TermAt(a, input)), l), {input, InputInventory(ns, l)})
  }

  /** The batches are listed in the order of the inputs. */
  ghost predicate BatchListMeans(a: Records, ns: Namespace, l: nat) {
    && IsList(a, InputInventory(ns, l)) && IsList(a, RoutedInventory(ns, l))
    && var keys := a[RoutedInventory(ns, l)].payload.state.keys;
      && |keys| == |a[InputInventory(ns, l)].payload.state.keys| && (forall i: nat :: i < |keys| ==> keys[i] == RoutedBatch(ns, l, i))
      && Holds(a, RoutedInventory(ns, l), Kind.Inventory, KeyList(keys, 0), Members(keys))
  }

  // ---------- capture and search ----------

  /** These are the payloads of the routed batches, in the order of their list. */
  ghost predicate AreBatches(a: Records, ns: Namespace, l: nat, batches: seq<Term>) {
    && IsList(a, RoutedInventory(ns, l)) && |batches| == |a[RoutedInventory(ns, l)].payload.state.keys|
    && forall i :: 0 <= i < |batches| ==>
        var k := a[RoutedInventory(ns, l)].payload.state.keys[i]; IsTensor(a, k) && batches[i] == TermAt(a, k)
  }

  /** Each slot that the phase selected holds the payload of the candidate selected for it. */
  ghost predicate Installs(a: Records, ns: Namespace, l: nat, ph: Phase, installed: map<Slot, Term>) {
    && IsSelection(a, PhaseComplete(ns, l, ph))
    && forall n :: 0 <= n < |a[PhaseComplete(ns, l, ph)].payload.state.selected| ==>
        var s := a[PhaseComplete(ns, l, ph)].payload.state.selected[n];
        IsTensor(a, s.1) && s.0 in installed && installed[s.0] == TermAt(a, s.1)
  }

  ghost predicate Selects(a: Records, ns: Namespace, l: nat, ph: Phase, s: Slot) {
    && IsSelection(a, PhaseComplete(ns, l, ph))
    && exists n :: 0 <= n < |a[PhaseComplete(ns, l, ph)].payload.state.selected| && a[PhaseComplete(ns, l, ph)].payload.state.selected[n].0 == s
  }

  /** A Hessian is captured over all batches, for the second phase on the block in which the first phase's
      selection is installed, and nothing else. */
  ghost predicate HessianMeans(a: Records, ns: Namespace, l: nat, ph: Phase, e: nat) {
    exists installed, batches ::
      && AreBatches(a, ns, l, batches)
      && (ph == GateUp ==> installed == map[])
      && (ph == Down ==> Installs(a, ns, l, GateUp, installed) && forall s :: s in installed ==> Selects(a, ns, l, GateUp, s))
      && Holds(a, HessianOf(ns, l, ph, e), Hessian, Tensors(Captured(ns, l, ph, e, installed, batches), l),
          {if ph == GateUp then RoutedInventory(ns, l) else PhaseComplete(ns, l, GateUp)})
  }

  /** A candidate is searched over the Hessian of its expert. */
  ghost predicate CandidateMeans(a: Records, ns: Namespace, l: nat, s: Slot, bits: nat) {
    var from := HessianOf(ns, l, if s.projection == W2 then Down else GateUp, s.expert);
    IsTensor(a, from) && Holds(a, Candidate(ns, l, s, bits), Kind.Projection, Tensors(Searched(ns, l, s, bits, TermAt(a, from)), l), {from})
  }

  /** This Hessian on disk was captured on this very block, over all batches. */
  ghost predicate CapturedOn(a: Records, ns: Namespace, l: nat, ph: Phase, e: nat, installed: map<Slot, Term>) {
    && IsTensor(a, HessianOf(ns, l, ph, e)) && TermAt(a, HessianOf(ns, l, ph, e)).Captured?
    && TermAt(a, HessianOf(ns, l, ph, e)).installed == installed
    && AreBatches(a, ns, l, TermAt(a, HessianOf(ns, l, ph, e)).batches)
  }

  // ---------- tiers ----------

  /** The K3 candidate of `e` has a higher risk than that of `f`, or the same and a lower index. */
  ghost predicate Riskier(c: Config, a: Records, ns: Namespace, l: nat, p: Projection, e: nat, f: nat) {
    var x, y := Candidate(ns, l, Slot(e, p), 3), Candidate(ns, l, Slot(f, p), 3);
    && IsTensor(a, x) && IsTensor(a, y)
    && (c.score(TermAt(a, x)) > c.score(TermAt(a, y)) || (c.score(TermAt(a, x)) == c.score(TermAt(a, y)) && e < f))
  }

  /** The chosen experts of a projection: as many as its quota, each riskier than every other expert, and in
      the order of their risks. */
  ghost predicate Chosen(c: Config, a: Records, ns: Namespace, l: nat, p: Projection, chosen: seq<nat>) {
    && |chosen| == Quota(ns, p) && (forall e :: e in chosen ==> e < Experts(ns))
    && (forall i, k :: 0 <= i < k < |chosen| ==> chosen[i] != chosen[k] && Riskier(c, a, ns, l, p, chosen[i], chosen[k]))
    && (forall e: nat, f: nat :: e in chosen && f < Experts(ns) && f !in chosen ==> Riskier(c, a, ns, l, p, e, f))
  }

  ghost predicate ChosenFor(c: Config, a: Records, ns: Namespace, l: nat, ph: Phase, upgrades: map<Projection, seq<nat>>) {
    && upgrades.Keys == (if ph == GateUp then {W1, W3} else {W2})
    && forall p :: p in upgrades ==> Chosen(c, a, ns, l, p, upgrades[p])
  }

  ghost predicate TiersMean(c: Config, a: Records, ns: Namespace, l: nat, ph: Phase) {
    exists upgrades :: ChosenFor(c, a, ns, l, ph, upgrades)
      && Holds(a, TierChoice(ns, l, ph), Tiers, Upgrades(upgrades), BaseCandidates(ns, l, ph))
  }

  /** Every K3 candidate of a phase. */
  ghost function BaseCandidates(ns: Namespace, l: nat, ph: Phase): (r: set<Key>)
    ensures forall k :: k in r <==>
      k.Candidate? && k.ns == ns && k.layer == l && k.bits == 3 && k.slot.expert < Experts(ns) && (k.slot.projection == W2 <==> ph == Down)
  {
    TierParentsAre(ns, l, ph);
    Members(TierParents(ns, l, ph))
  }

  // ---------- selection and propagation ----------

  /** Entry for one expert and projection: its K4 candidate if it was chosen, else the K3 one. */
  ghost predicate SelectedAs(a: Records, ns: Namespace, l: nat, ph: Phase, entry: (Slot, Key), e: nat, p: Projection) {
    && TierChoice(ns, l, ph) in a && a[TierChoice(ns, l, ph)].payload.state.Upgrades? && p in a[TierChoice(ns, l, ph)].payload.state.experts
    && var chosen := a[TierChoice(ns, l, ph)].payload.state.experts[p];
      entry == (Slot(e, p), Candidate(ns, l, Slot(e, p), if e in chosen then 4 else 3)) && entry.1 in a
  }

  /** Expert by expert, each projection of the phase once. */
  ghost predicate SelectedInOrder(a: Records, ns: Namespace, l: nat, ph: Phase, selected: seq<(Slot, Key)>) {
    && |selected| == (if ph == GateUp then 2 * Experts(ns) else Experts(ns))
    && (forall e: nat :: e < Experts(ns) && ph == GateUp ==>
          SelectedAs(a, ns, l, ph, selected[2 * e], e, W1) && SelectedAs(a, ns, l, ph, selected[2 * e + 1], e, W3))
    && (forall e: nat :: e < Experts(ns) && ph == Down ==> SelectedAs(a, ns, l, ph, selected[e], e, W2))
  }

  ghost predicate PhaseMeans(a: Records, ns: Namespace, l: nat, ph: Phase) {
    && IsSelection(a, PhaseComplete(ns, l, ph))
    && var selected := a[PhaseComplete(ns, l, ph)].payload.state.selected;
      && SelectedInOrder(a, ns, l, ph, selected)
      && Holds(a, PhaseComplete(ns, l, ph), Kind.Phase, Selection(selected),
          {TierChoice(ns, l, ph)} + set n | 0 <= n < |selected| :: selected[n].1)
  }

  /** A block installs what its two phases selected. */
  ghost predicate InstalledBoth(a: Records, ns: Namespace, l: nat, installed: map<Slot, Term>) {
    && Installs(a, ns, l, GateUp, installed) && Installs(a, ns, l, Down, installed)
    && forall s :: s in installed ==> Selects(a, ns, l, GateUp, s) || Selects(a, ns, l, Down, s)
  }

  /** An output is its input, advanced through the block with both phases' selections installed. */
  ghost predicate OutputMeans(a: Records, ns: Namespace, l: nat, i: nat) {
    && IsList(a, InputInventory(ns, l)) && i < |a[InputInventory(ns, l)].payload.state.keys|
    && var input := a[InputInventory(ns, l)].payload.state.keys[i];
      && IsTensor(a, input)
      && exists installed ::
        && InstalledBoth(a, ns, l, installed)
        && Holds(a, Output(ns, l, i), Replay, Tensors(Advanced(ns, l, installed, TermAt(a, input)), l + 1), {input, PhaseComplete(ns, l, Down)})
  }

  ghost predicate BlockMeans(a: Records, ns: Namespace, l: nat) {
    && IsList(a, InputInventory(ns, l)) && IsHandoff(a, BlockComplete(ns, l))
    && var keys := a[BlockComplete(ns, l)].payload.state.keys;
      && |keys| == |a[InputInventory(ns, l)].payload.state.keys| && (forall i: nat :: i < |keys| ==> keys[i] == Output(ns, l, i))
      && Holds(a, BlockComplete(ns, l), Kind.Block, Handoff(keys, Some(PhaseComplete(ns, l, Down)), l + 1),
          {InputInventory(ns, l), PhaseComplete(ns, l, Down)} + Members(keys))
  }

  // ---------- the ends of a namespace ----------

  /** One prepared input for every record, in corpus order. */
  ghost predicate CorpusMeans(c: Config, a: Records) {
    && IsHandoff(a, CorpusComplete)
    && var keys := a[CorpusComplete].payload.state.keys;
      && |keys| == c.records && (forall r: nat :: r < |keys| ==> keys[r] == CorpusFrontier(r))
      && Holds(a, CorpusComplete, Inputs, Handoff(keys, None, 0), {CorpusInventory} + Members(keys))
  }

  /** One draft input for every record with anchors, in corpus order. */
  ghost predicate DraftMeans(c: Config, a: Records) {
    && IsHandoff(a, DraftComplete)
    && var keys := a[DraftComplete].payload.state.keys;
      && (forall k :: k in keys <==> k.DraftFrontier? && k.record < |c.positions| && c.positions[k.record] != [])
      && (forall i, n :: 0 <= i < n < |keys| ==> keys[i].DraftFrontier? && keys[n].DraftFrontier? && keys[i].record < keys[n].record)
      && Holds(a, DraftComplete, Inputs, Handoff(keys, None, 0), {DraftInventory} + Members(keys))
  }

  /** A draft input joins the record's anchors to the main model's last output for it. */
  ghost predicate DraftInputMeans(c: Config, a: Records, r: nat) {
    var from := Output(Base, Layers(Base) - 1, r);
    && r < |c.positions| && c.positions[r] != [] && IsTensor(a, from)
    && Holds(a, DraftFrontier(r), Replay, Tensors(Joint(r, c.positions[r], TermAt(a, from)), 0), {DraftInventory, from})
  }

  /** A namespace starts from its complete preparation. */
  ghost predicate StartMeans(a: Records, ns: Namespace) {
    var from := if ns == Base then CorpusComplete else DraftComplete;
    IsHandoff(a, from)
      && Holds(a, Key.NamespaceInputs(ns), Kind.NamespaceInputs, a[from].payload.state, Members(a[from].payload.state.keys))
  }

  /** It ends with its last block. */
  ghost predicate EndMeans(a: Records, ns: Namespace) {
    var last := BlockComplete(ns, Layers(ns) - 1);
    last in a && Holds(a, NamespaceComplete(ns), Kind.Namespace, a[last].payload.state, {Key.NamespaceInputs(ns), last})
  }

  ghost predicate MarkerMeans(a: Records, ns: Namespace) {
    var next := if ns == Base then DraftComplete else NamespaceComplete(Mtp);
    && NamespaceComplete(ns) in a && next in a
    && Holds(a, RetirementMarker(ns), NamespaceRetirement,
        Authorization(a[NamespaceComplete(ns)].payload.state, next, a[next].payload.state), {NamespaceComplete(ns), next})
  }

  // ---------- every record ----------

  /** What the record of a key must be, in terms of the others. */
  ghost predicate Means(c: Config, a: Records, k: Key) {
    match k
    case CorpusInventory => Holds(a, k, Kind.Inventory, Corpus(c.records), {})
    case CorpusFrontier(r) => r < c.records && Holds(a, k, Replay, Tensors(Prepared(r), 0), {CorpusInventory})
    case CorpusComplete => CorpusMeans(c, a)
    case NamespaceInputs(ns) => StartMeans(a, ns)
    case InputInventory(ns, l) => l < Layers(ns) && InputsMean(c, a, ns, l)
    case RoutedBatch(ns, l, i) => RoutedMeans(a, ns, l, i)
    case RoutedInventory(ns, l) => BatchListMeans(a, ns, l)
    case HessianOf(ns, l, ph, e) => e < Experts(ns) && HessianMeans(a, ns, l, ph, e)
    case Candidate(ns, l, s, bits) => s.expert < Experts(ns) && CandidateMeans(a, ns, l, s, bits)
    case TierChoice(ns, l, ph) => TiersMean(c, a, ns, l, ph)
    case PhaseComplete(ns, l, ph) => PhaseMeans(a, ns, l, ph)
    case Output(ns, l, i) => OutputMeans(a, ns, l, i)
    case BlockComplete(ns, l) => BlockMeans(a, ns, l)
    case NamespaceComplete(ns) => EndMeans(a, ns)
    case DraftInventory =>
      && NamespaceComplete(Base) in a
      && Holds(a, k, Kind.Inventory, DraftPlan(c.positions, a[NamespaceComplete(Base)].payload.state), {CorpusInventory, NamespaceComplete(Base)})
    case DraftFrontier(r) => DraftInputMeans(c, a, r)
    case DraftComplete => DraftMeans(c, a)
    case RetirementMarker(ns) => MarkerMeans(a, ns)
    case QuantizationComplete =>
      && NamespaceComplete(Base) in a && NamespaceComplete(Mtp) in a
      && Holds(a, k, Quantization, Completion(a[NamespaceComplete(Base)].payload.state, a[NamespaceComplete(Mtp)].payload.state),
          {NamespaceComplete(Base), NamespaceComplete(Mtp)})
  }

  // ---------- reading a record ----------

  lemma RecordHolds(c: Config, j: Store, k: Key)
    requires Good(c, j) && k in j.artifacts
    ensures c.Valid() && InRun(c, k) && Holds(j.artifacts, k, KindOf(k), StateOf(c, k), Members(Parents(c, k)))
    ensures forall p :: p in Parents(c, k) ==> p in j.artifacts
  {
    hide Good, StateOf, Parents, InRun, KindOf;
    GoodConfig(c, j);
    CommittedIsPlanned(c, j, k);
  }

  /** A block's committed input. */
  lemma InputAt(c: Config, j: Store, ns: Namespace, l: nat, i: nat)
    requires Good(c, j) && c.Valid() && l <= Layers(ns) && i < Width(c, ns) && FrontierKey(c, ns, l, i) in j.artifacts
    ensures IsTensor(j.artifacts, FrontierKey(c, ns, l, i)) && TermAt(j.artifacts, FrontierKey(c, ns, l, i)) == FrontierTerm(c, ns, l, i)
  {
    hide Good, FrontierTerm, Parents, Config.Valid;
    RecordHolds(c, j, FrontierKey(c, ns, l, i));
    if l == 0 && ns == Mtp {
      DraftAt(c, i);
    }
  }

  lemma DraftAt(c: Config, i: nat)
    requires c.Valid() && i < |c.draft|
    ensures c.draft[i] in c.draft && DraftPosition(c, c.draft[i]) == i
  {
  }

  lemma InventoryAt(c: Config, j: Store, ns: Namespace, l: nat)
    requires Good(c, j) && InputInventory(ns, l) in j.artifacts
    ensures c.Valid() && l < Layers(ns) && IsList(j.artifacts, InputInventory(ns, l))
    ensures j.artifacts[InputInventory(ns, l)].payload.state.keys == FrontierKeys(c, ns, l)
    ensures forall i :: 0 <= i < Width(c, ns) ==> FrontierKey(c, ns, l, i) in j.artifacts
  {
    hide Good, FrontierKey, Config.Valid;
    RecordHolds(c, j, InputInventory(ns, l));
    hide StateOf;
    forall i | 0 <= i < Width(c, ns) ensures FrontierKey(c, ns, l, i) in j.artifacts {
      FrontierKeyIsMember(c, ns, l, i);
    }
  }

  lemma RoutedAt(c: Config, j: Store, ns: Namespace, l: nat, i: nat)
    requires Good(c, j) && RoutedBatch(ns, l, i) in j.artifacts
    ensures c.Valid() && l < Layers(ns) && i < Width(c, ns) && IsTensor(j.artifacts, RoutedBatch(ns, l, i))
    ensures TermAt(j.artifacts, RoutedBatch(ns, l, i)) == RoutedTerm(c, ns, l, i)
    ensures InputInventory(ns, l) in j.artifacts
  {
    hide Good, RoutedTerm, FrontierKey, Config.Valid;
    RecordHolds(c, j, RoutedBatch(ns, l, i));
    assert InputInventory(ns, l) in Parents(c, RoutedBatch(ns, l, i));
  }

  lemma BatchListAt(c: Config, j: Store, ns: Namespace, l: nat)
    requires Good(c, j) && RoutedInventory(ns, l) in j.artifacts
    ensures c.Valid() && l < Layers(ns) && IsList(j.artifacts, RoutedInventory(ns, l))
    ensures j.artifacts[RoutedInventory(ns, l)].payload.state.keys == RoutedKeys(c, ns, l)
    ensures forall i: nat :: i < Width(c, ns) ==> RoutedBatch(ns, l, i) in j.artifacts
    ensures InputInventory(ns, l) in j.artifacts
  {
    hide Good;
    RecordHolds(c, j, RoutedInventory(ns, l));
    forall i: nat | i < Width(c, ns) ensures RoutedBatch(ns, l, i) in j.artifacts {
      assert RoutedKeys(c, ns, l)[i] == RoutedBatch(ns, l, i);
    }
    assert Width(c, ns) > 0;
    RoutedAt(c, j, ns, l, 0);
  }

  lemma BatchesAt(c: Config, j: Store, ns: Namespace, l: nat)
    requires Good(c, j) && RoutedInventory(ns, l) in j.artifacts
    ensures c.Valid() && AreBatches(j.artifacts, ns, l, RoutedTerms(c, ns, l))
  {
    hide Good, RoutedTerm, Config.Valid;
    BatchListAt(c, j, ns, l);
    forall i: nat | i < Width(c, ns)
      ensures IsTensor(j.artifacts, RoutedBatch(ns, l, i)) && TermAt(j.artifacts, RoutedBatch(ns, l, i)) == RoutedTerms(c, ns, l)[i]
    {
      RoutedAt(c, j, ns, l, i);
    }
  }

  lemma CandidateAt(c: Config, j: Store, ns: Namespace, l: nat, s: Slot, bits: nat)
    requires Good(c, j) && Candidate(ns, l, s, bits) in j.artifacts
    ensures c.Valid() && l < Layers(ns) && s.expert < Experts(ns) && IsTensor(j.artifacts, Candidate(ns, l, s, bits))
    ensures TermAt(j.artifacts, Candidate(ns, l, s, bits)) == CandidateTerm(c, ns, l, s, bits)
    ensures HessianOf(ns, l, PhaseOf(s.projection), s.expert) in j.artifacts
  {
    hide Good, CandidateTerm, BitsOf, Config.Valid;
    RecordHolds(c, j, Candidate(ns, l, s, bits));
    assert HessianOf(ns, l, PhaseOf(s.projection), s.expert) in Parents(c, Candidate(ns, l, s, bits));
  }

  lemma HessianAt(c: Config, j: Store, ns: Namespace, l: nat, ph: Phase, e: nat)
    requires Good(c, j) && HessianOf(ns, l, ph, e) in j.artifacts
    ensures c.Valid() && l < Layers(ns) && e < Experts(ns) && IsTensor(j.artifacts, HessianOf(ns, l, ph, e))
    ensures TermAt(j.artifacts, HessianOf(ns, l, ph, e)) == HessianTerm(c, ns, l, ph, e)
    ensures PhaseParent(ns, l, ph) in j.artifacts
  {
    hide Good, HessianTerm, PhaseParent, Config.Valid;
    RecordHolds(c, j, HessianOf(ns, l, ph, e));
    assert PhaseParent(ns, l, ph) in Parents(c, HessianOf(ns, l, ph, e));
  }

  // ---------- phases ----------

  lemma TierAt(c: Config, j: Store, ns: Namespace, l: nat, ph: Phase)
    requires Good(c, j) && TierChoice(ns, l, ph) in j.artifacts
    ensures c.Valid() && l < Layers(ns) && j.artifacts[TierChoice(ns, l, ph)].payload.state == TierState(c, ns, l, ph)
    ensures forall e: nat, p :: e < Experts(ns) && PhaseOf(p) == ph ==> Candidate(ns, l, Slot(e, p), 3) in j.artifacts
  {
    hide Good, TierState, Config.Valid;
    RecordHolds(c, j, TierChoice(ns, l, ph));
    TierParentsAre(ns, l, ph);
  }

  lemma PhaseAt(c: Config, j: Store, ns: Namespace, l: nat, ph: Phase)
    requires Good(c, j) && PhaseComplete(ns, l, ph) in j.artifacts
    ensures c.Valid() && l < Layers(ns) && IsSelection(j.artifacts, PhaseComplete(ns, l, ph))
    ensures j.artifacts[PhaseComplete(ns, l, ph)].payload.state.selected == SelectionOf(c, ns, l, SlotList(ph, Experts(ns)))
    ensures TierChoice(ns, l, ph) in j.artifacts
    ensures forall s :: s in SlotList(ph, Experts(ns)) ==> SelectedKey(c, ns, l, s) in j.artifacts
    ensures RoutedInventory(ns, l) in j.artifacts && PhaseComplete(ns, l, GateUp) in j.artifacts
    decreases if ph == Down then 1 else 0
  {
    hide Good, SelectedKey, Config.Valid, SlotList, BitsOf;
    RecordHolds(c, j, PhaseComplete(ns, l, ph));
    hide StateOf;
    var slots := SlotList(ph, Experts(ns));
    forall s | s in slots ensures SelectedKey(c, ns, l, s) in j.artifacts {
      var n :| 0 <= n < |slots| && slots[n] == s;
      assert SelectedKeys(c, ns, l, slots)[n] == SelectedKey(c, ns, l, s);
    }
    assert TierChoice(ns, l, ph) in Parents(c, PhaseComplete(ns, l, ph));
    TierAt(c, j, ns, l, ph);
    var p := if ph == GateUp then W1 else W2;
    CandidateAt(c, j, ns, l, Slot(0, p), 3);
    HessianAt(c, j, ns, l, ph, 0);
    if ph == Down {
      PhaseAt(c, j, ns, l, GateUp);
    }
  }

  /** What a phase selected is what the plan installs for it. */
  lemma InstalledAt(c: Config, j: Store, ns: Namespace, l: nat, ph: Phase, installed: map<Slot, Term>)
    requires Good(c, j) && c.Valid() && PhaseComplete(ns, l, ph) in j.artifacts
    requires forall s :: s in SelectedTerms(c, ns, l, ph) ==> s in installed && installed[s] == SelectedTerms(c, ns, l, ph)[s]
    ensures Installs(j.artifacts, ns, l, ph, installed)
    ensures forall s :: s in SelectedTerms(c, ns, l, ph) ==> Selects(j.artifacts, ns, l, ph, s)
  {
    hide Good, CandidateTerm, BitsOf, Config.Valid, SlotList;
    PhaseAt(c, j, ns, l, ph);
    var slots := SlotList(ph, Experts(ns));
    forall n: nat | n < |slots|
      ensures IsTensor(j.artifacts, SelectedKey(c, ns, l, slots[n]))
      ensures slots[n] in installed && installed[slots[n]] == TermAt(j.artifacts, SelectedKey(c, ns, l, slots[n]))
    {
      assert slots[n] in slots;
      CandidateAt(c, j, ns, l, slots[n], BitsOf(c, ns, l, slots[n]));
    }
    forall s | s in slots ensures Selects(j.artifacts, ns, l, ph, s) {
      var n :| 0 <= n < |slots| && slots[n] == s;
      assert SelectionOf(c, ns, l, slots)[n].0 == s;
    }
  }

  lemma HessiansMean(c: Config, j: Store, ns: Namespace, l: nat, ph: Phase, e: nat)
    requires Good(c, j) && HessianOf(ns, l, ph, e) in j.artifacts
    ensures e < Experts(ns) && HessianMeans(j.artifacts, ns, l, ph, e)
  {
    hide Good, Config.Valid, RoutedTerms, SelectedTerms, AreBatches, Installs, Selects;
    HessianAt(c, j, ns, l, ph, e);
    if ph == Down {
      PhaseAt(c, j, ns, l, GateUp);
      InstalledAt(c, j, ns, l, GateUp, Before(c, ns, l, ph));
    }
    BatchesAt(c, j, ns, l);
    RecordHolds(c, j, HessianOf(ns, l, ph, e));
    assert AreBatches(j.artifacts, ns, l, RoutedTerms(c, ns, l));
  }

  lemma HessiansAreOn(c: Config, j: Store, ns: Namespace, l: nat, ph: Phase, installed: map<Slot, Term>, start: nat, end: nat)
    requires Good(c, j) && c.Valid() && installed == Before(c, ns, l, ph)
    requires forall e: nat :: start <= e < end ==> HessianOf(ns, l, ph, e) in j.artifacts
    ensures forall e: nat :: start <= e < end ==> CapturedOn(j.artifacts, ns, l, ph, e, installed)
  {
    hide Good, Config.Valid, RoutedTerms, Before, AreBatches;
    forall e: nat | start <= e < end ensures CapturedOn(j.artifacts, ns, l, ph, e, installed) {
      HessianAt(c, j, ns, l, ph, e);
      if ph == Down {
        PhaseAt(c, j, ns, l, GateUp);
      }
      BatchesAt(c, j, ns, l);
    }
  }

  lemma CandidatesMean(c: Config, j: Store, ns: Namespace, l: nat, s: Slot, bits: nat)
    requires Good(c, j) && Candidate(ns, l, s, bits) in j.artifacts
    ensures s.expert < Experts(ns) && CandidateMeans(j.artifacts, ns, l, s, bits)
  {
    hide Good, Config.Valid, HessianTerm, BitsOf;
    CandidateAt(c, j, ns, l, s, bits);
    HessianAt(c, j, ns, l, PhaseOf(s.projection), s.expert);
    RecordHolds(c, j, Candidate(ns, l, s, bits));
  }

  lemma CandidateIs(c: Config, j: Store, ns: Namespace, l: nat, s: Slot, bits: nat)
    requires Good(c, j) && Candidate(ns, l, s, bits) in j.artifacts
    ensures c.Valid() && CandidateMeans(j.artifacts, ns, l, s, bits)
    ensures TermAt(j.artifacts, Candidate(ns, l, s, bits)) == CandidateTerm(c, ns, l, s, bits)
  {
    hide Good, Config.Valid, CandidateTerm;
    CandidatesMean(c, j, ns, l, s, bits);
    CandidateAt(c, j, ns, l, s, bits);
  }

  // ---------- tiers ----------

  lemma RisksAre(c: Config, j: Store, ns: Namespace, l: nat, p: Projection, e: nat, f: nat)
    requires Good(c, j) && c.Valid() && TierChoice(ns, l, PhaseOf(p)) in j.artifacts && e < Experts(ns) && f < Experts(ns)
    ensures Riskier(c, j.artifacts, ns, l, p, e, f) <==> Preferred(Scores(c, ns, l, p), e, f)
  {
    hide Good, CandidateTerm, Config.Valid;
    TierAt(c, j, ns, l, PhaseOf(p));
    CandidateAt(c, j, ns, l, Slot(e, p), 3);
    CandidateAt(c, j, ns, l, Slot(f, p), 3);
  }

  lemma UpgradesAreChosen(c: Config, j: Store, ns: Namespace, l: nat, p: Projection)
    requires Good(c, j) && c.Valid() && TierChoice(ns, l, PhaseOf(p)) in j.artifacts
    ensures Chosen(c, j.artifacts, ns, l, p, UpgradesOf(c, ns, l, p))
  {
    hide Good, Scores, Config.Valid, Riskier, Preferred, Top;
    QuotasAreAQuarter(Experts(ns));
    var scores, quota := Scores(c, ns, l, p), Quota(ns, p);
    var top := Top(scores, quota);
    TopIsPreferred(scores, quota);
    forall i, k | 0 <= i < k < |top| ensures top[i] != top[k] && Riskier(c, j.artifacts, ns, l, p, top[i], top[k]) {
      TopIsOrdered(scores, quota, i, k);
      RisksAre(c, j, ns, l, p, top[i], top[k]);
    }
    forall e: nat, f: nat | e in top && f < Experts(ns) && f !in top ensures Riskier(c, j.artifacts, ns, l, p, e, f) {
      var i: nat :| i < |top| && top[i] == e;
      RisksAre(c, j, ns, l, p, e, f);
    }
  }

  lemma ProjectionsAre(ph: Phase)
    ensures forall p :: p in Projections(ph) <==> PhaseOf(p) == ph
    ensures (set p | p in Projections(ph)) == if ph == GateUp then {W1, W3} else {W2}
  {
    assert Projections(GateUp)[0] == W1 && Projections(GateUp)[1] == W3 && Projections(Down)[0] == W2;
  }

  lemma TiersAreChosen(c: Config, j: Store, ns: Namespace, l: nat, ph: Phase)
    requires Good(c, j) && TierChoice(ns, l, ph) in j.artifacts
    ensures c.Valid() && TierState(c, ns, l, ph).Upgrades? && ChosenFor(c, j.artifacts, ns, l, ph, TierState(c, ns, l, ph).experts)
  {
    hide Good, UpgradesOf, Config.Valid, Chosen;
    TierAt(c, j, ns, l, ph);
    ProjectionsAre(ph);
    forall p | PhaseOf(p) == ph ensures Chosen(c, j.artifacts, ns, l, p, UpgradesOf(c, ns, l, p)) {
      UpgradesAreChosen(c, j, ns, l, p);
    }
  }

  lemma TiersMeanThat(c: Config, j: Store, ns: Namespace, l: nat, ph: Phase)
    requires Good(c, j) && TierChoice(ns, l, ph) in j.artifacts
    ensures TiersMean(c, j.artifacts, ns, l, ph)
  {
    hide Good, TierState, Config.Valid, ChosenFor, TierParents;
    TiersAreChosen(c, j, ns, l, ph);
    RecordHolds(c, j, TierChoice(ns, l, ph));
    BaseCandidatesAre(ns, l, ph);
  }

  lemma BaseCandidatesAre(ns: Namespace, l: nat, ph: Phase)
    ensures BaseCandidates(ns, l, ph) == Members(TierParents(ns, l, ph))
  {
  }

  // ---------- selection ----------

  lemma SlotsGrow(experts: nat)
    ensures SlotList(GateUp, 0) == [] && SlotList(Down, 0) == []
    ensures experts > 0 ==> SlotList(GateUp, experts) == SlotList(GateUp, experts - 1) + [Slot(experts - 1, W1), Slot(experts - 1, W3)]
    ensures experts > 0 ==> SlotList(Down, experts) == SlotList(Down, experts - 1) + [Slot(experts - 1, W2)]
  {
  }

  lemma {:induction false} PairAt(experts: nat, e: nat)
    requires e < experts
    ensures |SlotList(GateUp, experts)| == 2 * experts
    ensures SlotList(GateUp, experts)[2 * e] == Slot(e, W1) && SlotList(GateUp, experts)[2 * e + 1] == Slot(e, W3)
  {
    hide SlotList;
    SlotsGrow(experts);
    if experts > 1 {
      PairAt(experts - 1, if e < experts - 1 then e else 0);
    }
  }

  lemma {:induction false} DownAt(experts: nat, e: nat)
    requires e < experts
    ensures |SlotList(Down, experts)| == experts && SlotList(Down, experts)[e] == Slot(e, W2)
  {
    hide SlotList;
    SlotsGrow(experts);
    if experts > 1 {
      DownAt(experts - 1, if e < experts - 1 then e else 0);
    }
  }

  lemma SlotCount(ph: Phase, experts: nat)
    requires experts > 0
    ensures |SlotList(ph, experts)| == if ph == GateUp then 2 * experts else experts
  {
    PairAt(experts, 0);
    DownAt(experts, 0);
  }

  lemma EntryIs(c: Config, j: Store, ns: Namespace, l: nat, ph: Phase, n: nat, e: nat, p: Projection)
    requires Good(c, j) && c.Valid() && PhaseComplete(ns, l, ph) in j.artifacts && PhaseOf(p) == ph && e < Experts(ns)
    requires n < |SlotList(ph, Experts(ns))| && SlotList(ph, Experts(ns))[n] == Slot(e, p)
    ensures SelectedAs(j.artifacts, ns, l, ph, SelectionOf(c, ns, l, SlotList(ph, Experts(ns)))[n], e, p)
  {
    hide Good, Config.Valid, UpgradesOf;
    PhaseAt(c, j, ns, l, ph);
    TierAt(c, j, ns, l, ph);
    ProjectionsAre(ph);
  }

  lemma EntriesAre(c: Config, j: Store, ns: Namespace, l: nat, ph: Phase)
    requires Good(c, j) && c.Valid() && PhaseComplete(ns, l, ph) in j.artifacts
    ensures SelectedInOrder(j.artifacts, ns, l, ph, SelectionOf(c, ns, l, SlotList(ph, Experts(ns))))
  {
    hide Good, Config.Valid, SelectedKey, SlotList, SelectedAs;
    SlotCount(ph, Experts(ns));
    var selected := SelectionOf(c, ns, l, SlotList(ph, Experts(ns)));
    forall e: nat | e < Experts(ns) && ph == GateUp
      ensures SelectedAs(j.artifacts, ns, l, ph, selected[2 * e], e, W1) && SelectedAs(j.artifacts, ns, l, ph, selected[2 * e + 1], e, W3)
    {
      PairAt(Experts(ns), e);
      EntryIs(c, j, ns, l, ph, 2 * e, e, W1);
      EntryIs(c, j, ns, l, ph, 2 * e + 1, e, W3);
    }
    forall e: nat | e < Experts(ns) && ph == Down ensures SelectedAs(j.artifacts, ns, l, ph, selected[e], e, W2) {
      DownAt(Experts(ns), e);
      EntryIs(c, j, ns, l, ph, e, e, W2);
    }
  }

  lemma PhasesMean(c: Config, j: Store, ns: Namespace, l: nat, ph: Phase)
    requires Good(c, j) && PhaseComplete(ns, l, ph) in j.artifacts
    ensures PhaseMeans(j.artifacts, ns, l, ph)
  {
    hide Good, Config.Valid, SelectionOf, SlotList, SelectedInOrder;
    PhaseAt(c, j, ns, l, ph);
    RecordHolds(c, j, PhaseComplete(ns, l, ph));
    EntriesAre(c, j, ns, l, ph);
    SelectionKeys(c, ns, l, SlotList(ph, Experts(ns)));
    PhaseParentsAre(c, ns, l, ph);
  }

  lemma SelectionKeys(c: Config, ns: Namespace, l: nat, slots: seq<Slot>)
    requires c.Valid()
    ensures Members(SelectedKeys(c, ns, l, slots))
         == set n | 0 <= n < |SelectionOf(c, ns, l, slots)| :: SelectionOf(c, ns, l, slots)[n].1
  {
    hide SelectedKey, Config.Valid;
    forall k | k in SelectedKeys(c, ns, l, slots) ensures exists n :: 0 <= n < |slots| && SelectionOf(c, ns, l, slots)[n].1 == k {
      var n :| 0 <= n < |slots| && SelectedKeys(c, ns, l, slots)[n] == k;
      assert SelectionOf(c, ns, l, slots)[n].1 == k;
    }
    forall n | 0 <= n < |slots| ensures SelectionOf(c, ns, l, slots)[n].1 in SelectedKeys(c, ns, l, slots) {
      assert SelectedKeys(c, ns, l, slots)[n] == SelectionOf(c, ns, l, slots)[n].1;
    }
  }

  lemma PhaseParentsAre(c: Config, ns: Namespace, l: nat, ph: Phase)
    requires c.Valid() && l < Layers(ns)
    ensures Members(Parents(c, PhaseComplete(ns, l, ph)))
         == {TierChoice(ns, l, ph)} + Members(SelectedKeys(c, ns, l, SlotList(ph, Experts(ns))))
  {
    hide SelectedKeys, SlotList, Config.Valid;
  }

  // ---------- propagation ----------

  lemma OutputsMean(c: Config, j: Store, ns: Namespace, l: nat, i: nat)
    requires Good(c, j) && Output(ns, l, i) in j.artifacts
    ensures OutputMeans(j.artifacts, ns, l, i)
  {
    hide Good, Config.Valid, FrontierKey, SelectedTerms, InstalledBoth;
    RecordHolds(c, j, Output(ns, l, i));
    assert PhaseComplete(ns, l, Down) in Parents(c, Output(ns, l, i));
    PhaseAt(c, j, ns, l, Down);
    BatchListAt(c, j, ns, l);
    InventoryAt(c, j, ns, l);
    InputAt(c, j, ns, l, i);
    BlockInstalls(c, j, ns, l);
  }

  lemma PhasesAreApart(c: Config, ns: Namespace, l: nat)
    requires c.Valid()
    ensures forall s :: s in SelectedTerms(c, ns, l, GateUp) ==> s !in SelectedTerms(c, ns, l, Down)
  {
    hide CandidateTerm, Config.Valid, BitsOf;
  }

  // ---------- all other records ----------

  lemma HandoffAt(c: Config, j: Store, k: Key)
    requires Good(c, j) && k in j.artifacts && (k.NamespaceInputs? || k.BlockComplete? || k == CorpusComplete || k == DraftComplete)
    ensures c.Valid() && InRun(c, k) && IsHandoff(j.artifacts, k) && j.artifacts[k].payload.state == StateOf(c, k)
  {
    hide Good, FrontierKeys, Config.Valid, Parents;
    RecordHolds(c, j, k);
  }

  lemma InputsMeanThat(c: Config, j: Store, ns: Namespace, l: nat)
    requires Good(c, j) && InputInventory(ns, l) in j.artifacts
    ensures InputsMean(c, j.artifacts, ns, l)
  {
    hide Good, FrontierKey, Config.Valid, Swept, IsTemporary;
    RecordHolds(c, j, InputInventory(ns, l));
    CommittedIsPlanned(c, j, InputInventory(ns, l));
    if l > 0 {
      SweptIsCommitted(c, j, BlockComplete(ns, l - 1));
      HandoffAt(c, j, BlockComplete(ns, l - 1));
    } else {
      HandoffAt(c, j, Key.NamespaceInputs(ns));
    }
  }

  lemma RoutedsMean(c: Config, j: Store, ns: Namespace, l: nat, i: nat)
    requires Good(c, j) && RoutedBatch(ns, l, i) in j.artifacts
    ensures RoutedMeans(j.artifacts, ns, l, i)
  {
    hide Good, FrontierKey, Config.Valid, FrontierTerm;
    RoutedAt(c, j, ns, l, i);
    RecordHolds(c, j, RoutedBatch(ns, l, i));
    InventoryAt(c, j, ns, l);
    InputAt(c, j, ns, l, i);
  }

  lemma BatchListsMean(c: Config, j: Store, ns: Namespace, l: nat)
    requires Good(c, j) && RoutedInventory(ns, l) in j.artifacts
    ensures BatchListMeans(j.artifacts, ns, l)
  {
    hide Good, FrontierKey, Config.Valid;
    BatchListAt(c, j, ns, l);
    RecordHolds(c, j, RoutedInventory(ns, l));
    InventoryAt(c, j, ns, l);
  }

  lemma BlocksMean(c: Config, j: Store, ns: Namespace, l: nat)
    requires Good(c, j) && BlockComplete(ns, l) in j.artifacts
    ensures BlockMeans(j.artifacts, ns, l)
  {
    hide Good, Config.Valid;
    RecordHolds(c, j, BlockComplete(ns, l));
    assert InputInventory(ns, l) in Parents(c, BlockComplete(ns, l));
    InventoryAt(c, j, ns, l);
    JoinMembers([InputInventory(ns, l), PhaseComplete(ns, l, Down)], FrontierKeys(c, ns, l + 1));
  }

  lemma JoinMembers<T>(a: seq<T>, b: seq<T>)
    ensures Members(a + b) == Members(a) + Members(b)
  {
  }

  lemma CorpusMeansThat(c: Config, j: Store)
    requires Good(c, j) && CorpusComplete in j.artifacts
    ensures CorpusMeans(c, j.artifacts)
  {
    hide Good;
    RecordHolds(c, j, CorpusComplete);
    JoinMembers([CorpusInventory], FrontierKeys(c, Base, 0));
  }

  lemma DraftMeansThat(c: Config, j: Store)
    requires Good(c, j) && DraftComplete in j.artifacts
    ensures DraftMeans(c, j.artifacts)
  {
    hide Good;
    RecordHolds(c, j, DraftComplete);
    JoinMembers([DraftInventory], FrontierKeys(c, Mtp, 0));
    forall k ensures k in FrontierKeys(c, Mtp, 0) <==> k.DraftFrontier? && k.record < |c.positions| && c.positions[k.record] != [] {
      if k.DraftFrontier? && k.record in c.draft {
        assert FrontierKeys(c, Mtp, 0)[DraftPosition(c, k.record)] == k;
      }
      if k in FrontierKeys(c, Mtp, 0) {
        var i :| 0 <= i < |c.draft| && FrontierKeys(c, Mtp, 0)[i] == k;
        assert c.draft[i] in c.draft;
      }
    }
  }

  lemma JointTerm(c: Config, i: nat)
    requires c.Valid() && i < |c.draft|
    ensures FrontierTerm(c, Mtp, 0, i) == Joint(c.draft[i], c.positions[c.draft[i]], FrontierTerm(c, Base, Layers(Base), c.draft[i]))
  {
    hide Installed, Before, SelectedTerms;
  }

  lemma JointAt(c: Config, r: nat)
    requires c.Valid() && r in c.draft
    ensures r < c.records == |c.positions| && c.positions[r] != []
    ensures StateOf(c, DraftFrontier(r)) == Tensors(Joint(r, c.positions[r], FrontierTerm(c, Base, Layers(Base), r)), 0)
    ensures Members(Parents(c, DraftFrontier(r))) == {DraftInventory, Output(Base, Last(Base), r)}
  {
    hide FrontierTerm, DraftPosition;
    JointTerm(c, DraftPosition(c, r));
  }

  lemma DraftInputsMean(c: Config, j: Store, r: nat)
    requires Good(c, j) && DraftFrontier(r) in j.artifacts
    ensures DraftInputMeans(c, j.artifacts, r)
  {
    hide Good, FrontierTerm, Config.Valid, StateOf, Parents;
    RecordHolds(c, j, DraftFrontier(r));
    JointAt(c, r);
    assert Output(Base, Last(Base), r) in Members(Parents(c, DraftFrontier(r)));
    InputAt(c, j, Base, Layers(Base), r);
  }

  lemma StartsMean(c: Config, j: Store, ns: Namespace)
    requires Good(c, j) && Key.NamespaceInputs(ns) in j.artifacts
    ensures StartMeans(j.artifacts, ns)
  {
    hide Good, FrontierKey, Config.Valid, Swept, IsTemporary;
    RecordHolds(c, j, Key.NamespaceInputs(ns));
    CommittedIsPlanned(c, j, Key.NamespaceInputs(ns));
    if ns == Mtp {
      SweptIsCommitted(c, j, RetirementMarker(Base));
      RecordHolds(c, j, RetirementMarker(Base));
      assert DraftComplete in Parents(c, RetirementMarker(Base));
    }
    HandoffAt(c, j, if ns == Base then CorpusComplete else DraftComplete);
  }

  lemma StateAt(c: Config, j: Store, k: Key)
    requires Good(c, j) && k in j.artifacts
    ensures c.Valid() && InRun(c, k) && j.artifacts[k].payload.state == StateOf(c, k)
  {
    hide Good, StateOf, Parents, InRun, KindOf;
    RecordHolds(c, j, k);
  }

  lemma EndsMean(c: Config, j: Store, ns: Namespace)
    requires Good(c, j) && NamespaceComplete(ns) in j.artifacts
    ensures EndMeans(j.artifacts, ns)
  {
    hide Good, BlockState, Config.Valid;
    RecordHolds(c, j, NamespaceComplete(ns));
    EndParents(c, NamespaceComplete(ns));
    StateAt(c, j, BlockComplete(ns, Last(ns)));
  }

  lemma MarkersMean(c: Config, j: Store, ns: Namespace)
    requires Good(c, j) && RetirementMarker(ns) in j.artifacts
    ensures MarkerMeans(j.artifacts, ns)
  {
    hide Good, BlockState, InitialState, Config.Valid;
    RecordHolds(c, j, RetirementMarker(ns));
    EndParents(c, RetirementMarker(ns));
    StateAt(c, j, NamespaceComplete(ns));
    StateAt(c, j, if ns == Base then DraftComplete else NamespaceComplete(Mtp));
  }

  /** The draft plan, and the whole run. */
  lemma WholesMean(c: Config, j: Store, k: Key)
    requires Good(c, j) && k in j.artifacts && (k == DraftInventory || k == QuantizationComplete)
    ensures Means(c, j.artifacts, k)
  {
    hide Good, BlockState, Config.Valid;
    RecordHolds(c, j, k);
    EndParents(c, k);
    StateAt(c, j, NamespaceComplete(Base));
    if k == QuantizationComplete {
      StateAt(c, j, NamespaceComplete(Mtp));
    }
  }

  lemma EndParents(c: Config, k: Key)
    requires c.Valid() && InRun(c, k)
    ensures k.NamespaceComplete? ==> BlockComplete(k.ns, Last(k.ns)) in Parents(c, k)
    ensures k.RetirementMarker? ==> NamespaceComplete(k.ns) in Parents(c, k)
    ensures k.RetirementMarker? && k.ns == Base ==> DraftComplete in Parents(c, k)
    ensures k == DraftInventory ==> NamespaceComplete(Base) in Parents(c, k)
    ensures k == QuantizationComplete ==> NamespaceComplete(Base) in Parents(c, k) && NamespaceComplete(Mtp) in Parents(c, k)
  {
  }

  /** Every record of a run's journal means what it must. */
  lemma EveryRecordMeans(c: Config, j: Store, k: Key)
    requires Good(c, j) && k in j.artifacts
    ensures Means(c, j.artifacts, k)
  {
    hide Good, Config.Valid, StateOf, Parents, RoutedMeans, BatchListMeans, HessianMeans, CandidateMeans, TiersMean, PhaseMeans, OutputMeans, BlockMeans,
      InputsMean, CorpusMeans, DraftMeans, DraftInputMeans, StartMeans, EndMeans, MarkerMeans;
    RecordHolds(c, j, k);
    match k {
      case CorpusInventory => SmallestMean(c, j, k);
      case CorpusFrontier(r) => SmallestMean(c, j, k);
      case CorpusComplete => CorpusMeansThat(c, j);
      case NamespaceInputs(ns) => StartsMean(c, j, ns);
      case InputInventory(ns, l) => InputsMeanThat(c, j, ns, l);
      case RoutedBatch(ns, l, i) => RoutedsMean(c, j, ns, l, i);
      case RoutedInventory(ns, l) => BatchListsMean(c, j, ns, l);
      case HessianOf(ns, l, ph, e) => HessiansMean(c, j, ns, l, ph, e);
      case Candidate(ns, l, s, bits) => CandidatesMean(c, j, ns, l, s, bits);
      case TierChoice(ns, l, ph) => TiersMeanThat(c, j, ns, l, ph);
      case PhaseComplete(ns, l, ph) => PhasesMean(c, j, ns, l, ph);
      case Output(ns, l, i) => OutputsMean(c, j, ns, l, i);
      case BlockComplete(ns, l) => BlocksMean(c, j, ns, l);
      case DraftFrontier(r) => DraftInputsMean(c, j, r);
      case DraftComplete => DraftMeansThat(c, j);
      case NamespaceComplete(ns) => EndsMean(c, j, ns);
      case RetirementMarker(ns) => MarkersMean(c, j, ns);
      case _ => WholesMean(c, j, k);
    }
  }

  lemma SmallestMean(c: Config, j: Store, k: Key)
    requires Good(c, j) && k in j.artifacts && (k == CorpusInventory || k.CorpusFrontier?)
    ensures Means(c, j.artifacts, k)
  {
    hide Good, Config.Valid;
    RecordHolds(c, j, k);
  }

  // ---------- what is given up, and what is kept ----------

  /** Retired, and its payload is off the disk. */
  predicate Gone(j: Store, k: Key) {
    k in j.retirements && k !in j.files
  }

  /** Committed, not retired, and on disk as recorded. */
  predicate Kept(j: Store, k: Key) {
    k in j.artifacts && k !in j.retirements && k in j.files && j.files[k] == j.artifacts[k].payload
  }

  /** One of the block's two committed phases lists this key. */
  ghost predicate Listed(a: Records, ns: Namespace, l: nat, k: Key) {
    exists ph, n :: IsSelection(a, PhaseComplete(ns, l, ph)) && 0 <= n < |a[PhaseComplete(ns, l, ph)].payload.state.selected|
      && a[PhaseComplete(ns, l, ph)].payload.state.selected[n].1 == k
  }

  /** A block has given up its inputs, its batches, its Hessians, and its candidates that were not selected. */
  ghost predicate BlockShed(j: Store, ns: Namespace, l: nat) {
    && (IsList(j.artifacts, InputInventory(ns, l)) && forall k :: k in j.artifacts[InputInventory(ns, l)].payload.state.keys ==> Gone(j, k))
    && (forall i :: RoutedBatch(ns, l, i) in j.artifacts ==> Gone(j, RoutedBatch(ns, l, i)))
    && (forall ph, e :: HessianOf(ns, l, ph, e) in j.artifacts ==> Gone(j, HessianOf(ns, l, ph, e)))
    && (forall s, bits :: Candidate(ns, l, s, bits) in j.artifacts && !Listed(j.artifacts, ns, l, Candidate(ns, l, s, bits)) ==>
          Gone(j, Candidate(ns, l, s, bits)))
  }

  /** And still has the candidates that were. */
  ghost predicate SelectionKept(j: Store, ns: Namespace, l: nat) {
    forall k :: Listed(j.artifacts, ns, l, k) ==> Kept(j, k)
  }

  /** And its outputs. */
  ghost predicate OutputsKept(j: Store, ns: Namespace, l: nat) {
    IsHandoff(j.artifacts, BlockComplete(ns, l)) && forall k :: k in j.artifacts[BlockComplete(ns, l)].payload.state.keys ==> Kept(j, k)
  }

  lemma LiveIsKept(c: Config, j: Store, k: Key)
    requires Good(c, j) && Live(j, k)
    ensures Kept(j, k)
  {
    LiveIsStored(c, j, k);
    GoodPlans(c, j, k);
    hide Good;
  }

  /** The listed candidates are those whose tier was chosen for their slot. */
  lemma ListedAre(c: Config, j: Store, ns: Namespace, l: nat, k: Key)
    requires Good(c, j) && c.Valid() && forall ph :: PhaseComplete(ns, l, ph) in j.artifacts
    ensures Listed(j.artifacts, ns, l, k) <==>
      k.Candidate? && k.ns == ns && k.layer == l && k.slot.expert < Experts(ns) && k.bits == BitsOf(c, ns, l, k.slot)
  {
    hide Good, Config.Valid, BitsOf, SlotList;
    PhaseAt(c, j, ns, l, GateUp);
    PhaseAt(c, j, ns, l, Down);
    if Listed(j.artifacts, ns, l, k) {
      var ph, n :| IsSelection(j.artifacts, PhaseComplete(ns, l, ph)) && 0 <= n < |j.artifacts[PhaseComplete(ns, l, ph)].payload.state.selected|
        && j.artifacts[PhaseComplete(ns, l, ph)].payload.state.selected[n].1 == k;
      assert ph == GateUp || ph == Down;
      assert SlotList(ph, Experts(ns))[n] in SlotList(ph, Experts(ns));
    }
    if k.Candidate? && k.ns == ns && k.layer == l && k.slot.expert < Experts(ns) && k.bits == BitsOf(c, ns, l, k.slot) {
      var ph := PhaseOf(k.slot.projection);
      var slots := SlotList(ph, Experts(ns));
      assert k.slot in slots;
      var n :| 0 <= n < |slots| && slots[n] == k.slot;
      assert j.artifacts[PhaseComplete(ns, l, ph)].payload.state.selected[n].1 == k;
    }
  }

  lemma BlockPhasesAt(c: Config, j: Store, ns: Namespace, l: nat)
    requires Good(c, j) && BlockComplete(ns, l) in j.artifacts
    ensures c.Valid() && l < Layers(ns) && InputInventory(ns, l) in j.artifacts && forall ph :: PhaseComplete(ns, l, ph) in j.artifacts
  {
    hide Good, StateOf, Config.Valid;
    RecordHolds(c, j, BlockComplete(ns, l));
    assert PhaseComplete(ns, l, Down) in Parents(c, BlockComplete(ns, l));
    assert InputInventory(ns, l) in Parents(c, BlockComplete(ns, l));
    PhaseAt(c, j, ns, l, Down);
    forall ph ensures PhaseComplete(ns, l, ph) in j.artifacts {
      assert ph == GateUp || ph == Down;
    }
  }

  /** Sweeping behind a block gives up exactly that. */
  lemma SweptIsShed(c: Config, j: Store, ns: Namespace, l: nat)
    requires Good(c, j) && BlockComplete(ns, l) in j.artifacts && c.Valid() && Swept(c, j, BlockComplete(ns, l))
    ensures BlockShed(j, ns, l)
  {
    hide Good, BitsOf, Config.Valid, StateOf, Parents, Listed;
    BlockPhasesAt(c, j, ns, l);
    InventoryAt(c, j, ns, l);
    forall k | k in FrontierKeys(c, ns, l) ensures Gone(j, k) {
      var i :| 0 <= i < Width(c, ns) && FrontierKeys(c, ns, l)[i] == k;
      RecordHolds(c, j, k);
    }
    forall k | k in j.artifacts && (k.RoutedBatch? || k.HessianOf?) && k.ns == ns && k.layer == l ensures Gone(j, k) {
      RecordHolds(c, j, k);
    }
    forall s, bits | Candidate(ns, l, s, bits) in j.artifacts && !Listed(j.artifacts, ns, l, Candidate(ns, l, s, bits))
      ensures Gone(j, Candidate(ns, l, s, bits))
    {
      RecordHolds(c, j, Candidate(ns, l, s, bits));
      ListedAre(c, j, ns, l, Candidate(ns, l, s, bits));
    }
  }

  /** At any time, what a completed block selected is kept, and so are its outputs until they are consumed. */
  lemma BlockKeeps(c: Config, j: Store, ns: Namespace, l: nat)
    requires Good(c, j) && BlockComplete(ns, l) in j.artifacts
    ensures SelectionKept(j, ns, l)
    ensures BarrierOf(Output(ns, l, 0)) !in j.artifacts ==> OutputsKept(j, ns, l)
  {
    hide Good, BitsOf, Config.Valid, StateOf, Listed;
    BlockPhasesAt(c, j, ns, l);
    forall k | Listed(j.artifacts, ns, l, k) ensures Kept(j, k) {
      ListedAre(c, j, ns, l, k);
      PhaseAt(c, j, ns, l, PhaseOf(k.slot.projection));
      assert k.slot in SlotList(PhaseOf(k.slot.projection), Experts(ns));
      KeptIsLive(c, j, k);
      LiveIsKept(c, j, k);
    }
    if BarrierOf(Output(ns, l, 0)) !in j.artifacts {
      OutputsAreKept(c, j, ns, l);
    }
  }

  lemma OutputsAreKept(c: Config, j: Store, ns: Namespace, l: nat)
    requires Good(c, j) && BlockComplete(ns, l) in j.artifacts && BarrierOf(Output(ns, l, 0)) !in j.artifacts
    ensures OutputsKept(j, ns, l)
  {
    hide Good, Config.Valid;
    RecordHolds(c, j, BlockComplete(ns, l));
    HandoffAt(c, j, BlockComplete(ns, l));
    forall k | k in FrontierKeys(c, ns, l + 1) ensures Kept(j, k) {
      assert k in Parents(c, BlockComplete(ns, l));
      KeptIsLive(c, j, k);
      LiveIsKept(c, j, k);
    }
  }

  /** A namespace has given up its last frontier. */
  ghost predicate FrontierShed(j: Store, ns: Namespace) {
    IsHandoff(j.artifacts, NamespaceComplete(ns)) && forall k :: k in j.artifacts[NamespaceComplete(ns)].payload.state.keys ==> Gone(j, k)
  }

  lemma SweptFrontierIsShed(c: Config, j: Store, ns: Namespace)
    requires Good(c, j) && c.Valid() && NamespaceComplete(ns) in j.artifacts && Swept(c, j, RetirementMarker(ns))
    ensures FrontierShed(j, ns)
  {
    hide Good, Config.Valid;
    StateAt(c, j, NamespaceComplete(ns));
  }

  lemma BlockInstalls(c: Config, j: Store, ns: Namespace, l: nat)
    requires Good(c, j) && PhaseComplete(ns, l, Down) in j.artifacts
    ensures c.Valid() && InstalledBoth(j.artifacts, ns, l, Installed(c, ns, l))
  {
    hide Good, Config.Valid, SelectedTerms, Installs, Selects;
    PhaseAt(c, j, ns, l, Down);
    PhasesAreApart(c, ns, l);
    InstalledAt(c, j, ns, l, GateUp, Installed(c, ns, l));
    InstalledAt(c, j, ns, l, Down, Installed(c, ns, l));
  }
}
