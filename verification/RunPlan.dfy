/** What a run means: the artifact keys, the value each key stands for, and the edges between them.

    The numerical work (adapters, forward passes, capture, search) is uninterpreted: each result is a
    term that names the function and its arguments, so equal terms are equal results under every
    interpretation. Only the projection score is a function of the term, because it decides tiers. */
module RunPlan {
  import opened Journal
  import opened Options
  import opened Recipe

  // ---------- keys ----------

  datatype Key =
    | CorpusInventory
    | CorpusFrontier(record: nat)
    | CorpusComplete
    | NamespaceInputs(ns: Namespace)
    | InputInventory(ns: Namespace, layer: nat)
    | RoutedBatch(ns: Namespace, layer: nat, batch: nat)
    | RoutedInventory(ns: Namespace, layer: nat)
    | HessianOf(ns: Namespace, layer: nat, phase: Phase, expert: nat)
    | Candidate(ns: Namespace, layer: nat, slot: Slot, bits: nat)
    | TierChoice(ns: Namespace, layer: nat, phase: Phase)
    | PhaseComplete(ns: Namespace, layer: nat, phase: Phase)
    | Output(ns: Namespace, layer: nat, batch: nat)
    | BlockComplete(ns: Namespace, layer: nat)
    | NamespaceComplete(ns: Namespace)
    | DraftInventory
    | DraftFrontier(record: nat)
    | DraftComplete
    | RetirementMarker(ns: Namespace)
    | QuantizationComplete

  /** One routed projection of a block. */
  datatype Slot = Slot(expert: nat, projection: Projection)

  // ---------- values ----------

  datatype Term =
    | Prepared(record: nat)
    | Joint(record: nat, positions: seq<nat>, source: Term)
    | FromReplay(ns: Namespace, layer: nat, input: Term)
    | Captured(ns: Namespace, layer: nat, phase: Phase, expert: nat, installed: map<Slot, Term>, batches: seq<Term>)
    | Searched(ns: Namespace, layer: nat, slot: Slot, bits: nat, hessian: Term)
    | Advanced(ns: Namespace, layer: nat, installed: map<Slot, Term>, input: Term)

  datatype State =
    | Corpus(records: nat)
    | Tensors(term: Term, nextLayer: nat)
    | KeyList(keys: seq<Key>, devices: nat)
    | Handoff(keys: seq<Key>, phase: Option<Key>, nextLayer: nat)
    | Upgrades(experts: map<Projection, seq<nat>>)
    | Selection(selected: seq<(Slot, Key)>)
    | DraftPlan(positions: seq<seq<nat>>, main: State)
    | Authorization(frontier: State, downstreamKey: Key, downstream: State)
    | Completion(main: State, draft: State)

  /** A payload file carries its kind and the key it was written for, and the loaders check both. */
  datatype File = File(kind: Kind, artifact: Key, state: State)

  // ---------- one run's fixed inputs ----------

  /** `draft` lists the records with selected anchors, in corpus order; `replicas` counts the devices
      that propagate activations. */
  datatype Config = Config(
    records: nat, positions: seq<seq<nat>>, draft: seq<nat>,
    score: Term -> real, replicas: nat)
  {
    ghost predicate Valid() {
      && records > 0 && |positions| == records
      && draft != [] && (forall i :: 0 <= i < |draft| ==> draft[i] < records)
      && (forall i, j :: 0 <= i < j < |draft| ==> draft[i] < draft[j])
      && (forall r: nat :: r < records ==> (r in draft <==> positions[r] != []))
      && 1 <= replicas <= 2
    }
  }

  function Width(c: Config, ns: Namespace): nat {
    if ns == Base then c.records else |c.draft|
  }

  function Last(ns: Namespace): nat {
    Layers(ns) - 1
  }

  /** The frontier that layer `l` of a namespace consumes; the last one is the namespace's result. */
  function FrontierKey(c: Config, ns: Namespace, l: nat, i: nat): Key
    requires i < Width(c, ns)
  {
    if l > 0 then Output(ns, l - 1, i)
    else if ns == Base then CorpusFrontier(i)
    else DraftFrontier(c.draft[i])
  }

  function FrontierKeys(c: Config, ns: Namespace, l: nat): (r: seq<Key>) {
    seq(Width(c, ns), i requires 0 <= i < Width(c, ns) => FrontierKey(c, ns, l, i))
  }

  function RoutedKeys(c: Config, ns: Namespace, l: nat): seq<Key> {
    seq(Width(c, ns), i requires 0 <= i < Width(c, ns) => RoutedBatch(ns, l, i))
  }

  // ---------- what each key stands for ----------

  function Rank(ns: Namespace): nat {
    if ns == Base then 0 else 1
  }

  function FrontierTerm(c: Config, ns: Namespace, l: nat, i: nat): Term
    requires c.Valid() && i < Width(c, ns)
    decreases Rank(ns), l, 0
  {
    if l > 0 then Advanced(ns, l - 1, Installed(c, ns, l - 1), FrontierTerm(c, ns, l - 1, i))
    else if ns == Base then Prepared(i)
    else Joint(c.draft[i], c.positions[c.draft[i]], FrontierTerm(c, Base, Layers(Base), c.draft[i]))
  }

  function RoutedTerm(c: Config, ns: Namespace, l: nat, i: nat): Term
    requires c.Valid() && i < Width(c, ns)
    decreases Rank(ns), l, 1
  {
    FromReplay(ns, l, FrontierTerm(c, ns, l, i))
  }

  function RoutedTerms(c: Config, ns: Namespace, l: nat): (r: seq<Term>)
    requires c.Valid()
    ensures |r| == Width(c, ns)
    decreases Rank(ns), l, 2
  {
    seq(Width(c, ns), i requires 0 <= i < Width(c, ns) => RoutedTerm(c, ns, l, i))
  }

  /** The projections already installed when a phase starts. */
  function Before(c: Config, ns: Namespace, l: nat, ph: Phase): map<Slot, Term>
    requires c.Valid()
    decreases Rank(ns), l, if ph == GateUp then 2 else 7
  {
    if ph == GateUp then map[] else SelectedTerms(c, ns, l, GateUp)
  }

  function HessianTerm(c: Config, ns: Namespace, l: nat, ph: Phase, e: nat): Term
    requires c.Valid()
    decreases Rank(ns), l, if ph == GateUp then 3 else 8
  {
    Captured(ns, l, ph, e, Before(c, ns, l, ph), RoutedTerms(c, ns, l))
  }

  function CandidateTerm(c: Config, ns: Namespace, l: nat, s: Slot, bits: nat): Term
    requires c.Valid()
    decreases Rank(ns), l, if PhaseOf(s.projection) == GateUp then 4 else 9
  {
    Searched(ns, l, s, bits, HessianTerm(c, ns, l, PhaseOf(s.projection), s.expert))
  }

  function Scores(c: Config, ns: Namespace, l: nat, p: Projection): (r: seq<real>)
    requires c.Valid()
    ensures |r| == Experts(ns)
    decreases Rank(ns), l, if PhaseOf(p) == GateUp then 5 else 10, 0
  {
    seq(Experts(ns), e requires 0 <= e < Experts(ns) => c.score(CandidateTerm(c, ns, l, Slot(e, p), 3)))
  }

  function UpgradesOf(c: Config, ns: Namespace, l: nat, p: Projection): seq<nat>
    requires c.Valid()
    decreases Rank(ns), l, if PhaseOf(p) == GateUp then 5 else 10, 1
  {
    QuotasAreAQuarter(Experts(ns));
    Top(Scores(c, ns, l, p), Quota(ns, p))
  }

  function BitsOf(c: Config, ns: Namespace, l: nat, s: Slot): nat
    requires c.Valid()
    decreases Rank(ns), l, if PhaseOf(s.projection) == GateUp then 5 else 10, 2
  {
    if s.expert in UpgradesOf(c, ns, l, s.projection) then 4 else 3
  }

  function SelectedTerms(c: Config, ns: Namespace, l: nat, ph: Phase): map<Slot, Term>
    requires c.Valid()
    decreases Rank(ns), l, if ph == GateUp then 6 else 11
  {
    map s | s in SlotList(ph, Experts(ns)) :: CandidateTerm(c, ns, l, s, BitsOf(c, ns, l, s))
  }

  function Installed(c: Config, ns: Namespace, l: nat): map<Slot, Term>
    requires c.Valid()
    decreases Rank(ns), l, 12
  {
    SelectedTerms(c, ns, l, GateUp) + SelectedTerms(c, ns, l, Down)
  }

  function Row(ph: Phase, e: nat): seq<Slot> {
    if ph == GateUp then [Slot(e, W1), Slot(e, W3)] else [Slot(e, W2)]
  }

  /** The slots of a phase, expert by expert, as the selection loop visits them. */
  function SlotList(ph: Phase, experts: nat): (r: seq<Slot>)
    ensures forall s :: s in r <==> s.expert < experts && PhaseOf(s.projection) == ph
  {
    if experts == 0 then [] else SlotList(ph, experts - 1) + Row(ph, experts - 1)
  }

  lemma {:induction false} SlotListIsDistinct(ph: Phase, experts: nat)
    ensures Distinct(SlotList(ph, experts))
  {
    if experts > 0 {
      SlotListIsDistinct(ph, experts - 1);
    }
  }

  // ---------- payloads ----------

  function KindOf(k: Key): Kind {
    match k
    case CorpusInventory => Kind.Inventory
    case CorpusFrontier(_) => Replay
    case CorpusComplete => Inputs
    case NamespaceInputs(_) => Kind.NamespaceInputs
    case InputInventory(_, _) => Kind.Inventory
    case RoutedBatch(_, _, _) => Kind.Routed
    case RoutedInventory(_, _) => Kind.Inventory
    case HessianOf(_, _, _, _) => Hessian
    case Candidate(_, _, _, _) => Kind.Projection
    case TierChoice(_, _, _) => Tiers
    case PhaseComplete(_, _, _) => Kind.Phase
    case Output(_, _, _) => Replay
    case BlockComplete(_, _) => Block
    case NamespaceComplete(_) => Kind.Namespace
    case DraftInventory => Kind.Inventory
    case DraftFrontier(_) => Replay
    case DraftComplete => Inputs
    case RetirementMarker(_) => NamespaceRetirement
    case QuantizationComplete => Quantization
  }

  /** The keys that a run with these inputs can commit. */
  predicate InRun(c: Config, k: Key)
    requires c.Valid()
  {
    match k
    case CorpusFrontier(r) => r < c.records
    case InputInventory(ns, l) => l < Layers(ns)
    case RoutedBatch(ns, l, i) => l < Layers(ns) && i < Width(c, ns)
    case RoutedInventory(ns, l) => l < Layers(ns)
    case HessianOf(ns, l, _, e) => l < Layers(ns) && e < Experts(ns)
    case Candidate(ns, l, s, bits) =>
      l < Layers(ns) && s.expert < Experts(ns) && (bits == 3 || (bits == 4 && BitsOf(c, ns, l, s) == 4))
    case TierChoice(ns, l, _) => l < Layers(ns)
    case PhaseComplete(ns, l, _) => l < Layers(ns)
    case Output(ns, l, i) => l < Layers(ns) && i < Width(c, ns)
    case BlockComplete(ns, l) => l < Layers(ns)
    case DraftFrontier(r) => r in c.draft
    case _ => true
  }

  function SelectedKey(c: Config, ns: Namespace, l: nat, s: Slot): Key
    requires c.Valid()
  {
    Candidate(ns, l, s, BitsOf(c, ns, l, s))
  }

  function SelectionOf(c: Config, ns: Namespace, l: nat, slots: seq<Slot>): seq<(Slot, Key)>
    requires c.Valid()
  {
    seq(|slots|, i requires 0 <= i < |slots| => (slots[i], SelectedKey(c, ns, l, slots[i])))
  }

  function BlockState(c: Config, ns: Namespace, l: nat): State {
    Handoff(FrontierKeys(c, ns, l + 1), Some(PhaseComplete(ns, l, Down)), l + 1)
  }

  function InitialState(c: Config, ns: Namespace): State {
    Handoff(FrontierKeys(c, ns, 0), None, 0)
  }

  function NamespaceState(c: Config, ns: Namespace): State {
    BlockState(c, ns, Last(ns))
  }

  function DraftState(c: Config): State {
    DraftPlan(c.positions, NamespaceState(c, Base))
  }

  function DraftPosition(c: Config, r: nat): (i: nat)
    requires c.Valid() && r in c.draft
    ensures i < |c.draft| && c.draft[i] == r
  {
    var i :| 0 <= i < |c.draft| && c.draft[i] == r; i
  }

  function TierState(c: Config, ns: Namespace, l: nat, ph: Phase): State
    requires c.Valid()
  {
    Upgrades(map p | p in Projections(ph) :: UpgradesOf(c, ns, l, p))
  }

  function StateOf(c: Config, k: Key): State
    requires c.Valid() && InRun(c, k)
  {
    match k
    case CorpusInventory => Corpus(c.records)
    case CorpusFrontier(r) => Tensors(FrontierTerm(c, Base, 0, r), 0)
    case CorpusComplete => InitialState(c, Base)
    case NamespaceInputs(ns) => InitialState(c, ns)
    case InputInventory(ns, l) => KeyList(FrontierKeys(c, ns, l), c.replicas)
    case RoutedBatch(ns, l, i) => Tensors(RoutedTerm(c, ns, l, i), l)
    case RoutedInventory(ns, l) => KeyList(RoutedKeys(c, ns, l), 0)
    case HessianOf(ns, l, ph, e) => Tensors(HessianTerm(c, ns, l, ph, e), l)
    case Candidate(ns, l, s, bits) => Tensors(CandidateTerm(c, ns, l, s, bits), l)
    case TierChoice(ns, l, ph) => TierState(c, ns, l, ph)
    case PhaseComplete(ns, l, ph) => Selection(SelectionOf(c, ns, l, SlotList(ph, Experts(ns))))
    case Output(ns, l, i) => Tensors(FrontierTerm(c, ns, l + 1, i), l + 1)
    case BlockComplete(ns, l) => BlockState(c, ns, l)
    case NamespaceComplete(ns) => NamespaceState(c, ns)
    case DraftInventory => DraftState(c)
    case DraftFrontier(r) => Tensors(FrontierTerm(c, Mtp, 0, DraftPosition(c, r)), 0)
    case DraftComplete => InitialState(c, Mtp)
    case RetirementMarker(ns) => Authorization(NamespaceState(c, ns), Downstream(ns), DownstreamState(c, ns))
    case QuantizationComplete => Completion(NamespaceState(c, Base), NamespaceState(c, Mtp))
  }

  /** The handoff that must be complete before a namespace's last frontier may go. */
  function Downstream(ns: Namespace): Key {
    if ns == Base then DraftComplete else NamespaceComplete(Mtp)
  }

  function DownstreamState(c: Config, ns: Namespace): State {
    if ns == Base then InitialState(c, Mtp) else NamespaceState(c, Mtp)
  }

  function FileOf(c: Config, k: Key): File
    requires c.Valid() && InRun(c, k)
  {
    File(KindOf(k), k, StateOf(c, k))
  }

  // ---------- edges ----------

  function Row3(ns: Namespace, l: nat, p: Projection): seq<Key> {
    seq(Experts(ns), e requires 0 <= e < Experts(ns) => Candidate(ns, l, Slot(e, p), 3))
  }

  function TierParents(ns: Namespace, l: nat, ph: Phase): seq<Key> {
    if ph == GateUp then Row3(ns, l, W1) + Row3(ns, l, W3) else Row3(ns, l, W2)
  }

  function SelectedKeys(c: Config, ns: Namespace, l: nat, slots: seq<Slot>): seq<Key>
    requires c.Valid()
  {
    seq(|slots|, i requires 0 <= i < |slots| => SelectedKey(c, ns, l, slots[i]))
  }

  /** What the first artifacts of a phase depend on. */
  function PhaseParent(ns: Namespace, l: nat, ph: Phase): Key {
    if ph == GateUp then RoutedInventory(ns, l) else PhaseComplete(ns, l, GateUp)
  }

  /** The dependencies each key is committed with, in the order the code lists them. */
  function Parents(c: Config, k: Key): seq<Key>
    requires c.Valid() && InRun(c, k)
  {
    match k
    case CorpusInventory => []
    case CorpusFrontier(r) => [CorpusInventory]
    case CorpusComplete => [CorpusInventory] + FrontierKeys(c, Base, 0)
    case NamespaceInputs(ns) => FrontierKeys(c, ns, 0)
    case InputInventory(ns, l) => FrontierKeys(c, ns, l)
    case RoutedBatch(ns, l, i) => [FrontierKey(c, ns, l, i), InputInventory(ns, l)]
    case RoutedInventory(ns, l) => RoutedKeys(c, ns, l)
    case HessianOf(ns, l, ph, e) => [PhaseParent(ns, l, ph)]
    case Candidate(ns, l, s, bits) => [HessianOf(ns, l, PhaseOf(s.projection), s.expert)]
    case TierChoice(ns, l, ph) => TierParents(ns, l, ph)
    case PhaseComplete(ns, l, ph) => [TierChoice(ns, l, ph)] + SelectedKeys(c, ns, l, SlotList(ph, Experts(ns)))
    case Output(ns, l, i) => [FrontierKey(c, ns, l, i), PhaseComplete(ns, l, Down)]
    case BlockComplete(ns, l) => [InputInventory(ns, l), PhaseComplete(ns, l, Down)] + FrontierKeys(c, ns, l + 1)
    case NamespaceComplete(ns) => [Key.NamespaceInputs(ns), BlockComplete(ns, Last(ns))]
    case DraftInventory => [CorpusInventory, NamespaceComplete(Base)]
    case DraftFrontier(r) => [DraftInventory, Output(Base, Last(Base), r)]
    case DraftComplete => [DraftInventory] + FrontierKeys(c, Mtp, 0)
    case RetirementMarker(ns) => if ns == Base then [NamespaceComplete(Base), DraftComplete] else [NamespaceComplete(Mtp)]
    case QuantizationComplete => [NamespaceComplete(Base), NamespaceComplete(Mtp)]
  }

  // ---------- what may be given up, and when ----------

  /** A rolling frontier, a capture, or a K3 candidate that lost to its K4 upgrade. */
  predicate IsTemporary(c: Config, k: Key)
    requires c.Valid()
  {
    InRun(c, k) && match k
    case CorpusFrontier(_) => true
    case DraftFrontier(_) => true
    case Output(_, _, _) => true
    case RoutedBatch(_, _, _) => true
    case HessianOf(_, _, _, _) => true
    case Candidate(ns, l, s, bits) => bits != BitsOf(c, ns, l, s)
    case _ => false
  }

  /** The one barrier behind which a temporary may be retired. */
  function BarrierOf(k: Key): Key {
    match k
    case CorpusFrontier(_) => BlockComplete(Base, 0)
    case DraftFrontier(_) => BlockComplete(Mtp, 0)
    case Output(ns, l, _) => if l < Last(ns) then BlockComplete(ns, l + 1) else RetirementMarker(ns)
    case RoutedBatch(ns, l, _) => BlockComplete(ns, l)
    case HessianOf(ns, l, _, _) => BlockComplete(ns, l)
    case Candidate(ns, l, _, _) => BlockComplete(ns, l)
    case _ => k
  }
}
