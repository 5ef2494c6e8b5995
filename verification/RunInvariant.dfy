/** The invariant that every reachable journal of a run satisfies, and what follows from it. */
module RunInvariant {
  import opened Journal
  import opened Options
  import opened Recipe
  import opened RunPlan

  type Store = Durable<Key, Key, File>
  type Entry = Record<Key, Key, File>

  function Members<T>(s: seq<T>): set<T> {
    set x | x in s
  }

  /** The record of `k` is the planned one, up to its parents' records. */
  ghost predicate Matches(c: Config, k: Key, r: Entry)
    requires c.Valid() && InRun(c, k)
  {
    r.kind == KindOf(k) && r.path == k && r.payload == FileOf(c, k) && r.parents.Keys == Members(Parents(c, k))
  }

  /** Every temporary behind a barrier is retired and its payload gone. */
  ghost predicate Swept(c: Config, j: Store, barrier: Key)
    requires c.Valid()
  {
    forall t :: IsTemporary(c, t) && BarrierOf(t) == barrier ==> t in j.retirements && t !in j.files
  }

  /** A key that the code commits only after another, although it is no dependency of it. */
  function Prerequisite(k: Key): Option<Key> {
    match k
    case NamespaceInputs(ns) => if ns == Base then Some(CorpusComplete) else None
    case InputInventory(ns, l) => if l == 0 then Some(Key.NamespaceInputs(ns)) else None
    case _ => None
  }

  /** A barrier whose retirement is finished before the key is committed. */
  function Guard(k: Key): Option<Key> {
    match k
    case InputInventory(ns, l) => if l > 0 then Some(BlockComplete(ns, l - 1)) else None
    case NamespaceComplete(ns) => Some(BlockComplete(ns, Last(ns)))
    case NamespaceInputs(ns) => if ns == Mtp then Some(RetirementMarker(Base)) else None
    case QuantizationComplete => Some(RetirementMarker(Mtp))
    case _ => None
  }

  ghost predicate Ordered(c: Config, j: Store, k: Key)
    requires c.Valid()
  {
    && (Prerequisite(k).Some? ==> Prerequisite(k).value in j.artifacts)
    && (Guard(k).Some? ==> Swept(c, j, Guard(k).value))
  }

  ghost predicate Planned(c: Config, j: Store, k: Key)
    requires c.Valid() && k in j.artifacts
  {
    && InRun(c, k) && Matches(c, k, j.artifacts[k]) && Ordered(c, j, k)
    && (k in j.files ==> j.files[k] == FileOf(c, k))
  }

  ghost predicate Good(c: Config, j: Store) {
    && c.Valid() && Valid(j)
    && (forall k :: k in j.artifacts ==> Planned(c, j, k))
    && (forall k :: k in j.retirements ==> IsTemporary(c, k) && j.retirements[k].barrier == BarrierOf(k))
    && (forall p :: p in j.files ==> InRun(c, p))
  }

  /** Only new records: nothing retired, nothing replaced. */
  ghost predicate Grown(j: Store, n: Store) {
    && (forall k :: k in j.artifacts ==> k in n.artifacts && n.artifacts[k] == j.artifacts[k])
    && n.retirements == j.retirements
  }

  /** A record that ends something: what it closes over may be retired afterwards. */
  predicate Closing(k: Key) {
    k.BlockComplete? || k.RetirementMarker?
  }

  /** Only new records, and none that closes anything. */
  ghost predicate Progress(j: Store, n: Store) {
    Grown(j, n) && forall k :: k in n.artifacts && k !in j.artifacts ==> !Closing(k)
  }

  lemma ProgressComposes(j: Store, m: Store, n: Store)
    ensures Progress(j, j)
    ensures Progress(j, m) && Progress(m, n) ==> Progress(j, n)
  {
  }

  lemma ProgressKeeps(j: Store, n: Store)
    requires Progress(j, n)
    ensures j.artifacts.Keys <= n.artifacts.Keys
    ensures forall k :: Closing(k) && k in n.artifacts ==> k in j.artifacts
  {
  }

  /** Only new records, and nothing closed but `b`. */
  ghost predicate Closed(j: Store, n: Store, b: Key) {
    Grown(j, n) && forall k :: k in n.artifacts && k !in j.artifacts && Closing(k) ==> k == b
  }

  lemma ProgressIsClosed(j: Store, m: Store, n: Store, b: Key)
    ensures Progress(j, m) ==> Closed(j, m, b)
    ensures Progress(j, m) && Closed(m, n, b) ==> Closed(j, n, b)
  {
  }

  lemma GoodStart(c: Config)
    requires c.Valid()
    ensures Good(c, Durable(map[], map[], map[]))
  {
  }

  lemma GoodConfig(c: Config, j: Store)
    requires Good(c, j)
    ensures c.Valid()
  {
  }

  lemma GoodPins(c: Config, j: Store)
    requires Good(c, j)
    ensures Pinned(j)
  {
  }

  // ---------- reading the plan off a committed key ----------

  lemma GoodPlans(c: Config, j: Store, k: Key)
    requires Good(c, j) && k in j.artifacts
    ensures Planned(c, j, k)
  {
    hide Valid, Planned;
  }

  lemma LiveIsStored(c: Config, j: Store, k: Key)
    requires Good(c, j) && Live(j, k)
    ensures Stored(j, k)
  {
    hide Planned;
  }

  lemma CommittedIsPlanned(c: Config, j: Store, k: Key)
    requires Good(c, j) && k in j.artifacts
    ensures InRun(c, k) && Matches(c, k, j.artifacts[k]) && Ordered(c, j, k)
    ensures k in j.files ==> j.files[k] == FileOf(c, k)
    ensures Live(j, k) ==> k in j.files
    ensures forall p :: p in Parents(c, k) ==> p in j.artifacts
  {
    hide Good, Valid, StateOf, Parents, InRun, Swept;
    GoodPlans(c, j, k);
    GoodPins(c, j);
    if Live(j, k) {
      LiveIsStored(c, j, k);
    }
  }

  /** What is not a temporary, or is one whose barrier is still missing, was never retired. */
  lemma KeptIsLive(c: Config, j: Store, k: Key)
    requires Good(c, j) && k in j.artifacts
    requires !IsTemporary(c, k) || BarrierOf(k) !in j.artifacts
    ensures Live(j, k)
  {
    assert k in j.retirements ==> IntentHolds(j, k);
  }

  lemma RetiredHasBarrier(c: Config, j: Store, k: Key)
    requires Good(c, j) && k in j.retirements
    ensures k in j.artifacts && IsTemporary(c, k) && BarrierOf(k) in j.artifacts
  {
    assert IntentHolds(j, k);
  }

  // ---------- well-formed edges ----------

  lemma FrontierKeysDistinct(c: Config, ns: Namespace, l: nat)
    requires c.Valid()
    ensures Distinct(FrontierKeys(c, ns, l))
  {
  }

  lemma SelectedKeysDistinct(c: Config, ns: Namespace, l: nat, ph: Phase)
    requires c.Valid()
    ensures Distinct(SelectedKeys(c, ns, l, SlotList(ph, Experts(ns))))
  {
    SlotListIsDistinct(ph, Experts(ns));
  }

  lemma TierParentsAre(ns: Namespace, l: nat, ph: Phase)
    ensures Distinct(TierParents(ns, l, ph))
    ensures forall k :: k in TierParents(ns, l, ph) <==>
      k.Candidate? && k.ns == ns && k.layer == l && k.bits == 3 && k.slot.expert < Experts(ns) && PhaseOf(k.slot.projection) == ph
  {
    forall p ensures Distinct(Row3(ns, l, p)) {
    }
    forall p, e: nat | e < Experts(ns) ensures Candidate(ns, l, Slot(e, p), 3) in Row3(ns, l, p) {
      assert Row3(ns, l, p)[e] == Candidate(ns, l, Slot(e, p), 3);
    }
    forall k | k in TierParents(ns, l, ph)
      ensures k.Candidate? && k.ns == ns && k.layer == l && k.bits == 3 && k.slot.expert < Experts(ns) && PhaseOf(k.slot.projection) == ph
    {
    }
  }

  lemma ParentsAreDistinct(c: Config, k: Key)
    requires c.Valid() && InRun(c, k)
    ensures Distinct(Parents(c, k)) && k !in Parents(c, k)
  {
    hide Config.Valid, BitsOf, Scores, Width;
    match k {
      case CorpusComplete => FrontierKeysDistinct(c, Base, 0);
      case NamespaceInputs(ns) => FrontierKeysDistinct(c, ns, 0);
      case InputInventory(ns, l) => FrontierKeysDistinct(c, ns, l);
      case TierChoice(ns, l, ph) => TierParentsAre(ns, l, ph);
      case PhaseComplete(ns, l, ph) => SelectedKeysDistinct(c, ns, l, ph);
      case BlockComplete(ns, l) => FrontierKeysDistinct(c, ns, l + 1);
      case DraftComplete => FrontierKeysDistinct(c, Mtp, 0);
      case _ =>
    }
  }

  // ---------- committing ----------

  lemma SavingKeepsGood(c: Config, j: Store, k: Key, f: File)
    requires Good(c, j) && InRun(c, k) && k !in j.artifacts
    ensures Good(c, j.(files := j.files[k := f])) && Grown(j, j.(files := j.files[k := f]))
  {
    hide StateOf, Parents, FileOf, IsTemporary, KindOf, BarrierOf, Config.Valid, Swept;
    var n := j.(files := j.files[k := f]);
    forall a | a in j.artifacts ensures Planned(c, n, a) {
      assert Planned(c, j, a);
      if Guard(a).Some? {
        SweptSurvives(c, j, n, Guard(a).value);
      }
    }
    forall a | Live(j, a) ensures j.artifacts[a].path != k {
      assert Planned(c, j, a);
    }
    SavingKeepsJournal(j, k, f);
  }

  lemma SweptSurvives(c: Config, j: Store, n: Store, barrier: Key)
    requires Good(c, j) && Swept(c, j, barrier) && j.retirements.Keys <= n.retirements.Keys
    requires forall p :: p in n.files && p !in j.files ==> p !in j.artifacts
    ensures Swept(c, n, barrier)
  {
    forall t | IsTemporary(c, t) && BarrierOf(t) == barrier ensures t in n.retirements && t !in n.files {
      RetiredHasBarrier(c, j, t);
    }
  }

  /** Committing a key with its planned payload, dependencies and order is accepted and stays good. */
  lemma CommittingKeepsGood(c: Config, j: Store, k: Key)
    requires Good(c, j) && InRun(c, k) && k !in j.artifacts
    requires k in j.files && j.files[k] == FileOf(c, k)
    requires (forall p :: p in Parents(c, k) ==> p in j.artifacts) && Ordered(c, j, k)
    ensures RecordAccepts(j, k, KindOf(k), k, Parents(c, k))
    ensures Good(c, Recorded(j, k, KindOf(k), k, Parents(c, k)))
    ensures Grown(j, Recorded(j, k, KindOf(k), k, Parents(c, k)))
  {
    ParentsAreDistinct(c, k);
    var n := Recorded(j, k, KindOf(k), k, Parents(c, k));
    RecordingKeepsJournal(j, k, KindOf(k), k, Parents(c, k));
    forall a | a in n.artifacts ensures Planned(c, n, a) {
      if a != k {
        assert Planned(c, j, a);
      }
      if Guard(a).Some? {
        SweptSurvives(c, j, n, Guard(a).value);
      }
    }
  }

  /** Publishing a live key again writes the same payload and the same record. */
  lemma RecommittingIsIdempotent(c: Config, j: Store, k: Key)
    requires Good(c, j) && k in j.artifacts && Live(j, k) && InRun(c, k)
    ensures j.(files := j.files[k := FileOf(c, k)]) == j
    ensures RecordAccepts(j, k, KindOf(k), k, Parents(c, k))
    ensures Recorded(j, k, KindOf(k), k, Parents(c, k)) == j
  {
    hide Good, StateOf, FileOf, Parents, InRun, Ordered, Config.Valid;
    GoodConfig(c, j);
    CommittedIsPlanned(c, j, k);
    ParentsAreDistinct(c, k);
    GoodPins(c, j);
    SameRecord(j, k, FileOf(c, k), Parents(c, k));
  }

  lemma SameRecord(j: Store, k: Key, f: File, parents: seq<Key>)
    requires Pinned(j) && k in j.artifacts && k in j.files && j.files[k] == f
    requires j.artifacts[k].path == k && j.artifacts[k].payload == f && j.artifacts[k].parents.Keys == Members(parents)
    requires Distinct(parents) && k !in parents && forall p :: p in parents ==> p in j.artifacts
    ensures j.(files := j.files[k := f]) == j
    ensures RecordAccepts(j, k, j.artifacts[k].kind, k, parents)
    ensures Recorded(j, k, j.artifacts[k].kind, k, parents) == j
  {
    assert j.files[k := f] == j.files;
    assert NewRecord(j, j.artifacts[k].kind, k, parents).parents == j.artifacts[k].parents;
    assert j.artifacts[k := j.artifacts[k]] == j.artifacts;
  }

  // ---------- from a barrier down to its temporaries ----------

  /** `k` is committed, as the barrier itself or as one of its ancestors. */
  ghost predicate Under(j: Store, barrier: Key, k: Key) {
    k in j.artifacts && (k == barrier || Ancestor(j.artifacts, barrier, k))
  }

  lemma Descend(c: Config, j: Store, barrier: Key, k: Key, p: Key)
    requires Good(c, j) && Under(j, barrier, k) && InRun(c, k) && p in Parents(c, k)
    ensures Under(j, barrier, p) && Ancestor(j.artifacts, barrier, p)
  {
    CommittedIsPlanned(c, j, k);
    if k == barrier {
      ParentIsAncestor(j.artifacts, barrier, p);
    } else {
      AncestorStep(j.artifacts, barrier, k, p);
    }
  }

  lemma FrontierKeyIsMember(c: Config, ns: Namespace, l: nat, i: nat)
    requires i < Width(c, ns)
    ensures FrontierKey(c, ns, l, i) in FrontierKeys(c, ns, l)
  {
    assert FrontierKeys(c, ns, l)[i] == FrontierKey(c, ns, l, i);
  }

  /** A committed phase sits on its tier choice, every K3 candidate and every Hessian. */
  lemma PhaseIsUnder(c: Config, j: Store, barrier: Key, ns: Namespace, l: nat, ph: Phase, e: nat)
    requires Good(c, j) && l < Layers(ns) && e < Experts(ns)
    requires Under(j, barrier, PhaseComplete(ns, l, ph)) && barrier != TierChoice(ns, l, ph)
    ensures forall p :: PhaseOf(p) == ph ==>
      Candidate(ns, l, Slot(e, p), 3) in j.artifacts && Ancestor(j.artifacts, barrier, Candidate(ns, l, Slot(e, p), 3))
    ensures HessianOf(ns, l, ph, e) in j.artifacts && Ancestor(j.artifacts, barrier, HessianOf(ns, l, ph, e))
  {
    hide Good, Ancestor, StateOf;
    Descend(c, j, barrier, PhaseComplete(ns, l, ph), TierChoice(ns, l, ph));
    TierParentsAre(ns, l, ph);
    forall p | PhaseOf(p) == ph
      ensures Candidate(ns, l, Slot(e, p), 3) in j.artifacts && Ancestor(j.artifacts, barrier, Candidate(ns, l, Slot(e, p), 3))
    {
      Descend(c, j, barrier, TierChoice(ns, l, ph), Candidate(ns, l, Slot(e, p), 3));
    }
    var p := if ph == GateUp then W1 else W2;
    Descend(c, j, barrier, Candidate(ns, l, Slot(e, p), 3), HessianOf(ns, l, ph, e));
  }

  /** A committed block sits on both phases, its routed batches and its inputs. */
  lemma BlockIsUnder(c: Config, j: Store, barrier: Key, ns: Namespace, l: nat)
    requires Good(c, j) && l < Layers(ns) && barrier == BlockComplete(ns, l) && barrier in j.artifacts
    ensures Under(j, barrier, InputInventory(ns, l))
    ensures forall ph :: Under(j, barrier, PhaseComplete(ns, l, ph))
    ensures Under(j, barrier, RoutedInventory(ns, l))
  {
    hide Good, Ancestor, StateOf;
    Descend(c, j, barrier, barrier, InputInventory(ns, l));
    Descend(c, j, barrier, barrier, PhaseComplete(ns, l, Down));
    PhaseIsUnder(c, j, barrier, ns, l, Down, 0);
    Descend(c, j, barrier, HessianOf(ns, l, Down, 0), PhaseComplete(ns, l, GateUp));
    PhaseIsUnder(c, j, barrier, ns, l, GateUp, 0);
    Descend(c, j, barrier, HessianOf(ns, l, GateUp, 0), RoutedInventory(ns, l));
    forall ph ensures Under(j, barrier, PhaseComplete(ns, l, ph)) {
      if ph == GateUp {} else {}
    }
  }

  lemma InputIsAncestor(c: Config, j: Store, ns: Namespace, l: nat, i: nat)
    requires Good(c, j) && l < Layers(ns) && i < Width(c, ns) && BlockComplete(ns, l) in j.artifacts
    ensures FrontierKey(c, ns, l, i) in j.artifacts
    ensures Ancestor(j.artifacts, BlockComplete(ns, l), FrontierKey(c, ns, l, i))
  {
    hide Good, Ancestor, StateOf;
    BlockIsUnder(c, j, BlockComplete(ns, l), ns, l);
    FrontierKeyIsMember(c, ns, l, i);
    Descend(c, j, BlockComplete(ns, l), InputInventory(ns, l), FrontierKey(c, ns, l, i));
  }

  /** The input of a block that a temporary is, if it is one. */
  function InputBatch(c: Config, t: Key): (i: nat)
    requires c.Valid() && IsTemporary(c, t) && (t.CorpusFrontier? || t.DraftFrontier? || t.Output?)
    ensures BarrierOf(t).BlockComplete? ==>
      i < Width(c, BarrierOf(t).ns) && FrontierKey(c, BarrierOf(t).ns, BarrierOf(t).layer, i) == t
  {
    match t
    case CorpusFrontier(r) => r
    case DraftFrontier(r) => DraftPosition(c, r)
    case Output(_, _, i) => i
  }

  lemma CaptureIsAncestor(c: Config, j: Store, ns: Namespace, l: nat, t: Key)
    requires Good(c, j) && BlockComplete(ns, l) in j.artifacts
    requires IsTemporary(c, t) && BarrierOf(t) == BlockComplete(ns, l) && (t.HessianOf? || t.Candidate?)
    ensures t in j.artifacts && Ancestor(j.artifacts, BlockComplete(ns, l), t)
  {
    hide Good, Ancestor, StateOf, Parents;
    BlockIsUnder(c, j, BlockComplete(ns, l), ns, l);
    if t.HessianOf? {
      PhaseIsUnder(c, j, BlockComplete(ns, l), ns, l, t.phase, t.expert);
    } else {
      assert Slot(t.slot.expert, t.slot.projection) == t.slot;
      PhaseIsUnder(c, j, BlockComplete(ns, l), ns, l, PhaseOf(t.slot.projection), t.slot.expert);
    }
  }

  lemma RoutedIsAncestor(c: Config, j: Store, ns: Namespace, l: nat, i: nat)
    requires Good(c, j) && l < Layers(ns) && i < Width(c, ns) && BlockComplete(ns, l) in j.artifacts
    ensures RoutedBatch(ns, l, i) in j.artifacts
    ensures Ancestor(j.artifacts, BlockComplete(ns, l), RoutedBatch(ns, l, i))
  {
    hide Good, Ancestor, StateOf;
    BlockIsUnder(c, j, BlockComplete(ns, l), ns, l);
    assert RoutedKeys(c, ns, l)[i] == RoutedBatch(ns, l, i);
    Descend(c, j, BlockComplete(ns, l), RoutedInventory(ns, l), RoutedBatch(ns, l, i));
  }

  lemma BlockTemporaryIsAncestor(c: Config, j: Store, ns: Namespace, l: nat, t: Key)
    requires Good(c, j) && BlockComplete(ns, l) in j.artifacts
    requires IsTemporary(c, t) && BarrierOf(t) == BlockComplete(ns, l)
    ensures t in j.artifacts && Ancestor(j.artifacts, BlockComplete(ns, l), t)
  {
    hide Good, Ancestor, StateOf, Parents, FrontierKey;
    GoodConfig(c, j);
    if t.RoutedBatch? {
      RoutedIsAncestor(c, j, ns, l, t.batch);
    } else if t.HessianOf? || t.Candidate? {
      CaptureIsAncestor(c, j, ns, l, t);
    } else {
      InputIsAncestor(c, j, ns, l, InputBatch(c, t));
    }
  }

  lemma FinalOutputIsAncestor(c: Config, j: Store, ns: Namespace, t: Key)
    requires Good(c, j) && RetirementMarker(ns) in j.artifacts
    requires IsTemporary(c, t) && BarrierOf(t) == RetirementMarker(ns)
    ensures t in j.artifacts && Ancestor(j.artifacts, RetirementMarker(ns), t)
  {
    hide Good, Ancestor, StateOf;
    var b := RetirementMarker(ns);
    FrontierKeyIsMember(c, ns, Layers(ns), t.batch);
    Descend(c, j, b, b, NamespaceComplete(ns));
    Descend(c, j, b, NamespaceComplete(ns), BlockComplete(ns, Last(ns)));
    Descend(c, j, b, BlockComplete(ns, Last(ns)), t);
  }

  /** Behind a committed barrier every temporary is a committed, transitive ancestor of it. */
  lemma TemporaryIsAncestor(c: Config, j: Store, t: Key)
    requires Good(c, j) && IsTemporary(c, t) && BarrierOf(t) in j.artifacts
    ensures t in j.artifacts && Ancestor(j.artifacts, BarrierOf(t), t)
  {
    var b := BarrierOf(t);
    if b.RetirementMarker? {
      FinalOutputIsAncestor(c, j, b.ns, t);
    } else {
      BlockTemporaryIsAncestor(c, j, b.ns, b.layer, t);
    }
  }

  // ---------- retiring ----------

  /** Distinct temporaries behind a committed, live barrier are always accepted for retirement. */
  lemma RetirementIsAccepted(c: Config, j: Store, keys: seq<Key>, barrier: Key)
    requires Good(c, j) && barrier in j.artifacts && (barrier.BlockComplete? || barrier.RetirementMarker?)
    requires keys != [] && Distinct(keys)
    requires forall k :: k in keys ==> IsTemporary(c, k) && BarrierOf(k) == barrier
    ensures RetireAccepts(j, keys, barrier)
  {
    KeptIsLive(c, j, barrier);
    LiveIsIntact(j, barrier);
    CommittedIsPlanned(c, j, barrier);
    forall k | k in keys ensures KeyAccepted(j, k, barrier) {
      TemporaryIsAncestor(c, j, k);
      TemporaryIsAccepted(c, j, k);
    }
  }

  lemma TemporaryIsAccepted(c: Config, j: Store, k: Key)
    requires Good(c, j) && k in j.artifacts && IsTemporary(c, k) && BarrierOf(k) in j.artifacts
    requires Ancestor(j.artifacts, BarrierOf(k), k)
    ensures KeyAccepted(j, k, BarrierOf(k))
  {
    hide Ancestor, StateOf, Parents, Swept, FileOf, BarrierOf, Config.Valid, InRun;
    assert Planned(c, j, k);
    assert k in j.retirements ==> IntentHolds(j, k);
    assert Live(j, k) ==> Stored(j, k);
    forall o | o in PathKeys(j.artifacts, k) ensures o == k {
      assert Planned(c, j, o);
    }
    assert PathKeys(j.artifacts, k) == {k};
  }

  lemma GivingUpKeepsGood(c: Config, j: Store, n: Store)
    requires Good(c, j) && Valid(n) && n.artifacts == j.artifacts && j.retirements.Keys <= n.retirements.Keys
    requires forall k :: k in n.retirements ==> IsTemporary(c, k) && n.retirements[k].barrier == BarrierOf(k)
    requires forall p :: p in n.files ==> p in j.files && n.files[p] == j.files[p]
    ensures Good(c, n)
  {
    hide StateOf, Parents, Valid, Swept;
    forall a | a in n.artifacts ensures Planned(c, n, a) {
      assert Planned(c, j, a);
      if Guard(a).Some? {
        SweptSurvives(c, j, n, Guard(a).value);
      }
    }
  }

  /** A retirement, complete or interrupted, keeps the run good. */
  lemma RetiringKeepsGood(c: Config, j: Store, keys: seq<Key>, barrier: Key, m: nat)
    requires Good(c, j) && RetireAccepts(j, keys, barrier) && m <= |keys|
    requires forall k :: k in keys ==> IsTemporary(c, k) && BarrierOf(k) == barrier
    ensures Good(c, RetiredTo(j, keys, barrier, m))
  {
    hide RetireAccepts, Planned, IsTemporary;
    AcceptedKeysAreCommitted(j, keys, barrier);
    RetiringKeepsJournal(j, keys, barrier, m);
    GivingUpKeepsGood(c, j, RetiredTo(j, keys, barrier, m));
  }

  /** Retiring all of a barrier's temporaries sweeps it. */
  lemma RetiringSweeps(c: Config, j: Store, keys: seq<Key>, barrier: Key)
    requires Good(c, j) && RetireAccepts(j, keys, barrier)
    requires forall t :: IsTemporary(c, t) && BarrierOf(t) == barrier ==> t in keys
    ensures Swept(c, Retired(j, keys, barrier), barrier)
  {
    hide RetireAccepts, StateOf, Parents;
    AcceptedKeysAreCommitted(j, keys, barrier);
    var paths := PathsOf(j.artifacts, keys);
    assert paths[..|keys|] == paths;
    forall t | IsTemporary(c, t) && BarrierOf(t) == barrier
      ensures t in Retired(j, keys, barrier).retirements && t !in Retired(j, keys, barrier).files
    {
      var i :| 0 <= i < |keys| && keys[i] == t;
      assert Planned(c, j, t);
      assert paths[i] == t;
    }
  }

  // ---------- order of the run ----------

  /** A finished sweep of a block or namespace shows that its barrier is committed. */
  lemma SweptIsCommitted(c: Config, j: Store, barrier: Key)
    requires Good(c, j) && Swept(c, j, barrier)
    requires barrier.RetirementMarker? || (barrier.BlockComplete? && barrier.layer < Layers(barrier.ns))
    ensures barrier in j.artifacts
  {
    var t := if barrier.BlockComplete? then RoutedBatch(barrier.ns, barrier.layer, 0) else Output(barrier.ns, Last(barrier.ns), 0);
    assert IsTemporary(c, t) && BarrierOf(t) == barrier;
    RetiredHasBarrier(c, j, t);
  }

  /** Completed blocks form a prefix, and a namespace with one has its inputs. */
  lemma BlocksArePrefix(c: Config, j: Store, ns: Namespace, l: nat)
    requires Good(c, j) && BlockComplete(ns, l) in j.artifacts
    ensures l < Layers(ns) && InputInventory(ns, l) in j.artifacts
    ensures l > 0 ==> BlockComplete(ns, l - 1) in j.artifacts
    ensures l == 0 ==> Key.NamespaceInputs(ns) in j.artifacts
  {
    hide Good, StateOf, Swept;
    CommittedIsPlanned(c, j, BlockComplete(ns, l));
    CommittedIsPlanned(c, j, InputInventory(ns, l));
    if l > 0 {
      SweptIsCommitted(c, j, BlockComplete(ns, l - 1));
    }
  }

  lemma {:induction false} EarlierBlocks(c: Config, j: Store, ns: Namespace, l: nat, m: nat)
    requires Good(c, j) && BlockComplete(ns, l) in j.artifacts && m <= l
    ensures BlockComplete(ns, m) in j.artifacts
    decreases l - m
  {
    hide Good;
    BlocksArePrefix(c, j, ns, l);
    if m < l {
      EarlierBlocks(c, j, ns, l - 1, m);
    }
  }
}
