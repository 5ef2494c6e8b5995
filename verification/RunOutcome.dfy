/** What a finished run leaves, whatever happened on the way. */
module RunOutcome {
  import opened Journal
  import opened Recipe
  import opened RunPlan
  import opened RunInvariant
  import opened RunMeaning

  // ---------- a finished run committed everything ----------

  lemma CompletionReaches(c: Config, j: Store)
    requires Good(c, j) && QuantizationComplete in j.artifacts
    ensures forall ns :: NamespaceComplete(ns) in j.artifacts && RetirementMarker(ns) in j.artifacts
    ensures forall ns :: Swept(c, j, RetirementMarker(ns)) && Key.NamespaceInputs(ns) in j.artifacts
    ensures CorpusComplete in j.artifacts && DraftComplete in j.artifacts
  {
    hide Good, StateOf, Swept, IsTemporary;
    GoodConfig(c, j);
    CommittedIsPlanned(c, j, QuantizationComplete);
    SweptIsCommitted(c, j, RetirementMarker(Mtp));
    NamespaceReaches(c, j, Base);
    NamespaceReaches(c, j, Mtp);
    CommittedIsPlanned(c, j, Key.NamespaceInputs(Mtp));
    SweptIsCommitted(c, j, RetirementMarker(Base));
    CommittedIsPlanned(c, j, RetirementMarker(Base));
    CommittedIsPlanned(c, j, Key.NamespaceInputs(Base));
    forall ns
      ensures NamespaceComplete(ns) in j.artifacts && RetirementMarker(ns) in j.artifacts
      ensures Swept(c, j, RetirementMarker(ns)) && Key.NamespaceInputs(ns) in j.artifacts
    {
      if ns == Base {} else {}
    }
  }

  lemma NamespaceReaches(c: Config, j: Store, ns: Namespace)
    requires Good(c, j) && NamespaceComplete(ns) in j.artifacts
    ensures Key.NamespaceInputs(ns) in j.artifacts
    ensures forall l: nat :: l < Layers(ns) ==> BlockComplete(ns, l) in j.artifacts && Swept(c, j, BlockComplete(ns, l))
  {
    hide Good, StateOf, Swept, IsTemporary;
    GoodConfig(c, j);
    CommittedIsPlanned(c, j, NamespaceComplete(ns));
    forall l: nat | l < Layers(ns) ensures BlockComplete(ns, l) in j.artifacts && Swept(c, j, BlockComplete(ns, l)) {
      EarlierBlocks(c, j, ns, Last(ns), l);
      if l < Last(ns) {
        EarlierBlocks(c, j, ns, Last(ns), l + 1);
        BlocksArePrefix(c, j, ns, l + 1);
        CommittedIsPlanned(c, j, InputInventory(ns, l + 1));
      }
    }
  }

  /** Every key of a completed block. */
  lemma BlockIsWhole(c: Config, j: Store, ns: Namespace, l: nat, k: Key)
    requires Good(c, j) && BlockComplete(ns, l) in j.artifacts && InRun(c, k)
    requires k == InputInventory(ns, l) || k == RoutedInventory(ns, l)
      || (k.RoutedBatch? && k.ns == ns && k.layer == l)
      || (k.Output? && k.ns == ns && k.layer == l)
    ensures k in j.artifacts
  {
    hide Good, StateOf, Ancestor;
    GoodConfig(c, j);
    BlocksArePrefix(c, j, ns, l);
    BlockIsUnder(c, j, BlockComplete(ns, l), ns, l);
    if k.RoutedBatch? {
      RoutedIsAncestor(c, j, ns, l, k.batch);
    } else if k.Output? {
      FrontierKeyIsMember(c, ns, l + 1, k.batch);
      CommittedIsPlanned(c, j, BlockComplete(ns, l));
    }
  }

  lemma PhaseIsWhole(c: Config, j: Store, ns: Namespace, l: nat, ph: Phase, k: Key)
    requires Good(c, j) && BlockComplete(ns, l) in j.artifacts && InRun(c, k)
    requires k == TierChoice(ns, l, ph) || k == PhaseComplete(ns, l, ph)
      || (k.HessianOf? && k.ns == ns && k.layer == l && k.phase == ph)
      || (k.Candidate? && k.ns == ns && k.layer == l && PhaseOf(k.slot.projection) == ph)
    ensures k in j.artifacts
  {
    hide Good, StateOf, Ancestor;
    GoodConfig(c, j);
    BlocksArePrefix(c, j, ns, l);
    BlockIsUnder(c, j, BlockComplete(ns, l), ns, l);
    CommittedIsPlanned(c, j, PhaseComplete(ns, l, ph));
    if k.HessianOf? {
      PhaseIsUnder(c, j, BlockComplete(ns, l), ns, l, ph, k.expert);
    } else if k.Candidate? {
      assert Slot(k.slot.expert, k.slot.projection) == k.slot;
      if k.bits == 3 {
        PhaseIsUnder(c, j, BlockComplete(ns, l), ns, l, ph, k.slot.expert);
      } else {
        SelectedIsParent(c, ns, l, k.slot);
      }
    }
  }

  lemma SelectedIsParent(c: Config, ns: Namespace, l: nat, s: Slot)
    requires c.Valid() && l < Layers(ns) && s.expert < Experts(ns)
    ensures SelectedKey(c, ns, l, s) in Parents(c, PhaseComplete(ns, l, PhaseOf(s.projection)))
  {
    var slots := SlotList(PhaseOf(s.projection), Experts(ns));
    var i :| 0 <= i < |slots| && slots[i] == s;
    assert SelectedKeys(c, ns, l, slots)[i] == SelectedKey(c, ns, l, s);
  }

  /** The keys of a namespace's blocks. */
  predicate InBlock(k: Key) {
    k.InputInventory? || k.RoutedInventory? || k.RoutedBatch? || k.Output? || k.BlockComplete? || InBlockPhase(k)
  }

  predicate InBlockPhase(k: Key) {
    k.HessianOf? || k.Candidate? || k.TierChoice? || k.PhaseComplete?
  }

  lemma NamespaceIsWhole(c: Config, j: Store, k: Key)
    requires Good(c, j) && InRun(c, k) && InBlock(k) && NamespaceComplete(k.ns) in j.artifacts
    ensures k in j.artifacts
  {
    hide Good, StateOf, Swept, IsTemporary, BitsOf, Parents;
    NamespaceReaches(c, j, k.ns);
    if InBlockPhase(k) {
      PhaseIsWhole(c, j, k.ns, k.layer, if k.Candidate? then PhaseOf(k.slot.projection) else k.phase, k);
    } else if !k.BlockComplete? {
      BlockIsWhole(c, j, k.ns, k.layer, k);
    }
  }

  lemma CompletionIsWhole(c: Config, j: Store, k: Key)
    requires Good(c, j) && QuantizationComplete in j.artifacts && InRun(c, k)
    ensures k in j.artifacts
  {
    hide Good, StateOf, Swept, IsTemporary, BitsOf;
    GoodConfig(c, j);
    CompletionReaches(c, j);
    if InBlock(k) {
      NamespaceIsWhole(c, j, k);
    } else {
      CommittedIsPlanned(c, j, CorpusComplete);
      CommittedIsPlanned(c, j, DraftComplete);
      if k.CorpusFrontier? {
        FrontierKeyIsMember(c, Base, 0, k.record);
      } else if k.DraftFrontier? {
        FrontierKeyIsMember(c, Mtp, 0, DraftPosition(c, k.record));
      }
    }
  }

  lemma CompletionIsSwept(c: Config, j: Store, t: Key)
    requires Good(c, j) && QuantizationComplete in j.artifacts && IsTemporary(c, t)
    ensures t in j.retirements && t !in j.files
  {
    hide Good, StateOf, Parents;
    GoodConfig(c, j);
    CompletionReaches(c, j);
    var b := BarrierOf(t);
    if b.BlockComplete? {
      NamespaceReaches(c, j, b.ns);
    }
    assert Swept(c, j, b);
  }

  /** A record's kind decides what is left of it when the run is complete. */
  ghost predicate KindDecides(j: Store, k: Key)
    requires k in j.artifacts
  {
    match j.artifacts[k].kind
    case Replay => Gone(j, k)
    case Routed => Gone(j, k)
    case Hessian => Gone(j, k)
    case Projection => k.Candidate? && if Listed(j.artifacts, k.ns, k.layer, k) then RunMeaning.Kept(j, k) else Gone(j, k)
    case _ => RunMeaning.Kept(j, k)
  }

  /** By their records alone: when the run is complete, every frontier, batch and Hessian is gone, every
      candidate is gone unless its block selected it, and everything else is still there. */
  lemma CompletionByKind(c: Config, j: Store, k: Key)
    requires Good(c, j) && QuantizationComplete in j.artifacts && k in j.artifacts
    ensures KindDecides(j, k)
  {
    hide Good, StateOf, Parents, BitsOf, Listed;
    RecordHolds(c, j, k);
    if IsTemporary(c, k) {
      CompletionIsSwept(c, j, k);
    } else {
      KeptIsLive(c, j, k);
      LiveIsKept(c, j, k);
    }
    if k.Candidate? {
      CompletionReaches(c, j);
      NamespaceReaches(c, j, k.ns);
      BlockPhasesAt(c, j, k.ns, k.layer);
      ListedAre(c, j, k.ns, k.layer, k);
    }
  }

  // ---------- and only one outcome is possible ----------

  /** Two journals of the same run agree on every record they both hold, at any time of either run. */
  lemma {:induction false} RecordsAgree(c: Config, j: Store, n: Store, k: Key)
    requires Good(c, j) && Good(c, n) && k in j.artifacts && k in n.artifacts
    ensures j.artifacts[k] == n.artifacts[k]
    decreases j.artifacts[k]
  {
    hide Good, StateOf, Parents, InRun;
    GoodConfig(c, j);
    GoodPins(c, j);
    GoodPins(c, n);
    CommittedIsPlanned(c, j, k);
    CommittedIsPlanned(c, n, k);
    forall p | p in j.artifacts[k].parents ensures j.artifacts[k].parents[p] == n.artifacts[k].parents[p] {
      assert p in Parents(c, k);
      assert j.artifacts[k].parents[p] == j.artifacts[p];
      assert n.artifacts[k].parents[p] == n.artifacts[p];
      RecordsAgree(c, j, n, p);
    }
  }

  lemma FinalArtifacts(c: Config, j: Store, n: Store)
    requires Good(c, j) && Good(c, n) && QuantizationComplete in j.artifacts && QuantizationComplete in n.artifacts
    ensures j.artifacts == n.artifacts
  {
    forall k ensures (k in j.artifacts <==> k in n.artifacts) && (k in j.artifacts ==> j.artifacts[k] == n.artifacts[k]) {
      if k in j.artifacts {
        CommittedIsPlanned(c, j, k);
        CompletionIsWhole(c, n, k);
        RecordsAgree(c, j, n, k);
      } else if k in n.artifacts {
        CommittedIsPlanned(c, n, k);
        CompletionIsWhole(c, j, k);
      }
    }
  }

  lemma IntentIsForced(c: Config, j: Store, k: Key)
    requires Good(c, j)
    ensures k in j.retirements ==> (
      && k in j.artifacts && BarrierOf(k) in j.artifacts
      && j.retirements[k] == Intent(BarrierOf(k), j.artifacts[k], j.artifacts[BarrierOf(k)]))
  {
    assert k in j.retirements ==> IntentHolds(j, k);
  }

  lemma FinalFile(c: Config, j: Store, k: Key)
    requires Good(c, j) && QuantizationComplete in j.artifacts
    ensures k in j.files <==> InRun(c, k) && !IsTemporary(c, k)
    ensures k in j.files ==> j.files[k] == FileOf(c, k)
    ensures k in j.retirements <==> IsTemporary(c, k)
  {
    if InRun(c, k) {
      CompletionIsWhole(c, j, k);
      CommittedIsPlanned(c, j, k);
      if IsTemporary(c, k) {
        CompletionIsSwept(c, j, k);
      } else {
        KeptIsLive(c, j, k);
      }
    }
  }

  /** Confluence: crash points, resumptions, the order in which searches finish and payloads left
      over from interrupted steps make no difference to what a completed run leaves on disk. */
  lemma OneOutcome(c: Config, j: Store, n: Store)
    requires Good(c, j) && Good(c, n) && QuantizationComplete in j.artifacts && QuantizationComplete in n.artifacts
    ensures j == n
  {
    hide StateOf, Parents, Good, IsTemporary, InRun;
    FinalArtifacts(c, j, n);
    forall k
      ensures (k in j.files <==> k in n.files) && (k in j.files ==> j.files[k] == n.files[k])
      ensures (k in j.retirements <==> k in n.retirements) && (k in j.retirements ==> j.retirements[k] == n.retirements[k])
    {
      FinalFile(c, j, k);
      FinalFile(c, n, k);
      IntentIsForced(c, j, k);
      IntentIsForced(c, n, k);
    }
    assert j.files == n.files && j.retirements == n.retirements;
  }

  /** Every selected projection of a committed phase still passes a verified read, at any later time. */
  lemma SelectedStaysIntact(c: Config, j: Store, ns: Namespace, l: nat, s: Slot)
    requires Good(c, j) && PhaseComplete(ns, l, PhaseOf(s.projection)) in j.artifacts && s.expert < Experts(ns)
    ensures InRun(c, SelectedKey(c, ns, l, s)) && Intact(j, SelectedKey(c, ns, l, s))
    ensures j.files[SelectedKey(c, ns, l, s)] == FileOf(c, SelectedKey(c, ns, l, s))
  {
    hide StateOf, FileOf, Swept, Valid;
    CommittedIsPlanned(c, j, PhaseComplete(ns, l, PhaseOf(s.projection)));
    var k := SelectedKey(c, ns, l, s);
    SelectedIsParent(c, ns, l, s);
    CommittedIsPlanned(c, j, k);
    KeptIsLive(c, j, k);
    LiveIsIntact(j, k);
  }
}
