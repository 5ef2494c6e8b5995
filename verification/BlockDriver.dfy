/** The causal K3/K4 phases of one block: capture, base search, tier choice, upgrades, selection. */
module BlockDriver {
  import Q = CandidateQueue
  import RunOutcome
  import opened Driver
  import opened Journal
  import opened Recipe
  import opened RunInvariant
  import opened RunMeaning
  import opened RunPlan

  /** A decoded block on a device; selected projections are installed in place. */
  class Block {
    const ns: Namespace
    const layer: nat
    var installed: map<Slot, Term>

    constructor (ns: Namespace, layer: nat)
      ensures this.ns == ns && this.layer == layer && installed == map[]
    {
      this.ns, this.layer, installed := ns, layer, map[];
    }

    method Install(s: Slot, packed: Term)
      modifies this
      ensures installed == old(installed)[s := packed]
    {
      installed := installed[s := packed];
    }
  }

  /** A block whose completion is not committed, so that none of its temporaries may be gone. */
  ghost predicate Open(c: Config, j: Store, ns: Namespace, l: nat)
    requires c.Valid()
  {
    && l < Layers(ns) && BlockComplete(ns, l) !in j.artifacts
    && forall i :: 0 <= i < Width(c, ns) ==> RoutedBatch(ns, l, i) in j.artifacts
  }

  lemma OpenSurvives(c: Config, j: Store, n: Store, ns: Namespace, l: nat)
    requires c.Valid() && Open(c, j, ns, l) && Progress(j, n)
    ensures Open(c, n, ns, l)
  {
  }

  /** In an open block, what is committed of the block can be loaded. */
  lemma OpenIsLive(c: Config, j: Store, k: Key)
    requires Good(c, j) && k in j.artifacts && BarrierOf(k) !in j.artifacts
    ensures c.Valid() && InRun(c, k) && Live(j, k)
  {
    hide StateOf, Parents;
    CommittedIsPlanned(c, j, k);
    KeptIsLive(c, j, k);
  }

  // ---------- capture ----------

  /** The experts of a subset whose Hessian is not committed. */
  method MissingHessians(d: Driver, ns: Namespace, l: nat, ph: Phase, start: nat, end: nat) returns (missing: seq<nat>)
    requires start <= end
    ensures forall e :: e in missing ==> start <= e < end
    ensures forall e: nat :: start <= e < end && e !in missing ==> HessianOf(ns, l, ph, e) in d.journal.artifacts
  {
    missing := [];
    for e := start to end
      invariant forall x :: x in missing ==> start <= x < e
      invariant forall x: nat :: start <= x < e && x !in missing ==> HessianOf(ns, l, ph, x) in d.journal.artifacts
    {
      var found := d.journal.Get(HessianOf(ns, l, ph, e), false);
      if found.value.None? {
        missing := missing + [e];
      }
    }
  }

  /** All routed batches, in corpus order, harvesting finished searches in between. */
  method LoadBatches(d: Driver, queue: Q.CandidateQueue, ns: Namespace, l: nat) returns (o: Outcome<seq<Term>>)
    requires queue.Valid() && queue.d == d && Open(d.c, d.View(), ns, l)
    modifies queue`pending, queue`results, queue`failing, queue`stopped, d.journal
    ensures !o.Raised? && (!d.journal.fallible ==> o.Done?) && d.Sound() && Progress(old(d.View()), d.View())
    ensures o.Done? ==> queue.Valid()
    ensures o.Done? ==> o.value == RoutedTerms(d.c, ns, l)
  {
    hide Good, Q.Consistent, Progress, RoutedTerm, Config.Valid;
    ghost var start := d.View();
    ProgressComposes(start, start, start);
    var batches: seq<Term> := [];
    for i := 0 to Width(d.c, ns)
      invariant queue.Valid() && Progress(start, d.View()) && Open(d.c, d.View(), ns, l)
      invariant batches == RoutedTerms(d.c, ns, l)[..i]
    {
      OpenIsLive(d.c, d.View(), RoutedBatch(ns, l, i));
      var batch :- d.Load(RoutedBatch(ns, l, i), Kind.Routed);
      batches := batches + [batch.value.term];
      ghost var middle := d.View();
      var harvested := queue.Harvest(false);
      ProgressComposes(start, middle, d.View());
      if !harvested.Done? {
        return Stopped;
      }
      OpenSurvives(d.c, middle, d.View(), ns, l);
    }
    return Done(batches);
  }

  /** Commit the missing Hessians of a subset, captured on the block as it stands. */
  method CaptureSubset(d: Driver, queue: Q.CandidateQueue, block: Block, ph: Phase, start: nat, end: nat) returns (o: Outcome<()>)
    requires queue.Valid() && queue.d == d && Open(d.c, d.View(), block.ns, block.layer)
    requires start <= end <= Experts(block.ns) && PhaseParent(block.ns, block.layer, ph) in d.journal.artifacts
    requires block.installed == Before(d.c, block.ns, block.layer, ph)
    modifies queue`pending, queue`results, queue`failing, queue`stopped, d.journal
    ensures !o.Raised? && (!d.journal.fallible ==> o.Done?) && d.Sound() && Progress(old(d.View()), d.View())
    ensures o.Done? ==> queue.Valid()
    ensures o.Done? ==> forall e: nat :: start <= e < end ==> HessianOf(block.ns, block.layer, ph, e) in d.journal.artifacts
    ensures o.Done? ==> forall e: nat :: start <= e < end ==> CapturedOn(d.journal.artifacts, block.ns, block.layer, ph, e, block.installed)
  {
    hide Good, Q.Consistent, Progress, Config.Valid, RoutedTerms, Before, Open, CapturedOn;
    var ns, l := block.ns, block.layer;
    ghost var begin := d.View();
    var missing := MissingHessians(d, ns, l, ph, start, end);
    ProgressComposes(begin, begin, begin);
    if missing == [] {
      HessiansAreOn(d.c, d.View(), ns, l, ph, block.installed, start, end);
      return Done(());
    }
    var loaded := LoadBatches(d, queue, ns, l);
    if !loaded.Done? {
      return Stopped;
    }
    ProgressKeeps(begin, d.View());
    OpenSurvives(d.c, begin, d.View(), ns, l);
    for i := 0 to |missing|
      invariant queue.Valid() && Progress(begin, d.View()) && Open(d.c, d.View(), ns, l)
      invariant PhaseParent(ns, l, ph) in d.journal.artifacts
      invariant forall e: nat :: start <= e < end && e !in missing[i..] ==> HessianOf(ns, l, ph, e) in d.journal.artifacts
    {
      ghost var middle := d.View();
      assert missing[i] in missing && missing[i..] == [missing[i]] + missing[i + 1..];
      var term := Captured(ns, l, ph, missing[i], block.installed, loaded.value);
      o := PublishHessian(d, queue, ns, l, ph, missing[i], term);
      ProgressComposes(begin, middle, d.View());
      if !o.Done? {
        return;
      }
      ProgressKeeps(middle, d.View());
      OpenSurvives(d.c, middle, d.View(), ns, l);
    }
    HessiansAreOn(d.c, d.View(), ns, l, ph, block.installed, start, end);
    return Done(());
  }

  method PublishHessian(d: Driver, queue: Q.CandidateQueue, ns: Namespace, l: nat, ph: Phase, e: nat, term: Term) returns (o: Outcome<()>)
    requires queue.Valid() && queue.d == d && Open(d.c, d.View(), ns, l) && e < Experts(ns)
    requires PhaseParent(ns, l, ph) in d.journal.artifacts && term == HessianTerm(d.c, ns, l, ph, e)
    modifies d.journal
    ensures !o.Raised? && (!d.journal.fallible ==> o.Done?) && d.Sound() && Progress(old(d.View()), d.View())
    ensures o.Done? ==> queue.Valid() && HessianOf(ns, l, ph, e) in d.journal.artifacts
  {
    hide Good, Q.Consistent, Config.Valid, HessianTerm;
    if HessianOf(ns, l, ph, e) in d.journal.artifacts {
      OpenIsLive(d.c, d.View(), HessianOf(ns, l, ph, e));
    }
    o := d.Publish(HessianOf(ns, l, ph, e), Hessian, Tensors(term, l), [PhaseParent(ns, l, ph)]);
    if o.Done? {
      queue.StillValid();
    }
  }

  // ---------- base search ----------

  /** Every K3 candidate of the experts below `n`. */
  ghost predicate Asked(s: set<Key>, ns: Namespace, l: nat, ph: Phase, n: nat) {
    forall e: nat, p :: e < n && PhaseOf(p) == ph ==> Candidate(ns, l, Slot(e, p), 3) in s
  }

  /** Submit every K3 candidate of a subset whose Hessians are committed. */
  method SubmitSubset(d: Driver, queue: Q.CandidateQueue, ns: Namespace, l: nat, ph: Phase, start: nat, end: nat) returns (o: Outcome<()>)
    requires queue.Valid() && queue.d == d && Open(d.c, d.View(), ns, l)
    requires start <= end <= Experts(ns) && Asked(queue.submitted, ns, l, ph, start)
    requires forall e: nat :: start <= e < end ==> HessianOf(ns, l, ph, e) in d.journal.artifacts
    modifies queue, d.journal
    ensures !o.Raised? && (!d.journal.fallible ==> o.Done?) && d.Sound() && Progress(old(d.View()), d.View())
    ensures o.Done? ==> queue.Valid() && Asked(queue.submitted, ns, l, ph, end)
  {
    hide Good, Q.Consistent, Progress, Config.Valid, Open;
    ghost var begin := d.View();
    ProgressComposes(begin, begin, begin);
    for e := start to end
      invariant queue.Valid() && Progress(begin, d.View()) && Open(d.c, d.View(), ns, l)
      invariant Asked(queue.submitted, ns, l, ph, e)
      invariant forall x: nat :: start <= x < end ==> HessianOf(ns, l, ph, x) in d.journal.artifacts
    {
      ghost var middle := d.View();
      o := SubmitExpert(d, queue, ns, l, ph, e);
      ProgressComposes(begin, middle, d.View());
      if !o.Done? {
        return;
      }
      ProgressKeeps(middle, d.View());
      OpenSurvives(d.c, middle, d.View(), ns, l);
    }
    return Done(());
  }

  method SubmitExpert(d: Driver, queue: Q.CandidateQueue, ns: Namespace, l: nat, ph: Phase, e: nat) returns (o: Outcome<()>)
    requires queue.Valid() && queue.d == d && Open(d.c, d.View(), ns, l)
    requires e < Experts(ns) && HessianOf(ns, l, ph, e) in d.journal.artifacts && Asked(queue.submitted, ns, l, ph, e)
    modifies queue, d.journal
    ensures !o.Raised? && (!d.journal.fallible ==> o.Done?) && d.Sound() && Progress(old(d.View()), d.View())
    ensures o.Done? ==> queue.Valid() && Asked(queue.submitted, ns, l, ph, e + 1)
  {
    hide Good, Q.Consistent, Progress, Config.Valid;
    ghost var begin := d.View();
    var projections := Projections(ph);
    assert Q.Searchable(d.c, begin, Q.Job(ns, l, Slot(e, projections[0]), 3));
    o := queue.Submit(Q.Job(ns, l, Slot(e, projections[0]), 3));
    if o.Done? && |projections| == 2 {
      ghost var middle := d.View();
      ProgressKeeps(begin, middle);
      assert Q.Searchable(d.c, middle, Q.Job(ns, l, Slot(e, projections[1]), 3));
      o := queue.Submit(Q.Job(ns, l, Slot(e, projections[1]), 3));
      ProgressComposes(begin, middle, d.View());
    }
  }

  /** The base-tier loop over expert subsets, under one queue that a clean exit drains. */
  method SearchBase(d: Driver, block: Block, ph: Phase) returns (o: Outcome<()>)
    requires d.Sound() && d.c.Valid() && Open(d.c, d.View(), block.ns, block.layer)
    requires PhaseParent(block.ns, block.layer, ph) in d.journal.artifacts
    requires block.installed == Before(d.c, block.ns, block.layer, ph)
    modifies d.journal
    ensures !o.Raised? && (!d.journal.fallible ==> o.Done?) && d.Sound() && Progress(old(d.View()), d.View())
    ensures o.Done? ==> Asked(d.journal.artifacts.Keys, block.ns, block.layer, ph, Experts(block.ns))
  {
    hide Good, Q.Consistent, Progress, Before, Open;
    var ns, l := block.ns, block.layer;
    ghost var begin := d.View();
    ProgressComposes(begin, begin, begin);
    var queue := new Q.CandidateQueue(d);
    var start := 0;
    while start < Experts(ns)
      invariant start <= Experts(ns) && queue.Valid() && fresh(queue) && queue.d == d
      invariant Progress(begin, d.View()) && Open(d.c, d.View(), ns, l)
      invariant PhaseParent(ns, l, ph) in d.journal.artifacts && Asked(queue.submitted, ns, l, ph, start)
    {
      var end := if start + d.subset < Experts(ns) then start + d.subset else Experts(ns);
      ghost var middle := d.View();
      o := SearchSubset(d, queue, block, ph, start, end);
      ProgressComposes(begin, middle, d.View());
      if !o.Done? {
        return;
      }
      ProgressKeeps(middle, d.View());
      OpenSurvives(d.c, middle, d.View(), ns, l);
      start := end;
    }
    ghost var middle := d.View();
    o := queue.Close();
    ProgressComposes(begin, middle, d.View());
  }

  method SearchSubset(d: Driver, queue: Q.CandidateQueue, block: Block, ph: Phase, start: nat, end: nat) returns (o: Outcome<()>)
    requires queue.Valid() && queue.d == d && Open(d.c, d.View(), block.ns, block.layer)
    requires start <= end <= Experts(block.ns) && PhaseParent(block.ns, block.layer, ph) in d.journal.artifacts
    requires block.installed == Before(d.c, block.ns, block.layer, ph) && Asked(queue.submitted, block.ns, block.layer, ph, start)
    modifies queue, d.journal
    ensures !o.Raised? && (!d.journal.fallible ==> o.Done?) && d.Sound() && Progress(old(d.View()), d.View())
    ensures o.Done? ==> queue.Valid() && Asked(queue.submitted, block.ns, block.layer, ph, end)
  {
    hide Good, Q.Consistent, Progress, Config.Valid, Open, Before, Asked;
    var ns, l := block.ns, block.layer;
    ghost var first := d.View();
    o := queue.Harvest(false);
    if !o.Done? {
      return;
    }
    ghost var second := d.View();
    ProgressKeeps(first, second);
    OpenSurvives(d.c, first, second, ns, l);
    o := CaptureSubset(d, queue, block, ph, start, end);
    ghost var third := d.View();
    ProgressComposes(first, second, third);
    if !o.Done? {
      return;
    }
    OpenSurvives(d.c, second, third, ns, l);
    o := SubmitSubset(d, queue, ns, l, ph, start, end);
    ProgressComposes(first, third, d.View());
  }

  // ---------- tier choice ----------

  method ScoreCandidate(d: Driver, ns: Namespace, l: nat, p: Projection, e: nat) returns (o: Outcome<real>)
    requires d.Sound() && d.c.Valid() && Open(d.c, d.View(), ns, l) && e < Experts(ns)
    requires Candidate(ns, l, Slot(e, p), 3) in d.journal.artifacts
    ensures !o.Raised? && (!d.journal.fallible ==> o.Done?)
    ensures o.Done? ==> o.value == Scores(d.c, ns, l, p)[e]
  {
    hide Good, CandidateTerm, Config.Valid, IsTemporary;
    var key := Candidate(ns, l, Slot(e, p), 3);
    OpenIsLive(d.c, d.View(), key);
    var found :- d.Load(key, Kind.Projection);
    return Done(d.c.score(found.value.term));
  }

  /** The risk of every K3 candidate of a projection, and the keys they came from. */
  method ScoreProjection(d: Driver, ns: Namespace, l: nat, p: Projection) returns (o: Outcome<(seq<real>, seq<Key>)>)
    requires d.Sound() && d.c.Valid() && Open(d.c, d.View(), ns, l)
    requires Asked(d.journal.artifacts.Keys, ns, l, PhaseOf(p), Experts(ns))
    ensures !o.Raised? && (!d.journal.fallible ==> o.Done?)
    ensures o.Done? ==> o.value == (Scores(d.c, ns, l, p), Row3(ns, l, p))
  {
    hide Good, Open, Scores, Config.Valid;
    var scores: seq<real>, keys: seq<Key> := [], [];
    for e := 0 to Experts(ns)
      invariant scores == Scores(d.c, ns, l, p)[..e] && keys == Row3(ns, l, p)[..e]
    {
      var score :- ScoreCandidate(d, ns, l, p, e);
      scores := scores + [score];
      keys := keys + [Candidate(ns, l, Slot(e, p), 3)];
    }
    assert Scores(d.c, ns, l, p)[..Experts(ns)] == Scores(d.c, ns, l, p);
    assert Row3(ns, l, p)[..Experts(ns)] == Row3(ns, l, p);
    return Done((scores, keys));
  }

  /** The upgrades of one phase, and the keys of all candidates that were compared. */
  method CompareCandidates(d: Driver, ns: Namespace, l: nat, ph: Phase) returns (o: Outcome<(map<Projection, seq<nat>>, seq<Key>)>)
    requires d.Sound() && d.c.Valid() && Open(d.c, d.View(), ns, l)
    requires Asked(d.journal.artifacts.Keys, ns, l, ph, Experts(ns))
    ensures !o.Raised? && (!d.journal.fallible ==> o.Done?)
    ensures o.Done? ==> Upgrades(o.value.0) == TierState(d.c, ns, l, ph) && o.value.1 == TierParents(ns, l, ph)
  {
    hide Good, Open, Scores, UpgradesOf, Config.Valid, Asked, Row3, Compared, TierState, TierParents, Top;
    QuotasAreAQuarter(Experts(ns));
    var projections := Projections(ph);
    var upgrades: map<Projection, seq<nat>>, keys: seq<Key> := map[], [];
    NoneCompared(d.c, ns, l, ph);
    for i := 0 to |projections|
      invariant Compared(d.c, ns, l, ph, i, upgrades, keys)
    {
      var scored :- ScoreProjection(d, ns, l, projections[i]);
      UpgradesAreTop(d.c, ns, l, projections[i]);
      ComparedNext(d.c, ns, l, ph, i, upgrades, keys);
      upgrades := upgrades[projections[i] := Top(scored.0, Quota(ns, projections[i]))];
      keys := keys + scored.1;
    }
    AllCompared(d.c, ns, l, ph, upgrades, keys);
    return Done((upgrades, keys));
  }

  /** What has been chosen and asked for once `n` projections of a phase are compared. */
  ghost predicate Compared(c: Config, ns: Namespace, l: nat, ph: Phase, n: nat, upgrades: map<Projection, seq<nat>>, keys: seq<Key>)
    requires c.Valid() && n <= |Projections(ph)|
  {
    && upgrades == (map p | p in Projections(ph)[..n] :: UpgradesOf(c, ns, l, p))
    && keys == if n == 0 then [] else if n == 1 then Row3(ns, l, Projections(ph)[0]) else Row3(ns, l, W1) + Row3(ns, l, W3)
  }

  lemma NoneCompared(c: Config, ns: Namespace, l: nat, ph: Phase)
    requires c.Valid()
    ensures Compared(c, ns, l, ph, 0, map[], [])
  {
  }

  lemma ComparedNext(c: Config, ns: Namespace, l: nat, ph: Phase, i: nat, upgrades: map<Projection, seq<nat>>, keys: seq<Key>)
    requires c.Valid() && i < |Projections(ph)| && Compared(c, ns, l, ph, i, upgrades, keys)
    ensures var p := Projections(ph)[i];
      Compared(c, ns, l, ph, i + 1, upgrades[p := UpgradesOf(c, ns, l, p)], keys + Row3(ns, l, p))
  {
    hide UpgradesOf, Row3, Config.Valid;
    assert Projections(ph)[..i + 1] == Projections(ph)[..i] + [Projections(ph)[i]];
  }

  lemma AllCompared(c: Config, ns: Namespace, l: nat, ph: Phase, upgrades: map<Projection, seq<nat>>, keys: seq<Key>)
    requires c.Valid() && Compared(c, ns, l, ph, |Projections(ph)|, upgrades, keys)
    ensures Upgrades(upgrades) == TierState(c, ns, l, ph) && keys == TierParents(ns, l, ph)
  {
    hide UpgradesOf, Row3, Config.Valid;
    assert Projections(ph)[..|Projections(ph)|] == Projections(ph);
  }

  /** Choose the K4 upgrades of a phase by K3 risk, within each projection's quota. */
  method ChooseTiers(d: Driver, ns: Namespace, l: nat, ph: Phase) returns (o: Outcome<map<Projection, seq<nat>>>)
    requires d.Sound() && d.c.Valid() && Open(d.c, d.View(), ns, l)
    requires Asked(d.journal.artifacts.Keys, ns, l, ph, Experts(ns))
    modifies d.journal
    ensures !o.Raised? && (!d.journal.fallible ==> o.Done?) && d.Sound() && Progress(old(d.View()), d.View())
    ensures o.Done? ==> Upgrades(o.value) == TierState(d.c, ns, l, ph) && TierChoice(ns, l, ph) in d.journal.artifacts
    ensures o.Done? ==> ChosenFor(d.c, d.journal.artifacts, ns, l, ph, o.value)
    ensures o.Done? ==> d.journal.artifacts[TierChoice(ns, l, ph)].payload.state == Upgrades(o.value)
  {
    hide Good, Config.Valid, Parents, Asked, TierState, Ordered, ChosenFor;
    var tierKey := TierChoice(ns, l, ph);
    var tier :- d.Load(tierKey, Tiers);
    TierStateIs(d.c, ns, l, ph);
    if tier.Some? {
      TiersAreChosen(d.c, d.View(), ns, l, ph);
      RunMeaning.TierAt(d.c, d.View(), ns, l, ph);
      return Done(tier.value.experts);
    }
    var compared :- CompareCandidates(d, ns, l, ph);
    TierParentsCommitted(d.c, d.View(), ns, l, ph);
    var _ :- d.Publish(tierKey, Tiers, Upgrades(compared.0), compared.1);
    TiersAreChosen(d.c, d.View(), ns, l, ph);
    RunMeaning.TierAt(d.c, d.View(), ns, l, ph);
    return Done(compared.0);
  }

  lemma TierStateIs(c: Config, ns: Namespace, l: nat, ph: Phase)
    requires c.Valid() && l < Layers(ns)
    ensures TierState(c, ns, l, ph).Upgrades? && StateOf(c, TierChoice(ns, l, ph)) == TierState(c, ns, l, ph)
  {
  }

  lemma UpgradesAreTop(c: Config, ns: Namespace, l: nat, p: Projection)
    requires c.Valid() && Quota(ns, p) <= Experts(ns)
    ensures UpgradesOf(c, ns, l, p) == Top(Scores(c, ns, l, p), Quota(ns, p))
  {
  }

  lemma TierParentsCommitted(c: Config, j: Store, ns: Namespace, l: nat, ph: Phase)
    requires c.Valid() && l < Layers(ns) && Asked(j.artifacts.Keys, ns, l, ph, Experts(ns))
    ensures Parents(c, TierChoice(ns, l, ph)) == TierParents(ns, l, ph)
    ensures forall k :: k in TierParents(ns, l, ph) ==> k in j.artifacts
    ensures Ordered(c, j, TierChoice(ns, l, ph))
  {
    TierParentsAre(ns, l, ph);
    forall k | k in TierParents(ns, l, ph) ensures k in j.artifacts {
      assert Slot(k.slot.expert, k.slot.projection) == k.slot;
    }
  }

  // ---------- upgrades ----------

  /** The K4 candidate of every chosen expert among these slots. */
  ghost predicate AskedAgain(s: set<Key>, ns: Namespace, l: nat, slots: seq<Slot>, upgrades: map<Projection, seq<nat>>) {
    forall n :: 0 <= n < |slots| && slots[n].projection in upgrades && slots[n].expert in upgrades[slots[n].projection] ==>
      Candidate(ns, l, slots[n], 4) in s
  }

  lemma AskedOneMore(s: set<Key>, t: set<Key>, ns: Namespace, l: nat, slots: seq<Slot>, i: nat, upgrades: map<Projection, seq<nat>>)
    requires i < |slots| && AskedAgain(s, ns, l, slots[..i], upgrades) && s <= t
    requires slots[i].projection in upgrades && slots[i].expert in upgrades[slots[i].projection] ==> Candidate(ns, l, slots[i], 4) in t
    ensures AskedAgain(t, ns, l, slots[..i + 1], upgrades)
  {
  }

  lemma AllAskedAgain(s: set<Key>, ns: Namespace, l: nat, ph: Phase, upgrades: map<Projection, seq<nat>>)
    requires AskedAgain(s, ns, l, SlotList(ph, Experts(ns)), upgrades)
    ensures forall e: nat, p :: e < Experts(ns) && PhaseOf(p) == ph && p in upgrades && e in upgrades[p] ==> Candidate(ns, l, Slot(e, p), 4) in s
  {
    forall e: nat, p | e < Experts(ns) && PhaseOf(p) == ph && p in upgrades && e in upgrades[p] ensures Candidate(ns, l, Slot(e, p), 4) in s {
      var slots := SlotList(ph, Experts(ns));
      assert Slot(e, p) in slots;
      var n :| 0 <= n < |slots| && slots[n] == Slot(e, p);
    }
  }

  /** Search the K4 candidates of the chosen experts. */
  method SearchUpgrades(d: Driver, ns: Namespace, l: nat, ph: Phase, upgrades: map<Projection, seq<nat>>) returns (o: Outcome<()>)
    requires d.Sound() && d.c.Valid() && Open(d.c, d.View(), ns, l)
    requires Upgrades(upgrades) == TierState(d.c, ns, l, ph)
    requires forall e: nat :: e < Experts(ns) ==> HessianOf(ns, l, ph, e) in d.journal.artifacts
    modifies d.journal
    ensures !o.Raised? && (!d.journal.fallible ==> o.Done?) && d.Sound() && Progress(old(d.View()), d.View())
    ensures o.Done? ==> forall e: nat, p :: e < Experts(ns) && PhaseOf(p) == ph && p in upgrades && e in upgrades[p] ==>
      Candidate(ns, l, Slot(e, p), 4) in d.journal.artifacts
  {
    hide Good, Q.Consistent, Progress, Open, UpgradesOf, AskedAgain;
    ghost var begin := d.View();
    ProgressComposes(begin, begin, begin);
    var queue := new Q.CandidateQueue(d);
    var slots := SlotList(ph, Experts(ns));
    NoneAskedAgain(queue.submitted, ns, l, slots[..0], upgrades);
    for i := 0 to |slots|
      invariant AskedAgain(queue.submitted, ns, l, slots[..i], upgrades)
      invariant queue.Valid() && fresh(queue) && queue.d == d && Progress(begin, d.View()) && Open(d.c, d.View(), ns, l)
      invariant forall e: nat :: e < Experts(ns) ==> HessianOf(ns, l, ph, e) in d.journal.artifacts
    {
      var s := slots[i];
      assert s in slots;
      ghost var middle, asked := d.View(), queue.submitted;
      o := SubmitUpgrade(d, queue, ns, l, ph, s, upgrades);
      ProgressComposes(begin, middle, d.View());
      if !o.Done? {
        return;
      }
      ProgressKeeps(middle, d.View());
      OpenSurvives(d.c, middle, d.View(), ns, l);
      AskedOneMore(asked, queue.submitted, ns, l, slots, i, upgrades);
    }
    ghost var middle := d.View();
    assert slots[..|slots|] == slots;
    AllAskedAgain(queue.submitted, ns, l, ph, upgrades);
    o := queue.Close();
    ProgressComposes(begin, middle, d.View());
  }

  lemma NoneAskedAgain(s: set<Key>, ns: Namespace, l: nat, slots: seq<Slot>, upgrades: map<Projection, seq<nat>>)
    requires slots == []
    ensures AskedAgain(s, ns, l, slots, upgrades)
  {
  }

  method SubmitUpgrade(d: Driver, queue: Q.CandidateQueue, ns: Namespace, l: nat, ph: Phase, s: Slot, upgrades: map<Projection, seq<nat>>)
    returns (o: Outcome<()>)
    requires queue.Valid() && queue.d == d && Open(d.c, d.View(), ns, l)
    requires s.expert < Experts(ns) && PhaseOf(s.projection) == ph && HessianOf(ns, l, ph, s.expert) in d.journal.artifacts
    requires Upgrades(upgrades) == TierState(d.c, ns, l, ph)
    modifies queue, d.journal
    ensures !o.Raised? && (!d.journal.fallible ==> o.Done?) && d.Sound() && Progress(old(d.View()), d.View())
    ensures o.Done? ==> queue.Valid() && old(queue.submitted) <= queue.submitted
    ensures o.Done? && s.projection in upgrades && s.expert in upgrades[s.projection] ==> Candidate(ns, l, s, 4) in queue.submitted
  {
    hide Good, Q.Consistent, Progress, UpgradesOf, Config.Valid;
    ProgressComposes(d.View(), d.View(), d.View());
    TierAt(d.c, ns, l, s);
    if s.expert in upgrades[s.projection] {
      assert Q.Searchable(d.c, d.View(), Q.Job(ns, l, s, 4));
      o := queue.Submit(Q.Job(ns, l, s, 4));
    } else {
      o := Done(());
    }
  }

  lemma TierAt(c: Config, ns: Namespace, l: nat, s: Slot)
    requires c.Valid()
    ensures TierState(c, ns, l, PhaseOf(s.projection)).Upgrades?
    ensures s.projection in TierState(c, ns, l, PhaseOf(s.projection)).experts
    ensures BitsOf(c, ns, l, s) == if s.expert in TierState(c, ns, l, PhaseOf(s.projection)).experts[s.projection] then 4 else 3
  {
    hide UpgradesOf, Config.Valid;
    assert s.projection in Projections(PhaseOf(s.projection)) by {
      assert Projections(GateUp)[0] == W1 && Projections(GateUp)[1] == W3 && Projections(Down)[0] == W2;
    }
  }

  // ---------- selection ----------

  /** What the first slots of a phase install. */
  function TermsFor(c: Config, ns: Namespace, l: nat, slots: seq<Slot>): map<Slot, Term>
    requires c.Valid()
  {
    map s | s in slots :: CandidateTerm(c, ns, l, s, BitsOf(c, ns, l, s))
  }

  /** One more slot selected. */
  lemma SelectionGrows(c: Config, ns: Namespace, l: nat, slots: seq<Slot>, i: nat, before: map<Slot, Term>)
    requires c.Valid() && i < |slots|
    ensures SelectionOf(c, ns, l, slots[..i + 1]) == SelectionOf(c, ns, l, slots[..i]) + [(slots[i], SelectedKey(c, ns, l, slots[i]))]
    ensures SelectedKeys(c, ns, l, slots[..i + 1]) == SelectedKeys(c, ns, l, slots[..i]) + [SelectedKey(c, ns, l, slots[i])]
    ensures before + TermsFor(c, ns, l, slots[..i + 1]) ==
      (before + TermsFor(c, ns, l, slots[..i]))[slots[i] := CandidateTerm(c, ns, l, slots[i], BitsOf(c, ns, l, slots[i]))]
  {
    hide CandidateTerm, BitsOf, Config.Valid;
    assert slots[..i + 1] == slots[..i] + [slots[i]];
  }

  /** Find a slot's candidate of the chosen tier and install it. */
  method SelectSlot(d: Driver, block: Block, s: Slot, upgrades: map<Projection, seq<nat>>) returns (o: Outcome<Key>)
    requires d.Sound() && d.c.Valid() && Open(d.c, d.View(), block.ns, block.layer)
    requires s.expert < Experts(block.ns) && HessianOf(block.ns, block.layer, PhaseOf(s.projection), s.expert) in d.journal.artifacts
    requires Upgrades(upgrades) == TierState(d.c, block.ns, block.layer, PhaseOf(s.projection))
    modifies d.journal, block
    ensures !o.Raised? && (!d.journal.fallible ==> o.Done?) && d.Sound() && Progress(old(d.View()), d.View())
    ensures o.Done? ==> o.value == SelectedKey(d.c, block.ns, block.layer, s) && o.value in d.journal.artifacts
    ensures o.Done? ==> (
      block.installed == old(block.installed)[s := CandidateTerm(d.c, block.ns, block.layer, s, BitsOf(d.c, block.ns, block.layer, s))])
  {
    hide Good, Progress, UpgradesOf, CandidateTerm, Config.Valid;
    ProgressComposes(d.View(), d.View(), d.View());
    TierAt(d.c, block.ns, block.layer, s);
    var bits := if s.expert in upgrades[s.projection] then 4 else 3;
    assert Q.Searchable(d.c, d.View(), Q.Job(block.ns, block.layer, s, bits));
    hide BitsOf;
    var found :- Q.FindCandidate(d, Q.Job(block.ns, block.layer, s, bits));
    block.Install(s, found.1);
    return Done(found.0);
  }

  /** Install the selected candidate of every slot and commit the phase. */
  method SelectPhase(d: Driver, block: Block, ph: Phase, upgrades: map<Projection, seq<nat>>) returns (o: Outcome<()>)
    requires d.Sound() && d.c.Valid() && Open(d.c, d.View(), block.ns, block.layer)
    requires Upgrades(upgrades) == TierState(d.c, block.ns, block.layer, ph)
    requires TierChoice(block.ns, block.layer, ph) in d.journal.artifacts
    requires forall e: nat :: e < Experts(block.ns) ==> HessianOf(block.ns, block.layer, ph, e) in d.journal.artifacts
    modifies d.journal, block
    ensures !o.Raised? && (!d.journal.fallible ==> o.Done?) && d.Sound() && Progress(old(d.View()), d.View())
    ensures o.Done? ==> PhaseComplete(block.ns, block.layer, ph) in d.journal.artifacts
    ensures o.Done? ==> block.installed == old(block.installed) + SelectedTerms(d.c, block.ns, block.layer, ph)
    ensures o.Done? ==> PhaseMeans(d.journal.artifacts, block.ns, block.layer, ph)
  {
    hide Good, Progress, TierState, PhaseMeans, CandidateTerm, BitsOf, Config.Valid, Open, SelectedKey, SelectionOf, SelectedKeys, TermsFor;
    var ns, l := block.ns, block.layer;
    NothingSelected(d.c, ns, l, block.installed);
    ghost var begin := d.View();
    ProgressComposes(begin, begin, begin);
    var slots := SlotList(ph, Experts(ns));
    var selected: seq<(Slot, Key)>, keys: seq<Key> := [], [];
    for i := 0 to |slots|
      invariant d.Sound() && Progress(begin, d.View()) && Open(d.c, d.View(), ns, l)
      invariant TierChoice(ns, l, ph) in d.journal.artifacts
      invariant forall e: nat :: e < Experts(ns) ==> HessianOf(ns, l, ph, e) in d.journal.artifacts
      invariant selected == SelectionOf(d.c, ns, l, slots[..i]) && keys == SelectedKeys(d.c, ns, l, slots[..i])
      invariant forall k :: k in keys ==> k in d.journal.artifacts
      invariant block.installed == old(block.installed) + TermsFor(d.c, ns, l, slots[..i])
    {
      assert slots[i] in slots;
      SelectionGrows(d.c, ns, l, slots, i, old(block.installed));
      ghost var middle := d.View();
      var key := SelectSlot(d, block, slots[i], upgrades);
      ProgressComposes(begin, middle, d.View());
      if !key.Done? {
        return Stopped;
      }
      ProgressKeeps(middle, d.View());
      OpenSurvives(d.c, middle, d.View(), ns, l);
      selected, keys := selected + [(slots[i], key.value)], keys + [key.value];
    }
    assert slots[..|slots|] == slots;
    AllSelected(d.c, ns, l, ph);
    ghost var middle := d.View();
    o := PublishPhase(d, ns, l, ph, selected, keys);
    ProgressComposes(begin, middle, d.View());
    if o.Done? {
      PhasesMean(d.c, d.View(), ns, l, ph);
    }
  }

  method PublishPhase(d: Driver, ns: Namespace, l: nat, ph: Phase, selected: seq<(Slot, Key)>, keys: seq<Key>) returns (o: Outcome<()>)
    requires d.Sound() && d.c.Valid() && Open(d.c, d.View(), ns, l) && TierChoice(ns, l, ph) in d.journal.artifacts
    requires selected == SelectionOf(d.c, ns, l, SlotList(ph, Experts(ns)))
    requires keys == SelectedKeys(d.c, ns, l, SlotList(ph, Experts(ns))) && forall k :: k in keys ==> k in d.journal.artifacts
    modifies d.journal
    ensures !o.Raised? && (!d.journal.fallible ==> o.Done?) && d.Sound() && Progress(old(d.View()), d.View())
    ensures o.Done? ==> PhaseComplete(ns, l, ph) in d.journal.artifacts
  {
    hide Good, BitsOf, Config.Valid, SelectionOf, SelectedKeys;
    MarkerIsLive(d.c, d.View(), PhaseComplete(ns, l, ph));
    o := d.Publish(PhaseComplete(ns, l, ph), Kind.Phase, Selection(selected), [TierChoice(ns, l, ph)] + keys);
  }

  lemma MarkerIsLive(c: Config, j: Store, k: Key)
    requires Good(c, j) && c.Valid() && InRun(c, k) && !Temporary(KindOf(k))
    ensures k in j.artifacts ==> Live(j, k)
  {
    if k in j.artifacts {
      KeptIsLive(c, j, k);
    }
  }

  /** The frozen selection of a committed phase. */
  method LoadSelection(d: Driver, ns: Namespace, l: nat, ph: Phase, missing: Error) returns (o: Outcome<seq<(Slot, Key)>>)
    requires d.Sound() && d.c.Valid() && l < Layers(ns) && PhaseComplete(ns, l, ph) in d.journal.artifacts
    ensures !o.Raised? && (!d.journal.fallible ==> o.Done?)
    ensures o.Done? ==> o.value == SelectionOf(d.c, ns, l, SlotList(ph, Experts(ns)))
  {
    hide Good, Config.Valid, SelectionOf, SelectedKey;
    var marker :- d.Load(PhaseComplete(ns, l, ph), Kind.Phase);
    if marker.None? {
      return Raised(missing);
    }
    return Done(marker.value.selected);
  }

  /** Install the projections that a committed phase selected. */
  method InstallSelected(d: Driver, block: Block, ph: Phase, selected: seq<(Slot, Key)>) returns (o: Outcome<()>)
    requires d.Sound() && d.c.Valid() && PhaseComplete(block.ns, block.layer, ph) in d.journal.artifacts
    requires block.layer < Layers(block.ns)
    requires selected == SelectionOf(d.c, block.ns, block.layer, SlotList(ph, Experts(block.ns)))
    modifies block
    ensures !o.Raised? && (!d.journal.fallible ==> o.Done?)
    ensures o.Done? ==> block.installed == old(block.installed) + SelectedTerms(d.c, block.ns, block.layer, ph)
  {
    hide Good, CandidateTerm, BitsOf, Config.Valid, SelectedKey, SelectionOf, SelectedKeys, TermsFor, InRun, SlotList;
    var ns, l := block.ns, block.layer;
    NothingSelected(d.c, ns, l, block.installed);
    var slots := SlotList(ph, Experts(ns));
    assert |selected| == |slots| by {
      SelectionSize(d.c, ns, l, slots);
    }
    for i := 0 to |selected|
      invariant |slots| == |selected| && block.installed == old(block.installed) + TermsFor(d.c, ns, l, slots[..i])
    {
      assert slots[i] in slots;
      SelectionGrows(d.c, ns, l, slots, i, old(block.installed));
      SelectionAt(d.c, ns, l, slots, i);
      SelectedIsKept(d.c, d.View(), ns, l, slots[i]);
      var candidate :- d.Load(selected[i].1, Kind.Projection);
      block.Install(selected[i].0, candidate.value.term);
    }
    assert slots[..|slots|] == slots;
    AllSelected(d.c, ns, l, ph);
    return Done(());
  }

  lemma NothingSelected(c: Config, ns: Namespace, l: nat, before: map<Slot, Term>)
    requires c.Valid()
    ensures SelectionOf(c, ns, l, []) == [] && SelectedKeys(c, ns, l, []) == [] && before + TermsFor(c, ns, l, []) == before
  {
  }

  lemma AllSelected(c: Config, ns: Namespace, l: nat, ph: Phase)
    requires c.Valid()
    ensures TermsFor(c, ns, l, SlotList(ph, Experts(ns))) == SelectedTerms(c, ns, l, ph)
  {
  }

  lemma SelectionSize(c: Config, ns: Namespace, l: nat, slots: seq<Slot>)
    requires c.Valid()
    ensures |SelectionOf(c, ns, l, slots)| == |slots| && |SelectedKeys(c, ns, l, slots)| == |slots|
  {
  }

  lemma SelectionAt(c: Config, ns: Namespace, l: nat, slots: seq<Slot>, i: nat)
    requires c.Valid() && i < |slots| && l < Layers(ns) && slots[i].expert < Experts(ns)
    ensures |SelectionOf(c, ns, l, slots)| == |slots|
    ensures SelectionOf(c, ns, l, slots)[i] == (slots[i], SelectedKey(c, ns, l, slots[i]))
    ensures var k := SelectedKey(c, ns, l, slots[i]);
      && KindOf(k) == Kind.Projection && InRun(c, k)
      && StateOf(c, k) == Tensors(CandidateTerm(c, ns, l, slots[i], BitsOf(c, ns, l, slots[i])), l)
  {
    hide CandidateTerm, Config.Valid;
  }

  lemma SelectedIsKept(c: Config, j: Store, ns: Namespace, l: nat, s: Slot)
    requires Good(c, j) && c.Valid() && l < Layers(ns) && s.expert < Experts(ns)
    requires PhaseComplete(ns, l, PhaseOf(s.projection)) in j.artifacts
    ensures InRun(c, SelectedKey(c, ns, l, s)) && SelectedKey(c, ns, l, s) in j.artifacts && Live(j, SelectedKey(c, ns, l, s))
  {
    RunOutcome.SelectedStaysIntact(c, j, ns, l, s);
  }

  // ---------- the phases ----------

  method RunPhase(d: Driver, block: Block, ph: Phase) returns (o: Outcome<()>)
    requires d.Sound() && d.c.Valid() && Open(d.c, d.View(), block.ns, block.layer)
    requires PhaseParent(block.ns, block.layer, ph) in d.journal.artifacts
    requires block.installed == Before(d.c, block.ns, block.layer, ph)
    modifies d.journal, block
    ensures !o.Raised? && (!d.journal.fallible ==> o.Done?) && d.Sound() && Progress(old(d.View()), d.View())
    ensures o.Done? ==> PhaseComplete(block.ns, block.layer, ph) in d.journal.artifacts
    ensures o.Done? ==> block.installed == old(block.installed) + SelectedTerms(d.c, block.ns, block.layer, ph)
  {
    hide Good, Progress, SelectedTerms, Before, Config.Valid, SelectionOf;
    var ns, l := block.ns, block.layer;
    ghost var begin := d.View();
    ProgressComposes(begin, begin, begin);
    var complete :- d.Load(PhaseComplete(ns, l, ph), Kind.Phase);
    if complete.Some? {
      o := InstallSelected(d, block, ph, complete.value.selected);
      return;
    }
    hide Open, StateOf;
    o := SearchBase(d, block, ph);
    if !o.Done? {
      return;
    }
    ghost var searched := d.View();
    OpenSurvives(d.c, begin, searched, ns, l);
    BaseHasHessians(d.c, searched, ns, l, ph);
    var tier := ChooseTiers(d, ns, l, ph);
    ghost var chosen := d.View();
    ProgressComposes(begin, searched, chosen);
    if !tier.Done? {
      return Stopped;
    }
    ProgressKeeps(searched, chosen);
    OpenSurvives(d.c, searched, chosen, ns, l);
    o := SearchUpgrades(d, ns, l, ph, tier.value);
    ghost var upgraded := d.View();
    ProgressComposes(begin, chosen, upgraded);
    if !o.Done? {
      return;
    }
    ProgressKeeps(chosen, upgraded);
    OpenSurvives(d.c, chosen, upgraded, ns, l);
    o := SelectPhase(d, block, ph, tier.value);
    ProgressComposes(begin, upgraded, d.View());
  }

  lemma BaseHasHessians(c: Config, j: Store, ns: Namespace, l: nat, ph: Phase)
    requires Good(c, j) && Asked(j.artifacts.Keys, ns, l, ph, Experts(ns))
    ensures forall e: nat :: e < Experts(ns) ==> HessianOf(ns, l, ph, e) in j.artifacts
  {
    hide Good, StateOf;
    forall e: nat | e < Experts(ns) ensures HessianOf(ns, l, ph, e) in j.artifacts {
      var p := if ph == GateUp then W1 else W2;
      CommittedIsPlanned(c, j, Candidate(ns, l, Slot(e, p), 3));
    }
  }

  /** `BlockDriver.run`: bind the routed batches, then both phases. */
  method RunBlock(d: Driver, block: Block, routedKeys: seq<Key>) returns (o: Outcome<Key>)
    requires d.Sound() && d.c.Valid() && Open(d.c, d.View(), block.ns, block.layer)
    requires routedKeys == RoutedKeys(d.c, block.ns, block.layer) && block.installed == map[]
    modifies d.journal, block
    ensures !o.Raised? && (!d.journal.fallible ==> o.Done?) && d.Sound() && Progress(old(d.View()), d.View())
    ensures o.Done? ==> o.value == PhaseComplete(block.ns, block.layer, Down) && o.value in d.journal.artifacts
    ensures o.Done? ==> block.installed == Installed(d.c, block.ns, block.layer)
    ensures o.Done? ==> InstalledBoth(d.journal.artifacts, block.ns, block.layer, block.installed)
  {
    hide Good, Progress, SelectedTerms, Config.Valid, InstalledBoth;
    ghost var begin := d.View();
    o := Stopped;
    var bound := BindRouted(d, block.ns, block.layer, routedKeys);
    if !bound.Done? {
      return;
    }
    ghost var ready := d.View();
    ProgressKeeps(begin, ready);
    OpenSurvives(d.c, begin, ready, block.ns, block.layer);
    hide Open;
    var first := RunPhase(d, block, GateUp);
    ghost var half := d.View();
    ProgressComposes(begin, ready, half);
    if !first.Done? {
      return;
    }
    OpenSurvives(d.c, ready, half, block.ns, block.layer);
    assert block.installed == Before(d.c, block.ns, block.layer, Down);
    var second := RunPhase(d, block, Down);
    ProgressComposes(begin, half, d.View());
    if !second.Done? {
      return;
    }
    BlockInstalls(d.c, d.View(), block.ns, block.layer);
    return Done(PhaseComplete(block.ns, block.layer, Down));
  }

  method BindRouted(d: Driver, ns: Namespace, l: nat, routedKeys: seq<Key>) returns (o: Outcome<()>)
    requires d.Sound() && d.c.Valid() && Open(d.c, d.View(), ns, l) && routedKeys == RoutedKeys(d.c, ns, l)
    modifies d.journal
    ensures !o.Raised? && (!d.journal.fallible ==> o.Done?) && d.Sound() && Progress(old(d.View()), d.View())
    ensures o.Done? ==> RoutedInventory(ns, l) in d.journal.artifacts
  {
    hide Good, Config.Valid;
    var inventory := KeyList(routedKeys, 0);
    var existing :- d.Load(RoutedInventory(ns, l), Kind.Inventory);
    if existing.None? {
      o := d.Publish(RoutedInventory(ns, l), Kind.Inventory, inventory, routedKeys);
      return;
    } else if existing.value != inventory {
      return Raised(InventoryChanged);
    }
    return Done(());
  }
}
