/** The bounded, continuously refilled search queue. Worker threads are `Workers`: between any two
    actions of the owner they may finish any searches, in any order, successfully or not. */
module CandidateQueue {
  import opened Driver
  import opened Journal
  import opened Options
  import opened Recipe
  import opened RunInvariant
  import opened RunMeaning
  import opened RunPlan

  datatype Job = Job(ns: Namespace, layer: nat, slot: Slot, bits: nat) {
    function Key(): Key {
      Candidate(ns, layer, slot, bits)
    }
    function Source(): Key {
      HessianOf(ns, layer, PhaseOf(slot.projection), slot.expert)
    }
  }

  /** How a search ended. */
  datatype Search = Found(term: Term) | Failed

  /** A job that may be searched: planned, over a committed Hessian, in a block still open. */
  ghost predicate Searchable(c: Config, j: Store, b: Job)
    requires c.Valid()
  {
    InRun(c, b.Key()) && b.Source() in j.artifacts && BlockComplete(b.ns, b.layer) !in j.artifacts
  }

  lemma SearchableHessian(c: Config, j: Store, b: Job)
    requires Good(c, j) && c.Valid() && Searchable(c, j, b)
    ensures InRun(c, b.Source()) && Live(j, b.Source())
    ensures b.Source() in j.files && j.files[b.Source()] == FileOf(c, b.Source())
    ensures StateOf(c, b.Source()) == Tensors(HessianTerm(c, b.ns, b.layer, PhaseOf(b.slot.projection), b.slot.expert), b.layer)
    ensures b.Key() in j.artifacts ==> Live(j, b.Key())
    ensures StateOf(c, b.Key()) == Tensors(CandidateTerm(c, b.ns, b.layer, b.slot, b.bits), b.layer)
    ensures Parents(c, b.Key()) == [b.Source()] && Ordered(c, j, b.Key())
  {
    hide Good, Config.Valid, HessianTerm, CandidateTerm;
    KeptIsLive(c, j, b.Source());
    CommittedIsPlanned(c, j, b.Source());
    if b.Key() in j.artifacts {
      KeptIsLive(c, j, b.Key());
    }
  }

  /** `_candidate`: reuse the committed result, or search and publish it. */
  method FindCandidate(d: Driver, b: Job) returns (o: Outcome<(Key, Term)>)
    requires d.Sound() && d.c.Valid() && Searchable(d.c, d.View(), b)
    modifies d.journal
    ensures !o.Raised? && (!d.journal.fallible ==> o.Done?) && d.Sound() && Progress(old(d.View()), d.View())
    ensures d.journal.artifacts.Keys <= old(d.journal.artifacts.Keys) + {b.Key()}
    ensures o.Done? ==> b.Key() in d.journal.artifacts
    ensures o.Done? ==> o.value == (b.Key(), CandidateTerm(d.c, b.ns, b.layer, b.slot, b.bits))
    ensures o.Done? ==> CandidateMeans(d.journal.artifacts, b.ns, b.layer, b.slot, b.bits) && TermAt(d.journal.artifacts, b.Key()) == o.value.1
  {
    hide Good, StateOf, Parents, InRun, Ordered, IsTemporary, HessianTerm, CandidateMeans;
    SearchableHessian(d.c, d.View(), b);
    var existing :- d.Load(b.Key(), Kind.Projection);
    if existing.Some? {
      CandidateIs(d.c, d.View(), b.ns, b.layer, b.slot, b.bits);
      return Done((b.Key(), existing.value.term));
    }
    var captured :- d.Load(b.Source(), Hessian);
    var fails := d.journal.Fails();
    if fails {
      return Stopped; // the search fails
    }
    var result := Searched(b.ns, b.layer, b.slot, b.bits, captured.value.term);
    var _ :- d.Publish(b.Key(), Kind.Projection, Tensors(result, b.layer), [b.Source()]);
    CandidateIs(d.c, d.View(), b.ns, b.layer, b.slot, b.bits);
    return Done((b.Key(), result));
  }

  // ---------- the queue ----------

  /** A pending search belongs to a searchable job, and a finished one found the planned term. */
  ghost predicate Waiting(c: Config, j: Store, b: Job, ended: Option<Search>)
    requires c.Valid()
  {
    Searchable(c, j, b) &&
    (ended.Some? && ended.value.Found? ==> ended.value.term == CandidateTerm(c, b.ns, b.layer, b.slot, b.bits))
  }

  /** Recording while a block stays open does not disturb its searches. */
  lemma WaitingSurvives(c: Config, j: Store, n: Store, b: Job, ended: Option<Search>)
    requires c.Valid() && Waiting(c, j, b, ended) && Progress(j, n)
    ensures Waiting(c, n, b, ended)
  {
    hide Config.Valid, InRun;
  }

  function Ended(results: map<nat, Search>, f: nat): Option<Search> {
    if f in results then Some(results[f]) else None
  }

  /** The owner's bookkeeping: pending futures, those that are done, and the keys asked for. */
  datatype Status = Status(pending: map<nat, Job>, results: map<nat, Search>, failing: set<nat>, stopped: bool, next: nat,
    submitted: set<Key>)

  /** A failed search has signalled, and behind a signal there is a pending search that has failed or is
      about to: its worker signals before its future is done. */
  predicate Signalled(q: Status) {
    && (forall f :: f in q.results ==> f in q.pending && (q.results[f].Failed? ==> q.stopped))
    && (forall f :: f in q.failing ==> f in q.pending && (f in q.results ==> q.results[f].Failed?))
    && (q.stopped ==> exists f :: f in q.pending && Fails(q, f))
  }

  predicate Fails(q: Status, f: nat) {
    f in q.failing || (f in q.results && q.results[f].Failed?)
  }

  /** Every submitted key is committed or still pending, and no failure goes unnoticed. */
  ghost predicate Consistent(c: Config, j: Store, q: Status)
    requires c.Valid()
  {
    && (forall f :: f in q.pending ==> f < q.next && Waiting(c, j, q.pending[f], Ended(q.results, f)))
    && Signalled(q)
    && (forall k :: k in q.submitted ==> k in j.artifacts || exists f :: f in q.pending && q.pending[f].Key() == k)
  }

  lemma FinishingKeeps(c: Config, j: Store, q: Status, f: nat, r: Search)
    requires c.Valid() && Consistent(c, j, q) && f in q.pending && f !in q.results && (f in q.failing ==> r.Failed?)
    requires r.Found? ==> r.term == CandidateTerm(c, q.pending[f].ns, q.pending[f].layer, q.pending[f].slot, q.pending[f].bits)
    ensures Consistent(c, j, q.(results := q.results[f := r], stopped := q.stopped || r.Failed?))
  {
    hide Config.Valid, Searchable;
    FinishingSignals(q, f, r);
    var n := q.(results := q.results[f := r], stopped := q.stopped || r.Failed?);
    forall g | g in n.pending ensures g < n.next && Waiting(c, j, n.pending[g], Ended(n.results, g)) {
      assert Waiting(c, j, q.pending[g], Ended(q.results, g));
    }
  }

  lemma FinishingSignals(q: Status, f: nat, r: Search)
    requires Signalled(q) && f in q.pending && f !in q.results && (f in q.failing ==> r.Failed?)
    ensures Signalled(q.(results := q.results[f := r], stopped := q.stopped || r.Failed?))
  {
    var n := q.(results := q.results[f := r], stopped := q.stopped || r.Failed?);
    if r.Failed? {
      assert f in n.pending && Fails(n, f);
    } else if q.stopped {
      var g :| g in q.pending && Fails(q, g);
      assert g in n.pending && Fails(n, g);
    }
  }

  lemma SignallingKeeps(c: Config, j: Store, q: Status, f: nat)
    requires c.Valid() && Consistent(c, j, q) && f in q.pending && f !in q.results
    ensures Consistent(c, j, q.(failing := q.failing + {f}, stopped := true))
  {
    assert Fails(q.(failing := q.failing + {f}, stopped := true), f);
    hide Config.Valid, Searchable;
    forall g | g in q.pending ensures Waiting(c, j, q.pending[g], Ended(q.results, g)) {
    }
  }

  lemma ResultsArePending(c: Config, j: Store, q: Status)
    requires c.Valid() && Consistent(c, j, q)
    ensures q.results.Keys <= q.pending.Keys
  {
  }

  /** Taking a successful future out once its key is committed, or growing the journal, keeps the rest. */
  lemma CollectingKeeps(c: Config, j: Store, n: Store, q: Status, f: nat)
    requires c.Valid() && Consistent(c, j, q) && f in q.pending && f in q.results && q.results[f].Found?
    requires Progress(j, n) && q.pending[f].Key() in n.artifacts
    ensures Consistent(c, n, q.(pending := q.pending - {f}, results := q.results - {f}))
  {
    hide Config.Valid, Waiting, Progress, Job.Key;
    TakingSignals(q, f);
    var s := q.(pending := q.pending - {f}, results := q.results - {f});
    forall g | g in s.pending ensures g < s.next && Waiting(c, n, s.pending[g], Ended(s.results, g)) {
      WaitingSurvives(c, j, n, q.pending[g], Ended(q.results, g));
    }
    ProgressKeeps(j, n);
    forall k | k in s.submitted && k !in n.artifacts ensures exists g :: g in s.pending && s.pending[g].Key() == k {
      var g :| g in q.pending && q.pending[g].Key() == k;
      assert g in s.pending;
    }
  }

  lemma TakingSignals(q: Status, f: nat)
    requires Signalled(q) && f in q.pending && f in q.results && q.results[f].Found?
    ensures Signalled(q.(pending := q.pending - {f}, results := q.results - {f}))
  {
    var n := q.(pending := q.pending - {f}, results := q.results - {f});
    if q.stopped {
      var g :| g in q.pending && Fails(q, g);
      assert g in n.pending && Fails(n, g);
    }
  }

  lemma GrowingKeeps(c: Config, j: Store, n: Store, q: Status)
    requires c.Valid() && Consistent(c, j, q) && Progress(j, n)
    ensures Consistent(c, n, q)
  {
    hide Config.Valid, Waiting, Progress;
    forall g | g in q.pending ensures Waiting(c, n, q.pending[g], Ended(q.results, g)) {
      WaitingSurvives(c, j, n, q.pending[g], Ended(q.results, g));
    }
    ProgressKeeps(j, n);
  }

  lemma SearchableSurvives(c: Config, j: Store, n: Store, b: Job)
    requires c.Valid() && Searchable(c, j, b) && Progress(j, n)
    ensures Searchable(c, n, b)
  {
    hide Config.Valid, InRun;
  }

  lemma CommittedJoins(c: Config, j: Store, q: Status, b: Job)
    requires c.Valid() && Consistent(c, j, q) && b.Key() in j.artifacts
    ensures Consistent(c, j, q.(submitted := q.submitted + {b.Key()}))
  {
    hide Config.Valid, Waiting;
  }

  lemma PendingJoins(c: Config, j: Store, q: Status, b: Job)
    requires c.Valid() && Consistent(c, j, q) && Searchable(c, j, b)
    ensures q.next !in q.pending
    ensures Consistent(c, j, q.(pending := q.pending[q.next := b], next := q.next + 1, submitted := q.submitted + {b.Key()}))
  {
    hide Config.Valid, Searchable, CandidateTerm;
    var n := q.(pending := q.pending[q.next := b], next := q.next + 1, submitted := q.submitted + {b.Key()});
    assert q.next !in q.results;
    JoiningSignals(q, b);
    forall f | f in n.pending ensures f < n.next && Waiting(c, j, n.pending[f], Ended(n.results, f)) {
      if f != q.next {
        assert Waiting(c, j, q.pending[f], Ended(q.results, f));
      }
    }
    forall k | k in n.submitted && k !in j.artifacts ensures exists f :: f in n.pending && n.pending[f].Key() == k {
      if k in q.submitted {
        var f :| f in q.pending && q.pending[f].Key() == k;
        assert n.pending[f].Key() == k;
      } else {
        assert n.pending[q.next].Key() == k;
      }
    }
  }

  lemma JoiningSignals(q: Status, b: Job)
    requires Signalled(q) && q.next !in q.pending
    ensures Signalled(q.(pending := q.pending[q.next := b], next := q.next + 1, submitted := q.submitted + {b.Key()}))
  {
    var n := q.(pending := q.pending[q.next := b], next := q.next + 1, submitted := q.submitted + {b.Key()});
    if q.stopped {
      var g :| g in q.pending && Fails(q, g);
      assert g in n.pending && Fails(n, g);
    }
  }

  /** With nothing pending, every submitted key is committed and no search has failed. */
  lemma NothingPending(c: Config, j: Store, q: Status)
    requires c.Valid() && Consistent(c, j, q) && q.pending == map[]
    ensures !q.stopped
    ensures forall k :: k in q.submitted ==> k in j.artifacts
  {
  }

  lemma NoneLeft(a: set<nat>, b: set<nat>)
    requires a - b == {} && b <= a
    ensures a == b
  {
    forall x | x in a ensures x in b {
      assert x !in a - b;
    }
  }

  lemma SomeTaken(before: map<nat, Job>, after: map<nat, Job>, f: nat)
    requires after.Keys <= before.Keys && f in before && f !in after
    ensures |after| < |before|
  {
    assert after.Keys <= before.Keys - {f};
    SubsetIsSmaller(after.Keys, before.Keys - {f});
    assert |after.Keys| == |after| && |before.Keys| == |before|;
  }

  lemma {:induction false} SubsetIsSmaller(a: set<nat>, b: set<nat>)
    requires a <= b
    ensures |a| <= |b|
  {
    if a != {} {
      var x :| x in a;
      SubsetIsSmaller(a - {x}, b - {x});
    }
  }

  class CandidateQueue {
    const d: Driver
    const limit: nat
    var pending: map<nat, Job>
    var results: map<nat, Search>
    var failing: set<nat>
    var stopped: bool
    var highWater: nat
    var next: nat
    ghost var submitted: set<Key>

    constructor (d: Driver)
      requires d.Sound() && d.c.Valid()
      ensures this.d == d && Valid() && submitted == {}
    {
      this.d, limit := d, 2 * d.workers;
      pending, results, failing, stopped, highWater, next, submitted := map[], map[], {}, false, 0, 0, {};
    }

    ghost function Now(): Status
      reads this
    {
      Status(pending, results, failing, stopped, next, submitted)
    }

    /** At most twice as many searches as workers are outstanding, now and at any time before. */
    ghost predicate Valid()
      reads this, d.journal
    {
      && d.Sound() && d.c.Valid() && Consistent(d.c, d.View(), Now())
      && limit == 2 * d.workers && |pending| <= highWater <= limit
      && (!d.journal.fallible ==> !stopped && failing == {})
    }

    /** The worker that runs job `b`, reading its Hessian from disk. */
    method RunSearch(b: Job) returns (r: Search)
      requires d.Sound() && d.c.Valid() && Searchable(d.c, d.View(), b)
      ensures r.Found? ==> r.term == CandidateTerm(d.c, b.ns, b.layer, b.slot, b.bits)
      ensures !d.journal.fallible && !stopped ==> r.Found?
    {
      SearchableHessian(d.c, d.View(), b);
      hide Good, Searchable, StateOf, HessianTerm, InRun, Config.Valid;
      var fails := d.journal.Fails();
      if fails {
        return Failed;
      }
      var file := d.journal.files[b.Source()];
      if file.kind != Hessian || file.artifact != b.Source() {
        return Failed;
      }
      if stopped {
        if * {
          return Failed; // seen by one of the worker's two checks
        }
      }
      return Found(Searched(b.ns, b.layer, b.slot, b.bits, file.state.term));
    }

    /** One future becomes done. A failing worker signals first. */
    method Finish(f: nat)
      requires Valid() && f in pending && f !in results
      modifies this`results, this`failing, this`stopped
      ensures Valid() && results.Keys == old(results.Keys) + {f} && (old(stopped) ==> stopped)
    {
      hide Good, Consistent, Searchable, Config.Valid;
      PendingIsSearchable(f);
      var r := Failed;
      if f !in failing {
        r := RunSearch(pending[f]);
      }
      FinishingKeeps(d.c, d.View(), Now(), f, r);
      stopped := stopped || r.Failed?;
      results := results[f := r];
    }

    lemma PendingIsSearchable(f: nat)
      requires Valid() && f in pending
      ensures Searchable(d.c, d.View(), pending[f])
    {
      hide Good, Config.Valid, Searchable;
      assert Waiting(d.c, d.View(), pending[f], Ended(results, f));
    }

    /** What the workers get done while the owner does something else, including a stop signal whose
        future is not done yet. */
    method Workers()
      requires Valid()
      modifies this`results, this`failing, this`stopped
      ensures Valid() && old(results.Keys) <= results.Keys && (old(stopped) ==> stopped)
    {
      hide Good, Consistent, Config.Valid;
      var rest := pending.Keys - results.Keys;
      while rest != {}
        invariant Valid() && rest == pending.Keys - results.Keys
        invariant old(results.Keys) <= results.Keys && (old(stopped) ==> stopped)
        decreases rest
      {
        if * {
          return;
        }
        var fails := d.journal.Fails();
        if fails {
          var g :| g in rest;
          SignallingKeeps(d.c, d.View(), Now(), g);
          failing, stopped := failing + {g}, true;
          return;
        }
        var f :| f in rest;
        Finish(f);
        rest := rest - {f};
      }
    }

    /** `wait(pending, return_when=FIRST_COMPLETED)` */
    method WaitFirst()
      requires Valid() && pending != map[]
      modifies this`results, this`failing, this`stopped
      ensures Valid() && results != map[] && old(results.Keys) <= results.Keys && (old(stopped) ==> stopped)
    {
      hide Good, Consistent, Config.Valid;
      Workers();
      if results == map[] {
        var f :| f in pending.Keys;
        Finish(f);
      }
    }

    /** `wait(pending)` */
    method WaitAll()
      requires Valid()
      modifies this`results, this`failing, this`stopped
      ensures Valid() && results.Keys == pending.Keys && (old(stopped) ==> stopped)
    {
      hide Good, Consistent, Config.Valid;
      ResultsArePending(d.c, d.View(), Now());
      var rest := pending.Keys - results.Keys;
      while rest != {}
        invariant Valid() && rest == pending.Keys - results.Keys && (old(stopped) ==> stopped)
        invariant results.Keys <= pending.Keys
        decreases rest
      {
        var f :| f in rest;
        Finish(f);
        rest := rest - {f};
      }
      NoneLeft(pending.Keys, results.Keys);
    }

    /** `pending.pop(future)`, its result, and its publication. */
    method Collect(f: nat) returns (o: Outcome<()>)
      requires Valid() && f in pending && f in results
      modifies this`pending, this`results, d.journal
      ensures !o.Raised? && (!d.journal.fallible ==> o.Done?) && d.Sound() && Progress(old(d.View()), d.View())
      ensures o.Done? ==> Valid() && pending == old(pending) - {f} && results == old(results) - {f}
    {
      hide Good, Consistent, Config.Valid, Searchable, StateOf, Parents, InRun, Ordered, FileOf, IsTemporary;
      PendingIsSearchable(f);
      PendingResult(f);
      var b, r := pending[f], results[f];
      SearchableHessian(d.c, d.View(), b);
      ghost var before, was := d.View(), Now();
      SearchableIsPlanned(d.c, before, b);
      pending, results := pending - {f}, results - {f};
      if r.Failed? {
        return Stopped;
      }
      var fails := d.journal.Fails();
      if fails {
        return Stopped; // the result has no valid evidence to score
      }
      var _ :- d.Publish(b.Key(), Kind.Projection, Tensors(r.term, b.layer), [b.Source()]);
      CollectingKeeps(d.c, before, d.View(), was, f);
      return Done(());
    }

    ghost predicate AllEnded()
      reads this
    {
      pending.Keys <= results.Keys
    }

    /** The pass over a copy of the pending futures: publish every one that is done. */
    method CollectDone() returns (o: Outcome<()>)
      requires Valid()
      modifies this`pending, this`results, d.journal
      ensures !o.Raised? && (!d.journal.fallible ==> o.Done?) && d.Sound() && Progress(old(d.View()), d.View())
      ensures o.Done? ==> Valid() && pending.Keys <= old(pending.Keys)
      ensures o.Done? ==> forall f :: f in pending ==> f !in old(results)
    {
      hide Good, Consistent, Config.Valid, Progress;
      ghost var start := d.View();
      ProgressComposes(start, start, start);
      ResultsArePending(d.c, d.View(), Now());
      var rest := pending.Keys;
      ghost var all, done := pending.Keys, results.Keys;
      while rest != {}
        invariant Valid() && Progress(start, d.View())
        invariant results.Keys <= pending.Keys <= all
        invariant forall f :: f in done && f in pending ==> f in rest && f in results
        decreases rest
      {
        var f :| f in rest;
        rest := rest - {f};
        if f in results {
          ghost var middle := d.View();
          o := Collect(f);
          ProgressComposes(start, middle, d.View());
          if !o.Done? {
            return;
          }
        }
      }
      return Done(());
    }

    /** Publish what is done, and refuse to go on after any failure. The recursion drains a failure
        that was signalled before its future was done; by then every future is. */
    method Harvest(block: bool) returns (o: Outcome<()>)
      requires Valid()
      modifies this`pending, this`results, this`failing, this`stopped, d.journal
      ensures !o.Raised? && (!d.journal.fallible ==> o.Done?) && d.Sound() && Progress(old(d.View()), d.View())
      ensures o.Done? ==> Valid() && pending.Keys <= old(pending.Keys) && !stopped && !old(stopped)
      ensures o.Done? && block && old(pending) != map[] ==> |pending| < |old(pending)|
      decreases !AllEnded()
    {
      hide Good, Consistent, Config.Valid, Progress;
      ghost var start := d.View();
      Await(block);
      ghost var ended := results.Keys;
      o := CollectDone();
      if !o.Done? {
        return;
      }
      Workers();
      if stopped {
        if pending.Keys != {} {
          WaitAll();
          ghost var middle := d.View();
          o := Harvest(false);
          ProgressComposes(start, middle, d.View());
        }
        return Stopped;
      }
      if ended != {} {
        var f :| f in ended;
        SomeTaken(old(pending), pending, f);
      }
      return Done(());
    }

    /** Wait for one search if asked to, or see what is done. */
    method Await(block: bool)
      requires Valid()
      modifies this`results, this`failing, this`stopped
      ensures Valid() && results.Keys <= pending.Keys && (old(stopped) ==> stopped)
      ensures block && pending != map[] ==> results.Keys != {}
      ensures old(AllEnded()) ==> results.Keys == pending.Keys
    {
      hide Good, Consistent, Config.Valid;
      if block && pending != map[] {
        WaitFirst();
      } else {
        Workers();
      }
      ResultsArePending(d.c, d.View(), Now());
    }

    /** Recording something else leaves the queue as it is. */
    twostate lemma StillValid()
      requires old(Valid()) && d.Sound() && unchanged(this)
      requires Progress(old(d.View()), d.View())
      ensures Valid()
    {
      hide Good, Consistent, Config.Valid, Progress;
      GrowingKeeps(d.c, old(d.View()), d.View(), Now());
    }

    /** Hand a job to the workers, unless its result is already committed. */
    method Submit(b: Job) returns (o: Outcome<()>)
      requires Valid() && Searchable(d.c, d.View(), b)
      modifies this, d.journal
      ensures !o.Raised? && (!d.journal.fallible ==> o.Done?) && d.Sound() && Progress(old(d.View()), d.View())
      ensures o.Done? ==> Valid() && submitted == old(submitted) + {b.Key()}
      ensures o.Done? && d.workers > 1 ==> !old(stopped)
    {
      hide Good, Consistent, Config.Valid, Progress, Searchable;
      ghost var start := d.View();
      if d.workers == 1 {
        o := SearchInline(b);
        return;
      }
      o := Refill();
      if !o.Done? {
        return;
      }
      SearchableSurvives(d.c, start, d.View(), b);
      o := Enqueue(b);
    }

    /** With room in the queue: skip a committed result, else require the committed Hessian. */
    method Enqueue(b: Job) returns (o: Outcome<()>)
      requires Valid() && Searchable(d.c, d.View(), b) && |pending| < limit
      modifies this
      ensures !o.Raised? && (!d.journal.fallible ==> o.Done?)
      ensures o.Done? ==> Valid() && submitted == old(submitted) + {b.Key()}
    {
      hide Good, Consistent, Config.Valid, Searchable, InRun, StateOf;
      var needed :- NeedsSearch(b);
      if !needed {
        CommittedJoins(d.c, d.View(), Now(), b);
        submitted := submitted + {b.Key()};
        return Done(());
      }
      PendingJoins(d.c, d.View(), Now(), b);
      pending, next := pending[next := b], next + 1;
      submitted := submitted + {b.Key()};
      highWater := if |pending| > highWater then |pending| else highWater;
      return Done(());
    }

    /** Whether a job's result is missing; its Hessian is then committed. */
    method NeedsSearch(b: Job) returns (o: Outcome<bool>)
      requires Valid() && Searchable(d.c, d.View(), b)
      ensures !o.Raised? && (!d.journal.fallible ==> o.Done?) && (o.Done? && !o.value ==> b.Key() in d.journal.artifacts)
    {
      hide Good, Consistent, Config.Valid, Searchable, InRun, StateOf, IsTemporary, Parents, Ordered, FileOf, CandidateTerm;
      SearchableHessian(d.c, d.View(), b);
      SearchableIsPlanned(d.c, d.View(), b);
      var existing :- d.Load(b.Key(), Kind.Projection);
      if existing.Some? {
        return Done(false);
      }
      var record := d.journal.Get(b.Source(), false);
      LoadFacts(d.c, d.View(), b.Source());
      if record.value.None? || record.value.value.kind != Hessian {
        return Raised(MissingArtifact);
      }
      return Done(true);
    }

    /** With a single worker the owner searches itself. */
    method SearchInline(b: Job) returns (o: Outcome<()>)
      requires Valid() && Searchable(d.c, d.View(), b)
      modifies this`submitted, d.journal
      ensures !o.Raised? && (!d.journal.fallible ==> o.Done?) && d.Sound() && Progress(old(d.View()), d.View())
      ensures o.Done? ==> Valid() && submitted == old(submitted) + {b.Key()}
    {
      hide Good, Consistent, Config.Valid, Progress, Searchable, InRun, StateOf;
      var _ :- FindCandidate(d, b);
      ProgressComposes(old(d.View()), d.View(), d.View());
      GrowingKeeps(d.c, old(d.View()), d.View(), Now());
      CommittedJoins(d.c, d.View(), Now(), b);
      submitted := submitted + {b.Key()};
      return Done(());
    }

    /** Harvest until there is room for one more. */
    method Refill() returns (o: Outcome<()>)
      requires Valid()
      modifies this`pending, this`results, this`failing, this`stopped, d.journal
      ensures !o.Raised? && (!d.journal.fallible ==> o.Done?) && d.Sound() && Progress(old(d.View()), d.View())
      ensures o.Done? ==> Valid() && |pending| < limit && !stopped && !old(stopped)
    {
      hide Good, Consistent, Config.Valid, Progress;
      ghost var start := d.View();
      o := Harvest(false);
      while o.Done? && |pending| >= limit
        invariant !o.Raised? && (!d.journal.fallible ==> o.Done?) && d.Sound() && Progress(start, d.View())
        invariant o.Done? ==> Valid() && !stopped && !old(stopped)
        decreases o.Done?, |pending|
      {
        ghost var middle := d.View();
        PositiveLimit();
        o := Harvest(true);
        ProgressComposes(start, middle, d.View());
      }
    }

    lemma PositiveLimit()
      requires Valid()
      ensures limit > 0
    {
    }

    /** A clean exit waits for every search: nothing that was submitted is missing afterwards. */
    method Close() returns (o: Outcome<()>)
      requires Valid()
      modifies this`pending, this`results, this`failing, this`stopped, d.journal
      ensures !o.Raised? && (!d.journal.fallible ==> o.Done?) && d.Sound() && Progress(old(d.View()), d.View())
      ensures o.Done? ==> Valid() && pending == map[] && forall k :: k in submitted ==> k in d.journal.artifacts
      ensures o.Done? ==> !stopped && !old(stopped)
    {
      hide Good, Consistent, Config.Valid, Progress;
      ghost var start := d.View();
      ProgressComposes(start, start, start);
      o := Done(());
      while o.Done? && pending != map[]
        invariant !o.Raised? && (!d.journal.fallible ==> o.Done?) && d.Sound() && Progress(start, d.View())
        invariant o.Done? ==> Valid() && (old(stopped) ==> stopped)
        decreases o.Done?, |pending|
      {
        ghost var middle := d.View();
        o := Harvest(true);
        ProgressComposes(start, middle, d.View());
      }
      if o.Done? {
        NothingPending(d.c, d.View(), Now());
      }
    }

    lemma PendingResult(f: nat)
      requires Valid() && f in pending && f in results
      ensures var b := pending[f];
        results[f].Found? ==> results[f].term == CandidateTerm(d.c, b.ns, b.layer, b.slot, b.bits)
      ensures results[f].Failed? ==> d.journal.fallible
    {
      hide Good, Config.Valid, Searchable;
      assert Waiting(d.c, d.View(), pending[f], Ended(results, f));
    }
  }

  lemma SearchableIsPlanned(c: Config, j: Store, b: Job)
    requires c.Valid() && Searchable(c, j, b)
    ensures InRun(c, b.Key()) && b.Source() in j.artifacts && KindOf(b.Key()) == Kind.Projection
  {
  }
}
