/** Loading and publishing run artifacts, and the single-candidate search step. */
module Driver {
  import opened Journal
  import opened Options
  import opened RunInvariant
  import opened RunPlan
  import opened RunStore

  /** How many experts are captured at a time, and how many searches run at once. They shape one life of the
      run and are no part of the plan. */
  type Subset = n: nat | 1 <= n witness 1
  type Workers = n: nat | 1 <= n <= 16 witness 1

  class Driver {
    const c: Config
    const journal: RunStore<Key, Key, File>
    const subset: Subset
    const workers: Workers

    constructor (c: Config, journal: RunStore<Key, Key, File>, subset: Subset, workers: Workers)
      ensures this.c == c && this.journal == journal && this.subset == subset && this.workers == workers
    {
      this.c, this.journal, this.subset, this.workers := c, journal, subset, workers;
    }

    ghost function View(): Store
      reads journal
    {
      journal.View()
    }

    ghost predicate Sound()
      reads journal
    {
      Good(c, journal.View())
    }

    /** `_load`: nothing, or the state of a payload whose kind, digest and provenance all agree. The
        process may die while it reads. The code would read a retired payload whose unlink is still to come;
        no caller of the run may ask for one, and what is asked for is never refused. */
    method Load(key: Key, kind: Kind) returns (o: Outcome<Option<State>>)
      requires Sound() && c.Valid() && InRun(c, key) && KindOf(key) == kind
      requires key !in journal.artifacts || Live(View(), key) || !IsTemporary(c, key)
      ensures !o.Raised? && (!journal.fallible ==> o.Done?)
      ensures o.Done? && o.value.Some? ==> Live(View(), key)
      ensures o.Done? ==> o.value == if key in journal.artifacts then Some(StateOf(c, key)) else None
    {
      var dies := journal.Fails();
      if dies {
        return Stopped;
      }
      var got := journal.Get(key, false);
      var found := got.value;
      if found.None? {
        return Done(None);
      }
      ghost var view := View();
      LoadFacts(c, view, key);
      hide Good, StateOf, IsTemporary;
      var record := found.value;
      if record.kind != kind {
        return Raised(WrongKind);
      }
      if record.path !in journal.files {
        return Raised(MissingPayload);
      }
      var file := journal.files[record.path];
      if file != record.payload || file.kind != kind || file.artifact != key {
        return Raised(CorruptPayload);
      }
      return Done(Some(file.state));
    }

    /** `_publish`: write the payload, then commit its record. */
    method Publish(key: Key, kind: Kind, state: State, parents: seq<Key>) returns (o: Outcome<()>)
      requires Sound() && c.Valid() && InRun(c, key) && (key in journal.artifacts ==> Live(View(), key))
      requires kind == KindOf(key) && state == StateOf(c, key) && parents == Parents(c, key)
      requires (forall p :: p in parents ==> p in journal.artifacts) && Ordered(c, View(), key)
      modifies journal
      ensures !o.Raised? && Sound() && Grown(old(View()), View()) && (!journal.fallible ==> o.Done?)
      ensures journal.artifacts.Keys <= old(journal.artifacts.Keys) + {key}
      ensures o.Done? ==> key in journal.artifacts
    {
      hide Good, StateOf, Parents, Ordered, InRun, KindOf;
      Save(key, File(kind, key, state));
      var dies := journal.Fails();
      if dies {
        return Stopped;
      }
      o := Record(key, kind, parents);
    }

    /** A worker's payload, not recorded yet; over a committed key it can only be the same payload. */
    method Save(key: Key, file: File)
      requires Sound() && c.Valid() && InRun(c, key)
      requires key in journal.artifacts ==> Live(View(), key) && file == FileOf(c, key)
      modifies journal
      ensures Sound() && View() == old(View()).(files := old(journal.files)[key := file])
      ensures forall k :: Ordered(c, old(View()), k) ==> Ordered(c, View(), k)
    {
      if key in journal.artifacts {
        RecommittingIsIdempotent(c, View(), key);
      } else {
        SavingKeepsGood(c, View(), key, file);
      }
      ghost var before := View();
      journal.SaveFile(key, file);
      forall k | Ordered(c, before, k) ensures Ordered(c, View(), k) {
        if Guard(k).Some? {
          SweptSurvives(c, before, View(), Guard(k).value);
        }
      }
    }

    method Record(key: Key, kind: Kind, parents: seq<Key>) returns (o: Outcome<()>)
      requires Sound() && c.Valid() && InRun(c, key) && (key in journal.artifacts ==> Live(View(), key))
      requires key in journal.files && journal.files[key] == FileOf(c, key)
      requires kind == KindOf(key) && parents == Parents(c, key)
      requires (forall p :: p in parents ==> p in journal.artifacts) && Ordered(c, View(), key)
      modifies journal
      ensures !o.Raised? && Sound() && Grown(old(View()), View()) && (!journal.fallible ==> o.Done?)
      ensures journal.artifacts.Keys <= old(journal.artifacts.Keys) + {key}
      ensures journal.files == old(journal.files)
      ensures o.Done? ==> key in journal.artifacts
    {
      if key in journal.artifacts {
        RecommittingIsIdempotent(c, View(), key);
      } else {
        CommittingKeepsGood(c, View(), key);
      }
      hide Good, StateOf, FileOf, Parents, Ordered, InRun, RecordAccepts;
      var _ :- journal.RecordFile(key, kind, key, parents);
      return Done(());
    }
  }

  /** What the loaders rely on. */
  lemma LoadFacts(c: Config, j: Store, key: Key)
    requires Good(c, j) && c.Valid() && InRun(c, key) && key in j.artifacts
    ensures j.artifacts[key].kind == KindOf(key) && j.artifacts[key].path == key
    ensures j.artifacts[key].payload == File(KindOf(key), key, StateOf(c, key))
    ensures Live(j, key) || !IsTemporary(c, key) ==> Live(j, key) && key in j.files && j.files[key] == j.artifacts[key].payload
  {
    hide StateOf, Parents;
    CommittedIsPlanned(c, j, key);
    if !IsTemporary(c, key) {
      KeptIsLive(c, j, key);
    }
  }
}
