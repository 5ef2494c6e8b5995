/** The journal's owner: the tables and the payload directory, changed one durable step at a time.
    `Fails` marks a point where the process may die; nothing later in the method then happens. */
module RunStore {
  import opened Journal
  import opened Options

  class RunStore<K(==, !new), P(==, !new), F(==, !new)> {
    /** Whether anything may fail in this life: the process, a forward pass, a search. */
    const fallible: bool

    var artifacts: map<K, Record<K, P, F>>
    var retirements: map<K, Intent<K, P, F>>
    var files: map<P, F>

    /** Opens what is on disk. */
    constructor (disk: Durable<K, P, F>, fallible: bool)
      ensures View() == disk && this.fallible == fallible
    {
      this.fallible := fallible;
      artifacts, retirements, files := disk.artifacts, disk.retirements, disk.files;
    }

    /** Does something fail here? Any point may be the one, if anything fails at all. */
    method Fails() returns (dies: bool)
      ensures dies ==> fallible
    {
      dies := *;
      dies := dies && fallible;
    }

    ghost function View(): Durable<K, P, F>
      reads this
    {
      Durable(artifacts, retirements, files)
    }

    /** A worker or `_publish` writes a payload file; it is not completed work until recorded. */
    method SaveFile(path: P, file: F)
      modifies this
      ensures View() == old(View()).(files := old(files)[path := file])
    {
      files := files[path := file];
    }

    method RecordFile(key: K, kind: Kind, path: P, parents: seq<K>) returns (o: Outcome<Record<K, P, F>>)
      modifies this
      ensures o.Raised? <==> !RecordAccepts(old(View()), key, kind, path, parents)
      ensures !o.Raised? <==>
        && (forall i, n :: 0 <= i < n < |parents| ==> parents[i] != parents[n]) && key !in parents && path in old(files)
        && (forall p :: p in parents ==> p in old(artifacts))
        && (key in old(artifacts) ==>
            old(artifacts)[key] == Record(kind, path, old(files)[path], map p | p in parents :: old(artifacts)[p]))
      ensures o.Raised? ==> View() == old(View())
      ensures !fallible ==> !o.Stopped?
      ensures o.Stopped? ==> View() == old(View()) || View() == Recorded(old(View()), key, kind, path, parents)
      ensures o.Done? ==> artifacts == old(artifacts)[key := Record(kind, path, old(files)[path], map p | p in parents :: old(artifacts)[p])]
      ensures o.Done? ==>
        && View() == Recorded(old(View()), key, kind, path, parents)
        && o.value == NewRecord(old(View()), kind, path, parents)
    {
      if (exists i, j :: 0 <= i < j < |parents| && parents[i] == parents[j]) || key in parents {
        return Raised(InvalidDependencies);
      }
      if path !in files {
        return Raised(MissingPayload);
      }
      var dependencies: map<K, Record<K, P, F>> := map[];
      for i := 0 to |parents|
        invariant forall p :: p in parents[..i] ==> p in artifacts
        invariant dependencies == map p | p in parents[..i] :: artifacts[p]
      {
        if parents[i] !in artifacts {
          return Raised(UncommittedDependency);
        }
        dependencies := dependencies[parents[i] := artifacts[parents[i]]];
      }
      assert parents[..|parents|] == parents;
      var record := Record(kind, path, files[path], dependencies);
      if key in artifacts && artifacts[key] != record {
        return Raised(ImmutableRecord);
      }
      var dies := Fails();
      if dies {
        return Stopped;
      }
      if key !in artifacts {
        artifacts := artifacts[key := record];
      }
      assert View().artifacts == Recorded(old(View()), key, kind, path, parents).artifacts;
      dies := Fails();
      if dies {
        return Stopped;
      }
      return Done(record);
    }

    method Get(key: K, verify: bool) returns (o: Outcome<Option<Record<K, P, F>>>)
      ensures !o.Stopped?
      ensures o.Raised? <==> verify && key in artifacts && !Intact(View(), key)
      ensures !o.Raised? && verify && key in artifacts ==>
        && key !in retirements && artifacts[key].path in files && files[artifacts[key].path] == artifacts[key].payload
        && forall p :: p in artifacts[key].parents ==> p in artifacts && artifacts[p] == artifacts[key].parents[p]
      ensures o.Done? ==> o.value == if key in artifacts then Some(artifacts[key]) else None
    {
      if key !in artifacts {
        return Done(None);
      }
      var record := artifacts[key];
      if verify {
        if key in retirements {
          return Raised(RetiredPayload);
        }
        var rest := record.parents.Keys;
        while rest != {}
          invariant rest <= record.parents.Keys
          invariant forall p :: p in record.parents && p !in rest ==> p in artifacts && artifacts[p] == record.parents[p]
        {
          var p :| p in rest;
          if p !in artifacts || artifacts[p] != record.parents[p] {
            return Raised(CorruptDependency);
          }
          rest := rest - {p};
        }
        if record.path !in files || files[record.path] != record.payload {
          return Raised(CorruptPayload);
        }
      }
      return Done(Some(record));
    }

    /** The parents of a record, as the list the worklist extends itself with. */
    static method Items(m: map<K, Record<K, P, F>>) returns (s: seq<(K, Record<K, P, F>)>)
      ensures forall e :: e in s ==> e.0 in m && m[e.0] == e.1
      ensures forall k :: k in m ==> (k, m[k]) in s
    {
      var rest := m.Keys;
      s := [];
      while rest != {}
        invariant rest <= m.Keys
        invariant forall e :: e in s ==> e.0 in m && m[e.0] == e.1
        invariant forall k :: k in m && k !in rest ==> (k, m[k]) in s
      {
        var k :| k in rest;
        s := s + [(k, m[k])];
        rest := rest - {k};
      }
    }

    /** Every pending item and every collected key is an ancestor, and what is still missing is a
        parent of something collected that is still pending. */
    ghost predicate Worklist(barrier: K, ancestors: set<K>, pending: seq<(K, Record<K, P, F>)>)
      reads this
    {
      && barrier in artifacts
      && (forall e :: e in pending ==> e.0 in artifacts && artifacts[e.0] == e.1 && Ancestor(artifacts, barrier, e.0))
      && (forall k :: k in ancestors ==> k in artifacts && Ancestor(artifacts, barrier, k))
      && (forall p :: p in artifacts[barrier].parents ==> p in ancestors || (p, artifacts[barrier].parents[p]) in pending)
      && (forall k, p :: k in ancestors && p in artifacts[k].parents ==> p in ancestors || (p, artifacts[k].parents[p]) in pending)
    }

    /** The ancestor worklist of `retire_files`: it ends, meets no corrupt dependency in a valid journal,
        and collects the barrier's ancestors, all of them and nothing else. */
    method CollectAncestors(barrier: K) returns (o: Outcome<set<K>>)
      requires Valid(View()) && barrier in artifacts
      ensures o.Done?
      ensures forall k :: k in o.value <==> Ancestor(artifacts, barrier, k)
    {
      var ancestors: set<K> := {};
      var pending := Items(artifacts[barrier].parents);
      InitialWorklist(barrier, pending);
      while pending != []
        invariant Worklist(barrier, ancestors, pending)
        decreases artifacts.Keys - ancestors, |pending|
      {
        var item := pending[|pending| - 1];
        var rest := pending[..|pending| - 1];
        assert item in pending;
        if item.0 !in artifacts || artifacts[item.0] != item.1 {
          return Raised(CorruptDependency);
        }
        if item.0 in ancestors {
          SkipItem(barrier, ancestors, pending);
          pending := rest;
        } else {
          var more := Items(item.1.parents);
          ExpandItem(barrier, ancestors, pending, more);
          ancestors := ancestors + {item.0};
          pending := rest + more;
        }
      }
      WorklistIsClosure(barrier, ancestors);
      return Done(ancestors);
    }

    lemma InitialWorklist(barrier: K, pending: seq<(K, Record<K, P, F>)>)
      requires Valid(View()) && barrier in artifacts
      requires forall e :: e in pending ==> e.0 in artifacts[barrier].parents && artifacts[barrier].parents[e.0] == e.1
      requires forall k :: k in artifacts[barrier].parents ==> (k, artifacts[barrier].parents[k]) in pending
      ensures Worklist(barrier, {}, pending)
    {
      forall e | e in pending ensures Ancestor(artifacts, barrier, e.0) {
        ParentIsAncestor(artifacts, barrier, e.0);
      }
    }

    lemma SkipItem(barrier: K, ancestors: set<K>, pending: seq<(K, Record<K, P, F>)>)
      requires pending != [] && Worklist(barrier, ancestors, pending)
      requires pending[|pending| - 1].0 in ancestors
      ensures Worklist(barrier, ancestors, pending[..|pending| - 1])
    {
      var rest := pending[..|pending| - 1];
      assert pending == rest + [pending[|pending| - 1]];
    }

    lemma ExpandItem(barrier: K, ancestors: set<K>, pending: seq<(K, Record<K, P, F>)>, more: seq<(K, Record<K, P, F>)>)
      requires Valid(View()) && pending != [] && Worklist(barrier, ancestors, pending)
      requires var item := pending[|pending| - 1];
        && (forall e :: e in more ==> e.0 in item.1.parents && item.1.parents[e.0] == e.1)
        && (forall k :: k in item.1.parents ==> (k, item.1.parents[k]) in more)
      ensures Worklist(barrier, ancestors + {pending[|pending| - 1].0}, pending[..|pending| - 1] + more)
    {
      var rest, item := pending[..|pending| - 1], pending[|pending| - 1];
      assert pending == rest + [item];
      assert item in pending;
      forall e | e in more ensures e.0 in artifacts && artifacts[e.0] == e.1 && Ancestor(artifacts, barrier, e.0) {
        AncestorStep(artifacts, barrier, item.0, e.0);
      }
    }

    lemma WorklistIsClosure(barrier: K, ancestors: set<K>)
      requires Worklist(barrier, ancestors, [])
      ensures forall k :: k in ancestors <==> Ancestor(artifacts, barrier, k)
    {
      forall k | Ancestor(artifacts, barrier, k) ensures k in ancestors {
        var c: seq<K> :| |c| >= 2 && Chain(artifacts, c) && c[0] == barrier && c[|c| - 1] == k;
        ClosedSetHoldsAncestors(artifacts, barrier, ancestors, c);
      }
    }

    /** The checks on one retired key, before anything is written. */
    method CheckKey(key: K, barrier: K, ancestors: set<K>) returns (o: Outcome<(Intent<K, P, F>, P)>)
      requires barrier in artifacts && forall k :: k in ancestors <==> Ancestor(artifacts, barrier, k)
      requires Valid(View())
      ensures !o.Stopped?
      ensures o.Raised? <==> !KeyAccepted(View(), key, barrier)
      ensures o.Done? ==> o.value == (Intent(barrier, artifacts[key], artifacts[barrier]), artifacts[key].path)
    {
      if key !in ancestors || key !in artifacts || !Temporary(artifacts[key].kind) {
        return Raised(NotATemporaryAncestor);
      }
      var record := artifacts[key];
      var intent := Intent(barrier, record, artifacts[barrier]);
      if key in retirements && retirements[key] != intent {
        return Raised(RetirementChanged);
      }
      if PathKeys(artifacts, record.path) != {key} {
        return Raised(AliasedPayload);
      }
      if record.path in files {
        if files[record.path] != record.payload {
          return Raised(CorruptTarget);
        }
      } else if key !in retirements {
        return Raised(MissingBeforeIntent);
      }
      return Done((intent, record.path));
    }

    /** The checks of `retire_files`, in the order the code makes them. */
    method Authorize(keys: seq<K>, barrier: K) returns (o: Outcome<(map<K, Intent<K, P, F>>, seq<P>)>)
      requires Valid(View())
      ensures !o.Stopped?
      ensures o.Raised? <==> !RetireAccepts(View(), keys, barrier)
      ensures o.Done? ==> o.value.0 == Intents(artifacts, keys, barrier) && o.value.1 == PathsOf(artifacts, keys)
    {
      if keys == [] || (exists i, j :: 0 <= i < j < |keys| && keys[i] == keys[j]) || barrier in keys {
        return Raised(InvalidRetirement);
      }
      var found := Get(barrier, true);
      if found.Raised? || found.value.None? || !Barrier(found.value.value.kind) {
        return Raised(NotABarrier);
      }
      LiveIsIntact(View(), barrier);
      var collected := CollectAncestors(barrier);
      var ancestors := collected.value;
      var intents: map<K, Intent<K, P, F>> := map[];
      var paths: seq<P> := [];
      for i := 0 to |keys|
        invariant |paths| == i
        invariant forall n :: 0 <= n < i ==> KeyAccepted(View(), keys[n], barrier) && paths[n] == artifacts[keys[n]].path
        invariant intents.Keys == set k | k in keys[..i]
        invariant forall k :: k in intents ==> k in artifacts && intents[k] == Intent(barrier, artifacts[k], artifacts[barrier])
      {
        assert keys[i] in keys && keys[..i + 1] == keys[..i] + [keys[i]];
        var checked :- CheckKey(keys[i], barrier, ancestors);
        intents := intents[keys[i] := checked.0];
        paths := paths + [checked.1];
      }
      assert keys[..|keys|] == keys;
      return Done((intents, paths));
    }

    method RetireFiles(keys: seq<K>, barrier: K) returns (o: Outcome<nat>)
      requires Valid(View())
      modifies this
      ensures Valid(View()) && artifacts == old(artifacts)
      ensures o.Raised? <==> !RetireAccepts(old(View()), keys, barrier)
      ensures o.Raised? ==> View() == old(View())
      ensures !fallible ==> !o.Stopped?
      ensures o.Stopped? ==> Interrupted(old(View()), keys, barrier, View())
      ensures o.Done? ==> View() == Retired(old(View()), keys, barrier)
      ensures o.Done? ==> RetiredExactly(old(View()), View(), keys, barrier)
    {
      var plan :- Authorize(keys, barrier);
      o := Unlink(keys, barrier, plan.0, plan.1);
      if o.Done? {
        RetiringIsExact(old(View()), keys, barrier);
      }
    }

    /** The durable half: one transaction for all intents, then the payloads one by one. */
    method Unlink(keys: seq<K>, barrier: K, intents: map<K, Intent<K, P, F>>, paths: seq<P>) returns (o: Outcome<nat>)
      requires Valid(View()) && RetireAccepts(View(), keys, barrier)
      requires intents == Intents(artifacts, keys, barrier)
      requires paths == PathsOf(artifacts, keys)
      modifies this
      ensures !o.Raised?
      ensures Valid(View()) && artifacts == old(artifacts)
      ensures !fallible ==> !o.Stopped?
      ensures o.Stopped? ==> Interrupted(old(View()), keys, barrier, View())
      ensures o.Done? ==> View() == Retired(old(View()), keys, barrier)
    {
      hide RetireAccepts;
      ghost var start := View();
      var dies := Fails();
      if dies {
        return Stopped;
      }
      retirements := retirements + intents;
      var removed := 0;
      assert files == RetiredTo(start, keys, barrier, 0).files;
      for i := 0 to |paths|
        invariant View() == RetiredTo(start, keys, barrier, i)
      {
        dies := Fails();
        if dies {
          RetiringKeepsJournal(start, keys, barrier, i);
          return Stopped;
        }
        RetiredStep(start, keys, barrier, i);
        if paths[i] in files {
          removed := removed + 1;
        }
        files := files - {paths[i]};
      }
      RetiringKeepsJournal(start, keys, barrier, |keys|);
      return Done(removed);
    }
  }
}
