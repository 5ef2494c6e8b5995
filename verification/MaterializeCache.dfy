/** Publishing an uploaded artifact into the shared cache: blobs are hard links to the local files, the
    snapshot links names to blobs, and the reference is moved last. */
module MaterializeCache {
  import opened Options
  import opened Sorting

  /** What the receipt acknowledges of a file: its blob, and the local inode it was read from. */
  datatype Acknowledged = Acknowledged(blob: string, inode: nat)

  /** A snapshot entry: a symbolic link to a blob, or something else that somebody put there. */
  datatype Entry = Link(blob: string) | Other

  /** The directories of one cached repository: blobs by inode, the snapshot of each commit, and `refs/main`. */
  datatype Store = Store(blobs: map<string, nat>, snapshots: map<string, map<string, Entry>>, main: Option<string>)

  /** `Stopped` is the process dying; `Raised` is the code refusing. */
  datatype Outcome = Done | Stopped | Raised

  function Snapshot(s: Store, commit: string): map<string, Entry> {
    if commit in s.snapshots then s.snapshots[commit] else map[]
  }

  /** The blob is a hard link to a local file acknowledged for it. */
  ghost predicate IsAcknowledged(files: map<string, Acknowledged>, blob: string, inode: nat) {
    exists n :: n in files && files[n].blob == blob && files[n].inode == inode
  }

  /** Every acknowledged file is reachable through the snapshot, and nothing else is in it. */
  ghost predicate Complete(s: Store, commit: string, files: map<string, Acknowledged>) {
    && Snapshot(s, commit).Keys == files.Keys
    && forall n :: n in files ==> Present(s, commit, files, n)
  }

  ghost predicate Present(s: Store, commit: string, files: map<string, Acknowledged>, n: string)
    requires n in files
  {
    && n in Snapshot(s, commit) && Snapshot(s, commit)[n] == Link(files[n].blob)
    && files[n].blob in s.blobs && IsAcknowledged(files, files[n].blob, s.blobs[files[n].blob])
  }

  /** A state in which no entry contradicts the receipt: what an interrupted run leaves, and where a run
      can go on from. */
  ghost predicate Compatible(s: Store, commit: string, files: map<string, Acknowledged>) {
    && Snapshot(s, commit).Keys <= files.Keys
    && (forall n :: n in Snapshot(s, commit) ==> Snapshot(s, commit)[n] == Link(files[n].blob))
    && (forall n :: n in files && files[n].blob in s.blobs ==> IsAcknowledged(files, files[n].blob, s.blobs[files[n].blob]))
  }

  // ---------- the uninterrupted result ----------

  /** One file: link the blob unless it is there, then the snapshot entry. */
  function Linked(s: Store, commit: string, files: map<string, Acknowledged>, n: string): Store
    requires n in files
  {
    var file := files[n];
    Store(if file.blob in s.blobs then s.blobs else s.blobs[file.blob := file.inode],
      s.snapshots[commit := Snapshot(s, commit)[n := Link(file.blob)]], s.main)
  }

  function AllLinked(s: Store, commit: string, files: map<string, Acknowledged>, names: seq<string>): Store
    requires forall n :: n in names ==> n in files
  {
    if names == [] then s else Linked(AllLinked(s, commit, files, names[..|names| - 1]), commit, files, names[|names| - 1])
  }

  /** Blobs stay, and other snapshots are not touched. */
  ghost predicate Spared(s: Store, t: Store, commit: string) {
    && (forall b :: b in s.blobs ==> b in t.blobs && t.blobs[b] == s.blobs[b])
    && (forall c :: c != commit ==> (c in t.snapshots <==> c in s.snapshots) && Snapshot(t, c) == Snapshot(s, c))
  }

  /** The snapshot's own entries stay, and say what they said. */
  ghost predicate EntriesStay(s: Store, t: Store, commit: string) {
    forall n :: n in Snapshot(s, commit) ==> n in Snapshot(t, commit) && Snapshot(t, commit)[n] == Snapshot(s, commit)[n]
  }

  /** Nothing that exists is replaced. */
  ghost predicate Kept(s: Store, t: Store, commit: string) {
    Spared(s, t, commit) && EntriesStay(s, t, commit)
  }

  /** The reference never advertises a part of a commit. */
  ghost predicate Published(s: Store, commit: string, files: map<string, Acknowledged>) {
    s.main == Some(commit) ==> Complete(s, commit, files)
  }

  /** What was complete stays complete: the commit at hand, and every other. */
  lemma CompleteStays(s: Store, t: Store, commit: string, c: string, files: map<string, Acknowledged>)
    requires Kept(s, t, commit) && Complete(s, c, files) && Snapshot(t, c).Keys <= files.Keys
    ensures Complete(t, c, files)
  {
    forall n | n in files ensures Present(t, c, files, n) {
      assert Present(s, c, files, n);
    }
    assert forall n :: n in files ==> n in Snapshot(t, c);
  }

  lemma {:induction false} LinkingKeeps(s: Store, commit: string, files: map<string, Acknowledged>, names: seq<string>)
    requires forall n :: n in names ==> n in files
    ensures Spared(s, AllLinked(s, commit, files, names), commit) && AllLinked(s, commit, files, names).main == s.main
  {
    if names != [] {
      LinkingKeeps(s, commit, files, names[..|names| - 1]);
    }
  }

  /** From a compatible store, linking stays compatible and makes every file present. */
  lemma {:induction false} LinkingAdds(s: Store, commit: string, files: map<string, Acknowledged>, names: seq<string>)
    requires (forall n :: n in names ==> n in files) && Compatible(s, commit, files)
    ensures var t := AllLinked(s, commit, files, names);
      Compatible(t, commit, files) && forall n :: n in names ==> Present(t, commit, files, n)
  {
    if names != [] {
      var rest, last := names[..|names| - 1], names[|names| - 1];
      assert names == rest + [last];
      LinkingAdds(s, commit, files, rest);
      OneAdds(AllLinked(s, commit, files, rest), commit, files, last);
    }
  }

  lemma OneAdds(s: Store, commit: string, files: map<string, Acknowledged>, n: string)
    requires n in files && Compatible(s, commit, files)
    ensures var t := Linked(s, commit, files, n);
      && Compatible(t, commit, files) && Present(t, commit, files, n)
      && (forall m :: m in files && Present(s, commit, files, m) ==> Present(t, commit, files, m))
  {
    var t := Linked(s, commit, files, n);
    forall m | m in files && files[m].blob in t.blobs ensures IsAcknowledged(files, files[m].blob, t.blobs[files[m].blob]) {
      if files[m].blob !in s.blobs {
        assert files[n].blob == files[m].blob;
      }
    }
  }

  /** Linking a file that is present changes nothing. */
  lemma PresentIsLinked(s: Store, commit: string, files: map<string, Acknowledged>, n: string)
    requires n in files && Present(s, commit, files, n) && commit in s.snapshots
    ensures Linked(s, commit, files, n) == s
  {
    assert Snapshot(s, commit)[n := Link(files[n].blob)] == Snapshot(s, commit);
    assert s.snapshots[commit := s.snapshots[commit]] == s.snapshots;
  }

  lemma PresentInSnapshots(s: Store, commit: string, files: map<string, Acknowledged>, n: string)
    requires n in files && Present(s, commit, files, n)
    ensures commit in s.snapshots
  {
  }

  lemma {:induction false} PresentStays(s: Store, commit: string, files: map<string, Acknowledged>, names: seq<string>)
    requires forall n :: n in names ==> n in files && Present(s, commit, files, n)
    ensures AllLinked(s, commit, files, names) == s
  {
    hide Present, Linked;
    if names != [] {
      assert names[|names| - 1] in names;
      PresentStays(s, commit, files, names[..|names| - 1]);
      PresentInSnapshots(s, commit, files, names[|names| - 1]);
      PresentIsLinked(s, commit, files, names[|names| - 1]);
    }
  }

  /** Two stores that agree once the first `k` files are linked agree at the end. */
  lemma {:induction false} AgreeFrom(s: Store, t: Store, commit: string, files: map<string, Acknowledged>, names: seq<string>, k: nat)
    requires (forall n :: n in names ==> n in files) && k <= |names|
    requires AllLinked(s, commit, files, names[..k]) == AllLinked(t, commit, files, names[..k])
    ensures AllLinked(s, commit, files, names) == AllLinked(t, commit, files, names)
    decreases |names|
  {
    hide Linked;
    if k < |names| {
      assert names[..|names| - 1][..k] == names[..k];
      AgreeFrom(s, t, commit, files, names[..|names| - 1], k);
    } else {
      assert names[..k] == names;
    }
  }

  /** Where a run cut short leaves the store: some files linked, and perhaps the next one's blob. */
  ghost predicate PartlyLinked(s: Store, t: Store, commit: string, files: map<string, Acknowledged>, names: seq<string>, k: nat)
    requires k <= |names| && forall n :: n in names ==> n in files
  {
    var done := AllLinked(s, commit, files, names[..k]);
    t == done || (k < |names| && t == done.(blobs := Linked(done, commit, files, names[k]).blobs))
  }

  /** A resumed run reaches what the uninterrupted one reaches, from wherever the first was cut short. */
  lemma LinkingResumes(s: Store, t: Store, commit: string, files: map<string, Acknowledged>, names: seq<string>, k: nat)
    requires (forall n :: n in names ==> n in files) && Compatible(s, commit, files)
    requires k <= |names| && PartlyLinked(s, t, commit, files, names, k)
    ensures AllLinked(t, commit, files, names) == AllLinked(s, commit, files, names)
    ensures Compatible(t, commit, files)
  {
    var done := AllLinked(s, commit, files, names[..k]);
    LinkingAdds(s, commit, files, names[..k]);
    if t == done {
      PresentStays(t, commit, files, names[..k]);
      AgreeFrom(s, t, commit, files, names, k);
    } else {
      assert names[k] in names;
      HalfLinked(done, t, commit, files, names[..k], names[k]);
      PresentStays(t, commit, files, names[..k]);
      assert names[..k + 1][..k] == names[..k];
      AgreeFrom(s, t, commit, files, names, k + 1);
    }
  }

  lemma HalfLinked(s: Store, t: Store, commit: string, files: map<string, Acknowledged>, names: seq<string>, n: string)
    requires Compatible(s, commit, files) && n in files && t == s.(blobs := Linked(s, commit, files, n).blobs)
    requires forall m :: m in names ==> m in files && Present(s, commit, files, m)
    ensures Compatible(t, commit, files) && Linked(t, commit, files, n) == Linked(s, commit, files, n)
    ensures forall m :: m in names ==> Present(t, commit, files, m)
  {
    OneAdds(s, commit, files, n);
  }

  // ---------- the run ----------

  /** `sorted(files)` */
  ghost predicate IsListing(names: seq<string>, files: map<string, Acknowledged>) {
    Sorted(names, NameLe) && Unique(names) && forall n :: n in names <==> n in files
  }

  predicate RefersElsewhere(main: Option<string>, commit: string, previous: Option<string>) {
    main != Some(commit) && main != previous
  }

  lemma NothingLinked(s: Store, commit: string, files: map<string, Acknowledged>, names: seq<string>)
    requires forall n :: n in names ==> n in files
    ensures PartlyLinked(s, s, commit, files, names, 0) && Kept(s, s, commit)
  {
  }

  lemma PartlyKeeps(s: Store, t: Store, commit: string, files: map<string, Acknowledged>, names: seq<string>, k: nat)
    requires k <= |names| && (forall n :: n in names ==> n in files) && PartlyLinked(s, t, commit, files, names, k)
    ensures Spared(s, t, commit) && t.main == s.main
  {
    LinkingKeeps(s, commit, files, names[..k]);
  }

  lemma ExtraIsIncompatible(s: Store, commit: string, files: map<string, Acknowledged>)
    requires !(Snapshot(s, commit).Keys <= files.Keys)
    ensures !Compatible(s, commit, files)
  {
  }

  lemma LinkedKeepsPresent(s: Store, commit: string, files: map<string, Acknowledged>, n: string, names: seq<string>)
    requires n in files && (forall m :: m in names ==> m in files && Present(s, commit, files, m))
    requires Snapshot(s, commit).Keys <= files.Keys
    ensures forall m :: m in names ==> Present(Linked(s, commit, files, n), commit, files, m)
    ensures Snapshot(Linked(s, commit, files, n), commit).Keys <= files.Keys
  {
  }

  lemma AllPresent(s: Store, commit: string, files: map<string, Acknowledged>)
    requires Snapshot(s, commit).Keys <= files.Keys && forall n :: n in files ==> Present(s, commit, files, n)
    ensures Complete(s, commit, files)
  {
    assert forall n :: n in files ==> n in Snapshot(s, commit);
  }

  lemma SameButMain(from: Store, s: Store, t: Store, commit: string, files: map<string, Acknowledged>)
    requires Complete(s, commit, files) && Kept(from, s, commit) && (t == s || t == s.(main := Some(commit)))
    ensures Complete(t, commit, files) && Kept(from, t, commit)
  {
  }

  class Cache {
    var output: map<string, nat>
    var store: Store

    constructor (output: map<string, nat>, store: Store)
      ensures this.output == output && this.store == store
    {
      this.output, this.store := output, store;
    }

    /** The receipt binds the very files of the output directory. */
    predicate Bound(files: map<string, Acknowledged>)
      reads this
    {
      files != map[] && output.Keys == files.Keys && forall n :: n in files ==> output[n] == files[n].inode
    }

    /** One file of the loop. */
    method LinkFile(commit: string, files: map<string, Acknowledged>, n: string) returns (o: Outcome)
      requires n in files && Bound(files)
      modifies this`store
      ensures o.Done? ==> store == Linked(old(store), commit, files, n) && Present(store, commit, files, n)
      ensures !o.Done? ==> store in {old(store), old(store).(blobs := Linked(old(store), commit, files, n).blobs)}
      ensures o.Raised? ==> !Compatible(old(store), commit, files)
      ensures EntriesStay(old(store), store, commit) && Snapshot(store, commit).Keys <= Snapshot(old(store), commit).Keys + {n}
    {
      var file := files[n];
      if file.blob in store.blobs {
        if !exists m :: m in files && files[m].blob == file.blob && files[m].inode == store.blobs[file.blob] {
          assert !IsAcknowledged(files, file.blob, store.blobs[file.blob]);
          return Raised;
        }
      } else {
        if * {
          return Stopped;
        }
        store := store.(blobs := store.blobs[file.blob := output[n]]);
        assert IsAcknowledged(files, file.blob, store.blobs[file.blob]);
      }
      if * {
        return Stopped;
      }
      var snapshot := Snapshot(store, commit);
      if n in snapshot {
        if snapshot[n] != Link(file.blob) {
          return Raised;
        }
        assert snapshot[n := Link(file.blob)] == snapshot;
      }
      store := store.(snapshots := store.snapshots[commit := snapshot[n := Link(file.blob)]]);
      return Done;
    }

    /** `refs/main`, moved last: created, or replaced when the previous commit is authorized. */
    method Publish(commit: string, previous: Option<string>) returns (o: Outcome)
      modifies this`store
      ensures store == old(store) || (store == old(store).(main := Some(commit)) && (old(store).main == None || old(store).main == previous))
      ensures o.Done? ==> store.main == Some(commit)
      ensures o.Raised? <==> old(store).main != Some(commit) && !(if previous.Some? then old(store).main == previous else old(store).main == None)
    {
      if store.main == Some(commit) {
        return Done;
      }
      if previous.Some? && store.main != previous {
        return Raised;
      }
      if previous.None? && store.main.Some? {
        return Raised;
      }
      if * {
        return Stopped;
      }
      store := store.(main := Some(commit));
      return Done;
    }

    /** The linking loop. */
    method LinkAll(commit: string, files: map<string, Acknowledged>, names: seq<string>) returns (o: Outcome)
      requires IsListing(names, files) && Bound(files) && Snapshot(store, commit).Keys <= files.Keys
      modifies this`store
      ensures o.Done? ==> store == AllLinked(old(store), commit, files, names) && Complete(store, commit, files)
      ensures o.Raised? ==> !Compatible(old(store), commit, files)
      ensures exists k: nat :: k <= |names| && PartlyLinked(old(store), store, commit, files, names, k)
      ensures EntriesStay(old(store), store, commit) && Snapshot(store, commit).Keys <= files.Keys
    {
      hide Compatible, Linked, Sorted, Present;
      assert names[..0] == [];
      var i := 0;
      while i < |names|
        invariant 0 <= i <= |names| && store == AllLinked(old(store), commit, files, names[..i])
        invariant EntriesStay(old(store), store, commit) && Snapshot(store, commit).Keys <= files.Keys
        invariant forall n :: n in names[..i] ==> Present(store, commit, files, n)
      {
        assert names[i] in names && names[..i + 1][..i] == names[..i];
        ghost var before := store;
        o := LinkFile(commit, files, names[i]);
        if !o.Done? {
          assert PartlyLinked(old(store), store, commit, files, names, i);
          if Compatible(old(store), commit, files) {
            LinkingAdds(old(store), commit, files, names[..i]);
          }
          return;
        }
        LinkedKeepsPresent(before, commit, files, names[i], names[..i]);
        i := i + 1;
      }
      assert names[..i] == names;
      AllPresent(store, commit, files);
      assert PartlyLinked(old(store), store, commit, files, names, |names|);
      return Done;
    }

    /** `materialize_cache`: the reference names the commit only once the snapshot is complete, also when it
        named it before; nothing that existed is replaced, and a run cut short leaves a part of what the uninterrupted run makes. */
    method Materialize(commit: string, files: map<string, Acknowledged>, names: seq<string>, previous: Option<string>) returns (o: Outcome)
      requires IsListing(names, files)
      modifies this`store
      ensures Kept(old(store), store, commit)
      ensures Published(old(store), commit, files) ==> Published(store, commit, files)
      ensures o.Done? ==> store == AllLinked(old(store), commit, files, names).(main := Some(commit)) && Complete(store, commit, files)
      ensures store.main == old(store).main || (store.main == Some(commit) && Complete(store, commit, files))
      ensures o.Raised? ==> !Bound(files) || !Compatible(old(store), commit, files) || RefersElsewhere(old(store).main, commit, previous)
      ensures store.main == old(store).main ==> exists k: nat :: k <= |names| && PartlyLinked(old(store), store, commit, files, names, k)
    {
      hide Compatible, Linked, Complete, Spared, EntriesStay, PartlyLinked, AllLinked, Sorted;
      NothingLinked(store, commit, files, names);
      if !Bound(files) || (previous.Some? && store.main != previous && store.main != Some(commit)) {
        return Raised;
      }
      if !(Snapshot(store, commit).Keys <= files.Keys) {
        ExtraIsIncompatible(store, commit, files);
        return Raised;
      }
      o := LinkAll(commit, files, names);
      ghost var k: nat :| k <= |names| && PartlyLinked(old(store), store, commit, files, names, k);
      PartlyKeeps(old(store), store, commit, files, names, k);
      if Complete(old(store), commit, files) {
        CompleteStays(old(store), store, commit, commit, files);
      }
      if !o.Done? {
        return;
      }
      ghost var linked := store;
      o := Publish(commit, previous);
      SameButMain(old(store), linked, store, commit, files);
    }
  }
}
