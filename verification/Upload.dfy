/** Uploading the artifact to a repository that other writers share: one commit guarded by its parent, and a
    receipt only for a tree that was read back. The process may die, and responses may be lost, anywhere. */
module Upload {
  import opened Bytes
  import opened Options
  import opened Sorting

  /** A file as the repository lists it: its size and the hash of its content under its storage mode. */
  datatype Mode = Regular | Lfs

  datatype Listed = Listed(bytes: nat, mode: Mode, content: seq<Byte>)

  type Tree = map<string, Listed>

  /** The listing of a local file stored in a mode. Hashes stand for what they hash. */
  function Listing(mode: Mode, content: seq<Byte>): Listed {
    Listed(|content|, mode, content)
  }

  /** `Stopped` is the process dying or a call failing; `Raised` is the code refusing. */
  datatype Outcome = Done | Stopped | Raised

  /** Whether something fails here. Nothing does in a quiet life: no death, no lost response, no other writer, no
      edit, and the server takes every file. */
  method Fails(quiet: bool) returns (fails: bool)
    ensures quiet ==> !fails
  {
    fails := *;
    fails := fails && !quiet;
  }

  const ATTRIBUTES: string := ".gitattributes"
  const REQUIRED: set<string> := {"README.md", ATTRIBUTES, "config.json", "model.safetensors.index.json"}
  const REGULAR_LIMIT: nat := 64 * 1024 * 1024

  // ---------- the repository ----------

  /** Commits are immutable and the head only moves to new ones. `ours` are the commits this uploader made. */
  class Hub {
    var commits: map<nat, Tree>
    var head: Option<nat>
    var next: nat
    ghost var ours: set<nat>

    constructor ()
      ensures Valid() && ours == {} && head == None
    {
      commits, head, next := map[], None, 0;
      ours := {};
    }

    ghost predicate Valid()
      reads this
    {
      && (forall c :: c in commits ==> c < next) && (head.Some? ==> head.value in commits)
      && ours <= commits.Keys
    }

    /** Anybody else's writes. */
    method Others()
      requires Valid()
      modifies this
      ensures Valid() && Later(old(commits), commits, old(head), head) && ours == old(ours)
    {
      if * {
        var tree: Tree := *;
        commits, head, next := commits[next := tree], Some(next), next + 1;
      }
    }

    /** `create_repo`: refused when the repository exists. */
    method Create() returns (ok: bool)
      requires Valid()
      modifies this
      ensures Valid() && Later(old(commits), commits, old(head), head) && ours == old(ours)
      ensures ok <==> old(head).None?
      ensures ok ==> head.Some? && commits[head.value].Keys == {ATTRIBUTES}
    {
      if head.Some? {
        return false;
      }
      var attributes: Listed := *;
      commits, head, next := commits[next := map[ATTRIBUTES := attributes]], Some(next), next + 1;
      ok := true;
    }

    /** `create_commit`: compare and swap on the parent. */
    method Commit(parent: nat, files: Tree) returns (commit: Option<nat>)
      requires Valid() && parent in commits
      modifies this
      ensures Valid() && Later(old(commits), commits, old(head), head)
      ensures commit.Some? <==> old(head) == Some(parent)
      ensures commit.None? ==> ours == old(ours) && commits == old(commits) && head == old(head)
      ensures commit.Some? ==> commit.value !in old(commits) && head == commit && ours == old(ours) + {commit.value}
      ensures commit.Some? ==> commit.value in commits && commits[commit.value] == old(commits[parent]) + files
    {
      if head != Some(parent) {
        return None;
      }
      commit := Some(next);
      commits := commits[next := commits[parent] + files];
      ours := ours + {next};
      head, next := commit, next + 1;
    }
  }

  /** History grows, and the head stays or becomes a commit that was not there. */
  ghost predicate Later(before: map<nat, Tree>, after: map<nat, Tree>, head: Option<nat>, now: Option<nat>) {
    && (forall c :: c in before ==> c in after && after[c] == before[c])
    && (now == head || (now.Some? && now.value !in before))
  }

  // ---------- the local files ----------

  /** A file's content and its stamp; fingerprints compare both, and an edit always brings a new stamp. */
  datatype File = File(content: seq<Byte>, stamp: nat)

  /** After some edits: every file is as before or has a stamp from after `clock`. */
  ghost predicate Edited(before: map<string, File>, after: map<string, File>, clock: nat) {
    forall n :: n in after ==> (n in before && after[n] == before[n]) || after[n].stamp >= clock
  }

  ghost predicate Stamped(files: map<string, File>, clock: nat) {
    forall n :: n in files ==> files[n].stamp < clock
  }

  /** A file that matches its old fingerprint was never edited in between. */
  lemma Unedited(frozen: map<string, File>, middle: map<string, File>, after: map<string, File>, clock: nat, later: nat, n: string)
    requires Stamped(frozen, clock) && clock <= later && Edited(middle, after, later) && n in frozen
    requires n in after && after[n] == frozen[n]
    ensures n in middle && middle[n] == frozen[n]
  {
  }

  // ---------- what is prepared ----------

  datatype Prepared = Prepared(name: string, local: File, listed: Listed)

  /** A record lists the very content it was made from. */
  predicate Genuine(p: Prepared) {
    p.listed == Listing(p.listed.mode, p.local.content)
  }

  function Expected(files: map<string, Prepared>): Tree {
    map n | n in files :: files[n].listed
  }

  /** The tree holds exactly these files, each with its content. */
  ghost predicate IsTreeOf(tree: Tree, files: map<string, File>) {
    tree.Keys == files.Keys && forall n :: n in files ==> tree[n].content == files[n].content && tree[n].bytes == |files[n].content|
  }

  /** The parent's files, and over them each of these with its content, stored as it was prepared. */
  ghost function Overlaid(parent: Tree, files: map<string, File>, prepared: map<string, Prepared>): Tree
    requires prepared.Keys == files.Keys
  {
    parent + map n | n in files :: Listed(|files[n].content|, prepared[n].listed.mode, files[n].content)
  }

  datatype Receipt = Receipt(commit: nat, files: map<string, Prepared>)

  /** The receipt's commit holds exactly the planned files, each with its planned content. */
  ghost predicate Published(commits: map<nat, Tree>, plan: map<string, File>, receipt: Receipt) {
    && receipt.commit in commits && receipt.files.Keys == plan.Keys
    && (forall n :: n in plan ==> receipt.files[n].local == plan[n] && Genuine(receipt.files[n]))
    && commits[receipt.commit] == Expected(receipt.files)
  }

  lemma Publishes(commits: map<nat, Tree>, files: map<string, File>, commit: nat, prepared: map<string, Prepared>)
    requires AllPrepared(files, prepared) && commit in commits && commits[commit] == Expected(prepared)
    ensures Published(commits, files, Receipt(commit, prepared))
  {
  }

  /** The first `i` names are prepared. */
  ghost predicate PreparedUpTo(files: map<string, File>, names: seq<string>, i: nat, prepared: map<string, Prepared>)
    requires i <= |names|
  {
    && (forall k :: 0 <= k < |names| ==> names[k] in files) && (forall k :: 0 <= k < i ==> names[k] in prepared)
    && forall n :: n in prepared ==> n in files && prepared[n].local == files[n] && Genuine(prepared[n])
  }

  lemma NothingPreparedYet(files: map<string, File>, names: seq<string>)
    requires forall n :: n in names <==> n in files.Keys
    ensures PreparedUpTo(files, names, 0, map[])
  {
  }

  lemma OneMorePrepared(files: map<string, File>, names: seq<string>, i: nat, prepared: map<string, Prepared>, p: Prepared)
    requires i < |names| && PreparedUpTo(files, names, i, prepared) && names[i] in files && p.local == files[names[i]] && Genuine(p)
    ensures PreparedUpTo(files, names, i + 1, prepared[names[i] := p])
  {
    hide Genuine;
  }

  lemma EverythingPrepared(files: map<string, File>, names: seq<string>, prepared: map<string, Prepared>)
    requires (forall n :: n in names <==> n in files.Keys) && PreparedUpTo(files, names, |names|, prepared)
    ensures AllPrepared(files, prepared)
  {
    hide Genuine;
    forall n ensures n in prepared <==> n in files {
      if n in files {
        var k :| 0 <= k < |names| && names[k] == n;
      }
    }
  }

  ghost predicate AllPrepared(files: map<string, File>, prepared: map<string, Prepared>) {
    prepared.Keys == files.Keys && forall n :: n in files ==> prepared[n].local == files[n] && Genuine(prepared[n])
  }

  lemma ExpectedIsTree(files: map<string, File>, prepared: map<string, Prepared>)
    requires AllPrepared(files, prepared)
    ensures IsTreeOf(Expected(prepared), files)
  {
  }

  /** Over a parent that holds no more than the attributes, a complete artifact is the whole tree. */
  lemma OverlaidIsTree(parent: Tree, files: map<string, File>, prepared: map<string, Prepared>)
    requires AllPrepared(files, prepared) && parent.Keys <= {ATTRIBUTES} && REQUIRED <= files.Keys
    ensures Overlaid(parent, files, prepared) == Expected(prepared) && IsTreeOf(Overlaid(parent, files, prepared), files)
  {
    var tree := Overlaid(parent, files, prepared);
    assert ATTRIBUTES in REQUIRED;
    assert tree.Keys == files.Keys;
    forall n | n in files ensures tree[n] == prepared[n].listed {
    }
  }

  class Uploader {
    const hub: Hub
    var local: map<string, File>
    var clock: nat

    var plan: Option<map<string, File>>
    var parent: Option<nat>
    var records: map<nat, Prepared>
    var receipt: Option<Receipt>

    constructor (hub: Hub, local: map<string, File>, clock: nat)
      requires hub.Valid() && hub.ours == {} && Stamped(local, clock)
      ensures Sound() && this.hub == hub && plan == None && receipt == None
    {
      this.hub, this.local, this.clock := hub, local, clock;
      plan, parent, records, receipt := None, None, map[], None;
    }

    /** At most one commit is ours, it is not the parent, and once it exists the head has left the parent. */
    ghost predicate OneCommit()
      reads this`parent, hub
    {
      && (parent.Some? ==> parent.value in hub.commits && hub.commits[parent.value].Keys <= {ATTRIBUTES})
      && (hub.ours != {} ==> parent.Some? && hub.head != parent)
      && (forall c, d :: c in hub.ours && d in hub.ours ==> c == d)
    }

    ghost predicate Sound()
      reads this, hub
    {
      && hub.Valid() && OneCommit() && Stamped(local, clock)
      && (forall i :: i in records ==> Genuine(records[i]))
      && (plan.Some? ==> Stamped(plan.value, clock))
      && (receipt.Some? ==> plan.Some? && Published(hub.commits, plan.value, receipt.value))
    }

    /** Other writers, and edits to the local files, between any two steps. */
    method Interfere(quiet: bool)
      requires Sound()
      modifies hub, this`local, this`clock
      ensures Sound() && Edited(old(local), local, old(clock)) && old(clock) <= clock
      ensures hub.ours == old(hub.ours) && Later(old(hub.commits), hub.commits, old(hub.head), hub.head)
      ensures quiet ==> local == old(local) && hub.commits == old(hub.commits) && hub.head == old(hub.head)
    {
      if quiet {
        return;
      }
      hub.Others();
      if * {
        var name: string, content: seq<Byte> := *, *;
        local, clock := local[name := File(content, clock)], clock + 1;
      } else if * {
        var name: string := *;
        local := local - {name};
      }
    }

    /** The parent every attempt commits on: an empty repository's head, recorded once. */
    method Base(quiet: bool) returns (o: Outcome)
      requires Sound() && parent.None?
      modifies hub, this`local, this`clock, this`parent
      ensures Sound() && (o.Done? ==> parent.Some?) && hub.ours == old(hub.ours)
      ensures quiet ==> local == old(local)
      ensures quiet && (old(hub.head).None? || old(hub.commits[hub.head.value].Keys) <= {ATTRIBUTES}) ==> o.Done? && hub.head == parent
    {
      if hub.head.None? {
        var ok := hub.Create();
        if !ok {
          return Stopped;
        }
      }
      Interfere(quiet);
      if hub.head.None? {
        return Stopped;
      }
      var found := hub.head.value;
      if hub.commits[found].Keys - {ATTRIBUTES} != {} {
        return Raised;
      }
      Interfere(quiet);
      var fails := Fails(quiet);
      if fails {
        return Stopped;
      }
      parent := Some(found);
      return Done;
    }

    /** One file's preparation, reused when a record of this very file exists. */
    method Prepare(ordinal: nat, name: string, files: map<string, File>, quiet: bool) returns (o: Outcome, prepared: Option<Prepared>)
      requires Sound() && plan == Some(files) && name in files
      modifies hub, this`local, this`clock, this`records
      ensures Sound() && hub.ours == old(hub.ours)
      ensures o.Done? ==> prepared.Some? && Genuine(prepared.value) && prepared.value.name == name && prepared.value.local == files[name]
      ensures records.Keys <= old(records.Keys) + {ordinal}
      ensures o.Done? && ordinal !in old(records) && prepared.value.listed.mode == Regular ==> |files[name].content| <= 67108864
      ensures quiet ==> local == old(local) && hub.commits == old(hub.commits) && hub.head == old(hub.head)
      ensures quiet && local == files && ordinal !in old(records) ==> o.Done?
    {
      if name !in local || local[name] != files[name] {
        return Raised, None;
      }
      if ordinal in records {
        if records[ordinal].name != name || records[ordinal].local != files[name] {
          return Raised, None;
        }
        return Done, Some(records[ordinal]);
      }
      Interfere(quiet);
      if name !in local {
        return Stopped, None;
      }
      var mode: Mode := *;
      var ignored := Fails(quiet);
      if ignored {
        return Raised, None; // the server ignores the file
      }
      if quiet && |files[name].content| > REGULAR_LIMIT {
        mode := Lfs;
      }
      if mode == Regular && |files[name].content| > REGULAR_LIMIT {
        return Raised, None;
      }
      var listed := Listing(mode, local[name].content);
      ghost var middle, later := local, clock;
      Interfere(quiet);
      if name !in local || local[name] != files[name] {
        return Raised, None;
      }
      Unedited(files, middle, local, later, later, name);
      var fails := Fails(quiet);
      if fails {
        return Stopped, None;
      }
      var record := Prepared(name, files[name], listed);
      records := records[ordinal := record];
      return Done, Some(record);
    }

    /** The preparation loop, in name order. */
    method PrepareAll(files: map<string, File>, quiet: bool) returns (o: Outcome, prepared: map<string, Prepared>)
      requires Sound() && plan == Some(files)
      modifies hub, this`local, this`clock, this`records
      ensures Sound() && hub.ours == old(hub.ours)
      ensures o.Done? ==> AllPrepared(files, prepared)
      ensures quiet ==> local == old(local) && hub.commits == old(hub.commits) && hub.head == old(hub.head)
      ensures quiet && local == files && old(records) == map[] ==> o.Done?
    {
      hide Genuine, Stamped, Published, Later, Edited, Uploader.OneCommit, PreparedUpTo, AllPrepared;
      prepared := map[];
      var names := NamesInOrder(files.Keys);
      NothingPreparedYet(files, names);
      var i := 0;
      while i < |names|
        invariant 0 <= i <= |names| && Sound() && plan == Some(files) && hub.ours == old(hub.ours)
        invariant quiet ==> local == old(local) && hub.commits == old(hub.commits) && hub.head == old(hub.head)
        invariant old(records) == map[] ==> forall k :: k in records ==> k < i
        invariant PreparedUpTo(files, names, i, prepared)
      {
        var outcome, record := Prepare(i, names[i], files, quiet);
        if !outcome.Done? {
          return outcome, prepared;
        }
        OneMorePrepared(files, names, i, prepared, record.value);
        prepared := prepared[names[i] := record.value];
        i := i + 1;
      }
      EverythingPrepared(files, names, prepared);
      return Done, prepared;
    }

    predicate Unchanged(files: map<string, File>)
      reads this
    {
      forall n :: n in files ==> n in local && local[n] == files[n]
    }

    /** What the commit call sends: hashes for large files, and the bytes now on disk for small ones. */
    function Operations(prepared: map<string, Prepared>): Tree
      requires forall n :: n in prepared ==> n in local
      reads this
    {
      map n | n in prepared :: if prepared[n].listed.mode == Lfs then prepared[n].listed else Listing(Regular, local[n].content)
    }

    /** Adopt a commit that already holds the files, or make the one commit. */
    method CommitOnce(files: map<string, File>, prepared: map<string, Prepared>, quiet: bool) returns (o: Outcome, commit: nat)
      requires Sound() && plan == Some(files) && parent.Some? && AllPrepared(files, prepared)
      modifies hub, this`local, this`clock
      ensures Sound() && (o.Done? ==> commit in hub.commits)
      ensures o.Done? && hub.ours == old(hub.ours) ==> hub.commits[commit] == Expected(prepared)
      ensures hub.ours == old(hub.ours) || (old(hub.ours) == {} && |hub.ours| == 1 && (o.Done? ==> commit in hub.ours))
      ensures Unchanged(files) ==> forall c :: c in hub.ours && c !in old(hub.ours) ==>
        c in hub.commits && hub.commits[c] == Overlaid(hub.commits[parent.value], files, prepared)
      ensures quiet ==> local == old(local)
      ensures quiet && old(hub.head) == parent && Unchanged(files) ==> o.Done? && commit in hub.ours && commit !in old(hub.ours) && hub.head == Some(commit)
    {
      hide Genuine, Stamped, Published, Edited, Later, Expected, Overlaid, Uploader.OneCommit;
      Interfere(quiet);
      commit := 0;
      if hub.head.None? {
        return Stopped, commit;
      }
      if hub.head != parent {
        if hub.commits[hub.head.value] != Expected(prepared) {
          return Raised, commit;
        }
        return Done, hub.head.value;
      }
      if !Unchanged(files) {
        return Raised, commit;
      }
      Interfere(quiet);
      if exists n :: n in prepared && n !in local {
        return Stopped, commit;
      }
      ParentIsCovered();
      var made := Make(Operations(prepared));
      if Unchanged(files) {
        OperationsAreFiles(files, prepared);
      }
      if made.None? {
        return Stopped, commit;
      }
      var lost := Fails(quiet);
      if lost {
        return Stopped, commit; // the response is lost
      }
      return Done, made.value;
    }

    /** `create_commit` on the recorded parent. */
    method Make(operations: Tree) returns (made: Option<nat>)
      requires Sound() && parent.Some?
      modifies hub
      ensures Sound() && parent.value in hub.commits
      ensures made.None? ==> hub.ours == old(hub.ours) && hub.head == old(hub.head)
      ensures made.Some? <==> old(hub.head) == parent
      ensures made.Some? ==> old(hub.ours) == {} && hub.ours == {made.value} && hub.head == made && made.value in hub.commits
      ensures made.Some? ==> hub.commits[made.value] == hub.commits[parent.value] + operations
    {
      hide Genuine, Stamped;
      made := hub.Commit(parent.value, operations);
    }

    /** While the files are as they were planned, the operations carry exactly them. */
    lemma OperationsAreFiles(files: map<string, File>, prepared: map<string, Prepared>)
      requires AllPrepared(files, prepared) && Unchanged(files)
      ensures forall tree: Tree :: tree + Operations(prepared) == Overlaid(tree, files, prepared)
    {
      forall n | n in files ensures Operations(prepared)[n] == Listed(|files[n].content|, prepared[n].listed.mode, files[n].content) {
      }
      assert Operations(prepared) == map n | n in files :: Listed(|files[n].content|, prepared[n].listed.mode, files[n].content);
    }

    /** The plan step: freeze the fingerprints, or resume exactly these. */
    method Freeze(resume: bool, quiet: bool) returns (o: Outcome, files: map<string, File>)
      requires Sound()
      modifies hub, this`local, this`clock, this`plan
      ensures Sound() && hub.ours == old(hub.ours) && (o.Done? ==> plan == Some(files))
      ensures old(plan).Some? ==> plan == old(plan)
      ensures o.Done? ==> REQUIRED <= files.Keys
      ensures quiet ==> local == old(local) && hub.commits == old(hub.commits) && hub.head == old(hub.head)
      ensures quiet && old(plan).None? && REQUIRED <= local.Keys ==> o.Done? && files == local
    {
      hide Genuine, Published, Later, Edited, Expected, Uploader.OneCommit;
      Interfere(quiet);
      files := local;
      if !(REQUIRED <= files.Keys) || (plan.Some? && (!resume || plan.value != files)) {
        return Raised, files;
      }
      if plan.None? {
        var fails := Fails(quiet);
        if fails {
          return Stopped, files;
        }
        plan := Some(files);
      }
      return Done, files;
    }

    /** A receipt from before is read back against the repository. */
    method Confirm(files: map<string, File>) returns (o: Outcome)
      requires Sound() && receipt.Some?
      ensures o.Done? || o.Raised?
      ensures o.Done? <==>
        && receipt.value.files.Keys == files.Keys && (forall n :: n in files ==> receipt.value.files[n].local == files[n])
        && receipt.value.commit in hub.commits && hub.commits[receipt.value.commit].Keys == files.Keys
        && forall n :: n in files ==> hub.commits[receipt.value.commit][n] == receipt.value.files[n].listed
    {
      var r := receipt.value;
      if r.files.Keys != files.Keys || (exists n :: n in files && r.files[n].local != files[n])
         || r.commit !in hub.commits || hub.commits[r.commit] != Expected(r.files) {
        return Raised;
      }
      return Done;
    }

    /** The commit is read back, and only then the receipt is made durable. */
    method Acknowledge(files: map<string, File>, prepared: map<string, Prepared>, commit: nat, quiet: bool) returns (o: Outcome)
      requires Sound() && receipt.None? && plan == Some(files) && AllPrepared(files, prepared) && commit in hub.commits
      modifies hub, this`local, this`clock, this`receipt
      ensures Sound() && hub.ours == old(hub.ours) && (o.Done? ==> receipt.Some?)
      ensures Later(old(hub.commits), hub.commits, old(hub.head), hub.head)
      ensures Unchanged(files) ==> old(Unchanged(files))
      ensures o.Done? ==> receipt == Some(Receipt(commit, prepared)) && IsTreeOf(hub.commits[commit], files)
      ensures quiet && old(hub.commits[commit]) == Expected(prepared) && old(Unchanged(files)) ==> o.Done?
    {
      hide Genuine, Published, Expected, Uploader.OneCommit, AllPrepared, IsTreeOf;
      ghost var middle, later := local, clock;
      Interfere(quiet);
      forall n | n in files && Unchanged(files) ensures n in middle && middle[n] == files[n] {
        Unedited(files, middle, local, later, later, n);
      }
      if hub.commits[commit] != Expected(prepared) || !Unchanged(files) {
        return Raised;
      }
      Publishes(hub.commits, files, commit, prepared);
      ExpectedIsTree(files, prepared);
      var fails := Fails(quiet);
      if fails {
        return Stopped;
      }
      receipt := Some(Receipt(commit, prepared));
      return Done;
    }

    /** `upload_artifact`. In a quiet life, a first upload to a repository that is empty but for its attributes ends
        with a receipt. */
    method Upload(resume: bool, quiet: bool) returns (o: Outcome)
      requires Sound()
      modifies this, hub
      ensures Sound() && (o.Done? ==> receipt.Some?)
      ensures old(receipt).Some? ==> receipt == old(receipt)
      ensures old(plan).Some? ==> plan == old(plan)
      ensures old(hub.ours) != {} ==> hub.ours == old(hub.ours)
      ensures o.Done? && old(receipt).None? ==> IsTreeOf(hub.commits[receipt.value.commit], plan.value)
      ensures o.Done? && old(receipt).None? ==>
        {"README.md", ".gitattributes", "config.json", "model.safetensors.index.json"} <= plan.value.Keys
      ensures plan.Some? && Unchanged(plan.value) ==> forall c :: c in hub.ours && c !in old(hub.ours) ==>
        c in hub.commits && IsTreeOf(hub.commits[c], plan.value)
      ensures quiet && old(Fresh()) ==> o.Done? && plan == Some(old(local)) && receipt.value.commit in hub.ours
    {
      hide Genuine, Stamped, Published, Edited, Expected, Uploader.OneCommit, AllPrepared, IsTreeOf, Overlaid;
      var files: map<string, File>;
      o, files := Freeze(resume, quiet);
      if !o.Done? {
        return;
      }
      if receipt.Some? {
        o := Confirm(files);
        return;
      }
      if parent.None? {
        o := Base(quiet);
        if !o.Done? {
          return;
        }
      }
      var prepared: map<string, Prepared>;
      o, prepared := PrepareAll(files, quiet);
      if !o.Done? {
        return;
      }
      var commit: nat;
      o, commit := CommitOnce(files, prepared, quiet);
      ParentIsCovered();
      OverlaidIsTree(hub.commits[parent.value], files, prepared);
      if !o.Done? {
        return;
      }
      o := Acknowledge(files, prepared, commit, quiet);
    }

    /** A first upload: a complete artifact, and a repository that is missing or holds no more than attributes. */
    ghost predicate Fresh()
      reads this, hub
    {
      && plan.None? && parent.None? && receipt.None? && records == map[] && REQUIRED <= local.Keys
      && (hub.head.None? || (hub.head.value in hub.commits && hub.commits[hub.head.value].Keys <= {ATTRIBUTES}))
    }

    lemma ParentIsCovered()
      requires Sound() && parent.Some?
      ensures parent.value in hub.commits && hub.commits[parent.value].Keys <= {ATTRIBUTES}
    {
    }
  }
}
