/** Files on disk, and what a process leaves when it dies while it writes a new file through a temporary one. */
module Storage {
  import opened Bytes
  import opened FileNames

  type Files = map<string, seq<Byte>>

  class Disk {
    var files: Files
    var leftovers: set<string>

    constructor (files: Files)
      ensures this.files == files && leftovers == {}
    {
      this.files, leftovers := files, {};
    }
  }

  // ---------- temporary files ----------

  /** How the creation of a file ends, in the order of its steps: before anything is there, while the temporary
      file is being written, after the link and before the temporary is removed, or after that. The word is
      what was drawn for the temporary's name. */
  datatype Fate =
    | Finishes
    | DiesBefore
    | DiesWriting(word: string, written: nat)
    | DiesLinked(word: string)
    | DiesAfter

  /** A draw never hits a name that exists or is reserved. */
  predicate Drawable(files: Files, path: string, reserved: set<string>, word: string) {
    var t := TemporaryPath(path, word);
    t !in files && t !in reserved && t != path
  }

  /** The temporary file that stays behind, if one does. */
  function Remnant(files: Files, path: string, reserved: set<string>, fate: Fate): (r: set<string>)
    ensures r !! files.Keys && r !! reserved && path !in r
    ensures fate.Finishes? ==> r == {}
  {
    if (fate.DiesWriting? || fate.DiesLinked?) && Drawable(files, path, reserved, fate.word) then {TemporaryPath(path, fate.word)} else {}
  }

  lemma RemnantIsBeside(files: Files, path: string, reserved: set<string>, fate: Fate, root: string)
    requires Under(root, path)
    ensures forall t :: t in Remnant(files, path, reserved, fate) ==> Under(root, t)
  {
    hide TemporaryPath, Under;
    if fate.DiesWriting? || fate.DiesLinked? {
      TemporaryIsBeside(root, path, fate.word);
    }
  }

  /** Only reserved names were taken meanwhile. */
  lemma RemnantIsSame(files: Files, more: Files, path: string, reserved: set<string>, fate: Fate)
    requires files.Keys <= more.Keys <= files.Keys + reserved
    ensures Remnant(more, path, reserved, fate) == Remnant(files, path, reserved, fate)
  {
    hide TemporaryPath;
  }

  /** Whether the file itself is there afterwards. */
  predicate Places(files: Files, path: string, reserved: set<string>, fate: Fate) {
    fate.Finishes? || fate.DiesAfter? || (fate.DiesLinked? && Drawable(files, path, reserved, fate.word))
  }

  /** The disk has grown by temporaries alone. */
  ghost predicate Strays(before: Files, after: Files, strays: set<string>) {
    after.Keys == before.Keys + strays && strays !! before.Keys && forall p :: p in before ==> after[p] == before[p]
  }

  /** Written through a temporary file, a new file is there whole or not at all, and beside it at most that
      temporary. */
  ghost predicate Through(before: Files, after: Files, path: string, output: seq<Byte>, reserved: set<string>, fate: Fate) {
    Strays(if Places(before, path, reserved, fate) then before[path := output] else before, after, Remnant(before, path, reserved, fate))
  }

  /** Create, write and sync a temporary file, link it, and remove it. */
  method WriteThrough(disk: Disk, path: string, output: seq<Byte>, reserved: set<string>, fate: Fate) returns (dies: bool)
    requires path !in disk.files
    modifies disk
    ensures Through(old(disk.files), disk.files, path, output, reserved, fate) && (dies <==> !fate.Finishes?)
    ensures disk.leftovers == old(disk.leftovers) + Remnant(old(disk.files), path, reserved, fate)
    ensures !dies ==> disk.files == old(disk.files)[path := output]
  {
    hide TemporaryPath;
    if fate.Finishes? || fate.DiesAfter? {
      disk.files := disk.files[path := output]; // the temporary has come and gone
      return fate.DiesAfter?;
    }
    if fate.DiesBefore? || !Drawable(disk.files, path, reserved, fate.word) {
      return true;
    }
    var temporary := TemporaryPath(path, fate.word);
    disk.files, disk.leftovers := disk.files[temporary := []], disk.leftovers + {temporary};
    if fate.DiesWriting? {
      disk.files := disk.files[temporary := output[..if fate.written < |output| then fate.written else |output|]];
      return true;
    }
    disk.files := disk.files[temporary := output];
    disk.files := disk.files[path := output];
    return true;
  }

  // ---------- what stays ----------

  /** Nothing is removed and nothing changes. */
  ghost predicate Kept(before: Files, after: Files) {
    forall p :: p in before ==> p in after && after[p] == before[p]
  }

  /** Nothing outside the directory changes. */
  ghost predicate SameOutside(before: Files, after: Files, root: string) {
    forall q :: !Under(root, q) ==> (q in after <==> q in before) && (q in after ==> after[q] == before[q])
  }

  lemma SameAsBefore(files: Files, root: string)
    ensures SameOutside(files, files, root)
  {
  }

  lemma SameOutsideTwice(a: Files, b: Files, c: Files, root: string)
    requires SameOutside(a, b, root) && SameOutside(b, c, root)
    ensures SameOutside(a, c, root)
  {
  }
}
