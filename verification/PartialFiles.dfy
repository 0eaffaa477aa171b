/** A received file is written as a partial file, then renamed into place. The agent writes its own files here. */
module PartialFiles {
  import opened Transfer

  /** How the file system treats one file: its creation, the write that fails if any, its last steps. */
  datatype Fate = Fate(opens: bool, fails: Option<nat>, commits: bool)

  /** The fate of each file in turn. */
  type Fates = nat -> Fate

  /** The most data one write carries. */
  const MAX_WRITE: nat := 4 * CHUNK_SIZE

  // ---------------------------------------------------------------- operations

  /** What the agent does with partial files, one at a time. */
  datatype Op = Open(rel: Path) | Write(data: Bytes) | Commit | Abort

  /** A file being received: its path and the data written since it was opened. */
  datatype Part = Part(rel: Path, data: Bytes, writes: nat)

  /** A path the agent opens: it stays under the folder, has no line break, and isn't a partial file's. */
  predicate GoodPath(rel: Path) {
    LocalPath(rel) && '\n' !in rel && !IsPartial(rel)
  }

  /** Operations come in order: open, any writes of no more than the limit, then commit or abort. */
  predicate Legal(part: Option<Part>, op: Op) {
    match op
    case Open(rel) => part.None? && GoodPath(rel)
    case Write(data) => part.Some? && |data| <= MAX_WRITE
    case _ => part.Some?
  }

  function NextPart(part: Option<Part>, op: Op): Option<Part>
    requires Legal(part, op)
  {
    match op
    case Open(rel) => Some(Part(rel, [], 0))
    case Write(data) => Some(Part(part.value.rel, part.value.data + data, part.value.writes + 1))
    case _ => None
  }

  predicate LegalAll(part: Option<Part>, ops: seq<Op>)
    decreases |ops|
  {
    ops != [] ==> Legal(part, ops[0]) && LegalAll(NextPart(part, ops[0]), ops[1..])
  }

  // ---------------------------------------------------------------- files the agent writes itself

  function Created(files: Folder, dest: Path): Folder {
    files[PartialName(dest) := []]
  }

  function Appended(files: Folder, dest: Path, data: Bytes): Folder
    requires PartialName(dest) in files
  {
    files[PartialName(dest) := files[PartialName(dest)] + data]
  }

  function Removed(files: Folder, dest: Path): Folder {
    files - {PartialName(dest)}
  }

  function Renamed(files: Folder, dest: Path): Folder
    requires PartialName(dest) in files
  {
    Removed(files, dest)[dest := files[PartialName(dest)]]
  }

  class Disk {
    var files: Folder

    constructor (files: Folder)
      ensures this.files == files
    {
      this.files := files;
    }
  }

  /** A partial file of the agent's own. What the file system answers is a parameter. */
  class LocalPartial {
    const disk: Disk
    const dest: Path

    /** Creates the partial file; only where creating one works. */
    constructor (disk: Disk, dest: Path)
      modifies disk
      ensures this.disk == disk && this.dest == dest && disk.files == Created(old(disk.files), dest)
    {
      this.disk, this.dest := disk, dest;
      new;
      disk.files := disk.files[PartialName(dest) := []];
    }

    method Write(data: Bytes, fails: bool) returns (ok: bool)
      requires PartialName(dest) in disk.files
      modifies disk
      ensures ok == !fails
      ensures disk.files == if ok then Appended(old(disk.files), dest, data) else old(disk.files)
    {
      if fails {
        return false;
      }
      disk.files := disk.files[PartialName(dest) := disk.files[PartialName(dest)] + data];
      ok := true;
    }

    /** Renames the file into place, or removes it if that fails. */
    method Commit(renames: bool) returns (ok: bool)
      requires PartialName(dest) in disk.files
      modifies disk
      ensures ok == renames
      ensures disk.files == if ok then Renamed(old(disk.files), dest) else Removed(old(disk.files), dest)
    {
      var name := PartialName(dest);
      if renames {
        disk.files := (disk.files - {name})[dest := disk.files[name]];
      } else {
        disk.files := disk.files - {name};
      }
      ok := renames;
    }

    method Abort()
      modifies disk
      ensures disk.files == Removed(old(disk.files), dest)
    {
      disk.files := disk.files - {PartialName(dest)};
    }
  }

  // ---------------------------------------------------------------- a sequence of operations on them

  datatype LocalFile = LocalFile(dest: Path, writes: nat)

  /** The folder, the file open in it if any, how many were opened, and the outcome of each commit. */
  datatype Local = Local(disk: Folder, file: Option<LocalFile>, count: nat, outcomes: seq<bool>)

  predicate SaneLocal(l: Local) {
    l.file.Some? ==> l.count > 0 && PartialName(l.file.value.dest) in l.disk
  }

  /**
   * One operation. A file that couldn't be opened has failed, and so has one with a failed
   * write, which is abandoned at once: the rest of its operations do nothing.
   */
  function LocalApply(fates: Fates, l: Local, op: Op): (r: Local)
    requires SaneLocal(l)
    ensures SaneLocal(r)
  {
    match op
    case Open(rel) =>
      var n := l.(count := l.count + 1);
      if fates(l.count).opens then n.(disk := Created(l.disk, rel), file := Some(LocalFile(rel, 0)))
      else n.(file := None)
    case Write(data) =>
      if l.file.None? then l
      else
        var f := l.file.value;
        if fates(l.count - 1).fails == Some(f.writes) then l.(disk := Removed(l.disk, f.dest), file := None)
        else l.(disk := Appended(l.disk, f.dest, data), file := Some(f.(writes := f.writes + 1)))
    case Commit =>
      if l.file.None? then l.(outcomes := l.outcomes + [false])
      else
        var ok := fates(l.count - 1).commits;
        var dest := l.file.value.dest;
        l.(disk := if ok then Renamed(l.disk, dest) else Removed(l.disk, dest), file := None,
           outcomes := l.outcomes + [ok])
    case Abort =>
      if l.file.None? then l else l.(disk := Removed(l.disk, l.file.value.dest), file := None)
  }

  function LocalAll(fates: Fates, l: Local, ops: seq<Op>): (r: Local)
    requires SaneLocal(l)
    ensures SaneLocal(r)
    decreases |ops|
  {
    if ops == [] then l else LocalAll(fates, LocalApply(fates, l, ops[0]), ops[1..])
  }

  /** Of the partial files that weren't there at first, just the open one is in the folder. */
  ghost predicate OnlyItsPartial(l: Local, part: Option<Part>, was: Folder) {
    && (l.file.Some? ==> part.Some? && l.file.value.dest == part.value.rel)
    && (part.Some? ==> !IsPartial(part.value.rel))
    && forall q :: IsPartial(q) && q in l.disk && q !in was ==>
         l.file.Some? && q == PartialName(l.file.value.dest)
  }

  /** Whatever fails, no partial file is left behind. */
  lemma {:induction false} LocalLeavesNoPartial(fates: Fates, l: Local, part: Option<Part>, ops: seq<Op>, was: Folder)
    requires SaneLocal(l) && LegalAll(part, ops) && OnlyItsPartial(l, part, was)
    ensures var t := LocalAll(fates, l, ops);
      forall q :: IsPartial(q) && q in t.disk && q !in was ==> t.file.Some? && q == PartialName(t.file.value.dest)
    decreases |ops|
  {
    if ops != [] {
      LocalLeavesNoPartial(fates, LocalApply(fates, l, ops[0]), NextPart(part, ops[0]), ops[1..], was);
    }
  }
}
