/** Folders seen through their checksums, and what carrying out a plan makes of them. */
module Folders {
  import opened Transfer
  import opened Plans

  /** A folder seen through its checksums. */
  type Sums = map<Path, Sum>

  /** `files` is a listing of `folder`: every file once, with its checksum. */
  ghost predicate IsListing(files: seq<SyncFile>, folder: Sums) {
    && (forall i, j :: 0 <= i < j < |files| ==> files[i].path != files[j].path)
    && (forall f :: f in files ==> f.path in folder && folder[f.path] == f.sha)
    && (forall p :: p in folder ==> exists f :: f in files && f.path == p)
  }

  /** What the copies planned for a node put in its folder. */
  function Copied(log: seq<Send>, n: Node): Sums {
    if log == [] then map[]
    else
      var s := log[|log| - 1];
      var m := Copied(log[..|log| - 1], n);
      if s.to == n then m[s.file.path := s.file.sha] else m
  }

  /** A node's folder once its copies arrived and its deletes ran. */
  function After(v: Planned, n: Node, folder: Sums): Sums {
    (folder + Copied(v.log, n)) - (set p | p in DeletesOn(v, n))
  }

  lemma {:induction false} CopiedFacts(log: seq<Send>, n: Node, p: Path)
    ensures p in Copied(log, n) ==>
      exists s :: s in log && s.to == n && s.file.path == p && Copied(log, n)[p] == s.file.sha
    ensures (exists s :: s in log && s.to == n && s.file.path == p) ==> p in Copied(log, n)
  {
    if log != [] {
      CopiedFacts(log[..|log| - 1], n, p);
      var last := log[|log| - 1];
      assert forall s :: s in log <==> s == last || s in log[..|log| - 1];
    }
  }

  /** What index() makes of an exact listing. */
  lemma ListingHolds(files: seq<SyncFile>, folder: Sums, p: Path)
    requires IsListing(files, folder)
    ensures p in Indexed(files) <==> p in folder && !IsPartial(p)
    ensures p in Indexed(files) ==> Indexed(files)[p].sha == folder[p]
    ensures p in Partials(files) <==> p in folder && IsPartial(p)
  {
    IndexedFacts(files);
    PartialsListed(files);
    if p in folder {
      var f :| f in files && f.path == p;
    }
  }

  lemma {:induction false} PartialsListed(files: seq<SyncFile>)
    ensures forall p :: p in Partials(files) ==> IsPartial(p) && exists f :: f in files && f.path == p
  {
    if files != [] {
      PartialsListed(files[..|files| - 1]);
      var last := files[|files| - 1];
      assert last in files && forall f :: f in files[..|files| - 1] ==> f in files;
    }
  }

  predicate SameEntry(a: Sums, b: Sums, p: Path) {
    (p in a <==> p in b) && (p in a ==> a[p] == b[p])
  }

  lemma SameMaps(a: Sums, b: Sums)
    requires forall p :: SameEntry(a, b, p)
    ensures a == b
  {
    assert forall p :: p in a ==> SameEntry(a, b, p);
    assert forall p :: p in b ==> SameEntry(a, b, p);
  }

  lemma AfterEntry(v: Planned, n: Node, folder: Sums, p: Path)
    ensures p in After(v, n, folder) <==> (p in folder || p in Copied(v.log, n)) && p !in DeletesOn(v, n)
    ensures p in After(v, n, folder) ==> After(v, n, folder)[p] == if p in Copied(v.log, n) then Copied(v.log, n)[p]
      else folder[p]
  {
  }
}
