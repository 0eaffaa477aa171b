/** What a backup plan does with the files of a repository, by their names. */
module BackupNames {
  import opened Transfer
  import opened Plans
  import opened BackupPlanner
  import opened Paths
  import WalFiles
  import B = BackupTheorems

  ghost predicate History(p: Path) {
    exists stem :: p == stem + ".history"
  }

  /** The nodes hold the WAL segment of `p` in one version only: under the name `p`, with this checksum. */
  ghost predicate OneVersion(have: Have, p: Path, sha: Sum) {
    forall m, q :: Holds(have, m, q) && Archived(q) && WalFiles.WalSegment(q) == WalFiles.WalSegment(p) ==>
      q == p && have[m][q].sha == sha
  }

  lemma OneVersionMeans(have: Have, n: Node, p: Path)
    requires Holds(have, n, p) && Archived(p) && OneVersion(have, p, have[n][p].sha)
    ensures !Conflicted(REPOSITORY, have, WalFiles.WalSegment(p))
  {
    var seg := WalFiles.WalSegment(p);
    forall x | HeldVersion(REPOSITORY, have, seg, x)
      ensures x == WalVersion(p, have[n][p].sha)
    {
      var m :| m in have && x in SegmentVersions(REPOSITORY, have[m], seg);
      WalIsArchived(x.path);
      assert Holds(have, m, x.path);
    }
  }

  /** Some copy of `p` with this checksum is sent to `n`. */
  ghost predicate IsSent(v: Planned, n: Node, p: Path, sha: Sum) {
    exists s :: s in v.log && s.to == n && s.file.path == p && s.file.sha == sha
  }

  lemma WantedIsSent(v: Planned, lists: Lists, source: Node, keep: Path -> bool, p: Path, sha: Sum, m: Node)
    requires IsMirror(REPOSITORY, v, lists, source, keep) && m in lists && p !in Indexing(lists)[m]
    requires Gathered(REPOSITORY, Indexing(lists), source, keep, p)
    requires forall k :: Holds(Indexing(lists), k, p) ==> Indexing(lists)[k][p].sha == sha
    ensures IsSent(v, m, p, sha)
  {
    var have := Indexing(lists);
    IndexingKeyed(lists);
    B.ProviderExists(REPOSITORY, have, source, keep, p);
    var k := B.Provider(REPOSITORY, have, source, keep, p);
    assert have[k][p].path == p;
    assert WantedCopy(REPOSITORY, have, source, keep, Send(k, m, have[k][p]));
  }

  /**
   * WAL that only other nodes hold, in one version, and that the main server's retention covers
   * (or a history file), is sent to the main server and to every other node without it, and
   * deleted nowhere.
   */
  lemma SoleWalIsGathered(v: Planned, lists: Lists, source: Node, keep: Path -> bool, n: Node, p: Path)
    requires IsMirror(REPOSITORY, v, lists, source, keep) && source in lists && Holds(Indexing(lists), n, p)
    requires Archived(p) && (keep(p) || History(p)) && p !in Indexing(lists)[source]
    requires OneVersion(Indexing(lists), p, Indexing(lists)[n][p].sha)
    ensures forall m :: m in lists && p !in Indexing(lists)[m] ==> IsSent(v, m, p, Indexing(lists)[n][p].sha)
    ensures forall m :: p !in DeletesOn(v, m)
  {
    var have := Indexing(lists);
    OneVersionMeans(have, n, p);
    WalIsArchived(p);
    HistoryExactly(p);
    assert Gathered(REPOSITORY, have, source, keep, p);
    forall m | m in lists && p !in have[m]
      ensures IsSent(v, m, p, have[n][p].sha)
    {
      WantedIsSent(v, lists, source, keep, p, have[n][p].sha, m);
    }
    B.WantedNotPartial(REPOSITORY, lists, source, keep, p);
    forall m
      ensures p !in DeletesOn(v, m)
    {
      B.DeletesMember(REPOSITORY, v, lists, source, keep, m, p);
      PartialsArePartial(lists, m, p);
    }
  }

  lemma PartialsArePartial(lists: Lists, n: Node, p: Path)
    ensures p in PartialsOn(lists, n) ==> IsPartial(p)
  {
    if n in lists {
      IndexedFacts(lists[n]);
    }
  }

  /**
   * WAL that isn't covered any more, and no history file, is deleted on every node that holds it
   * but the main server.
   */
  lemma ExpiredWalGoes(v: Planned, lists: Lists, source: Node, keep: Path -> bool, n: Node, p: Path)
    requires IsMirror(REPOSITORY, v, lists, source, keep) && source in lists && Holds(Indexing(lists), n, p)
    requires Archived(p) && !keep(p) && !History(p) && p !in Indexing(lists)[source]
    requires OneVersion(Indexing(lists), p, Indexing(lists)[n][p].sha)
    ensures p in DeletesOn(v, n) && forall s :: s in v.log ==> s.file.path != p
  {
    var have := Indexing(lists);
    OneVersionMeans(have, n, p);
    HistoryExactly(p);
    B.DeletesMember(REPOSITORY, v, lists, source, keep, n, p);
    forall s | s in v.log
      ensures s.file.path != p
    {
      assert WantedCopy(REPOSITORY, have, source, keep, s);
    }
  }

  /** Anything else that only other nodes hold is deleted on them. */
  lemma StrayFileGoes(v: Planned, lists: Lists, source: Node, keep: Path -> bool, n: Node, p: Path)
    requires IsMirror(REPOSITORY, v, lists, source, keep) && source in lists && Holds(Indexing(lists), n, p)
    requires !Archived(p) && p !in Indexing(lists)[source]
    ensures p in DeletesOn(v, n) && forall s :: s in v.log ==> s.file.path != p
  {
    WalIsArchived(p);
    B.DeletesMember(REPOSITORY, v, lists, source, keep, n, p);
    forall s | s in v.log
      ensures s.file.path != p
    {
      assert WantedCopy(REPOSITORY, Indexing(lists), source, keep, s);
    }
  }

  lemma HeldHere(w: Naming, have: Have, n: Node, p: Path)
    requires Holds(have, n, p) && w.isWal(p)
    ensures HeldVersion(w, have, w.segment(p), WalVersion(p, have[n][p].sha))
    ensures HoldsSegment(w, have, n, w.segment(p))
  {
    assert WalVersion(p, have[n][p].sha) in SegmentVersions(w, have[n], w.segment(p));
    assert HoldsWal(w, have, n, p, w.segment(p));
  }

  /** Of a conflicted segment nothing is deleted, and no other version is sent to a node that holds one. */
  lemma ConflictLeft(w: Naming, v: Planned, lists: Lists, source: Node, keep: Path -> bool, n: Node, p: Path)
    requires IsMirror(w, v, lists, source, keep) && Holds(Indexing(lists), n, p) && w.isWal(p)
    requires Conflicted(w, Indexing(lists), w.segment(p))
    ensures w.segment(p) in v.conflicts && p !in DeletesOn(v, n)
    ensures forall s :: s in v.log && s.to == n ==> s.file.path != p
  {
    var have := Indexing(lists);
    HeldHere(w, have, n, p);
    B.DeletesMember(w, v, lists, source, keep, n, p);
    PartialsArePartial(lists, n, p);
    IndexedFacts(lists[n]);
    forall s | s in v.log && s.to == n
      ensures s.file.path != p
    {
      assert WantedCopy(w, have, source, keep, s);
    }
  }

  /**
   * Two versions of a segment, under two names or with two contents, are a conflict: it is
   * reported, and no node that holds one is told to delete it or sent another.
   */
  lemma TwoVersionsConflict(v: Planned, lists: Lists, source: Node, keep: Path -> bool, n: Node, p: Path, m: Node,
                            q: Path)
    requires IsMirror(REPOSITORY, v, lists, source, keep) && Archived(p) && Archived(q)
    requires var have := Indexing(lists);
      && Holds(have, n, p) && Holds(have, m, q) && WalFiles.WalSegment(p) == WalFiles.WalSegment(q)
      && (p != q || have[n][p].sha != have[m][q].sha)
    ensures WalFiles.WalSegment(p) in v.conflicts && p !in DeletesOn(v, n)
    ensures forall s :: s in v.log && s.to == n ==> s.file.path != p
  {
    var have: Have := Indexing(lists);
    WalIsArchived(p);
    WalIsArchived(q);
    HeldHere(REPOSITORY, have, n, p);
    HeldHere(REPOSITORY, have, m, q);
    assert WalVersion(p, have[n][p].sha) != WalVersion(q, have[m][q].sha);
    ConflictLeft(REPOSITORY, v, lists, source, keep, n, p);
  }
}
