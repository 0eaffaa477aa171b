/** What every backup sync plan guarantees about the repositories it leaves behind. */
module BackupTheorems {
  import opened Transfer
  import opened Plans
  import opened Folders
  import opened BackupPlanner
  import Text

  /** The folders of the listed nodes, as listed. */
  ghost predicate AsListed(lists: Lists, folders: map<Node, Sums>) {
    folders.Keys == lists.Keys && forall n :: n in lists ==> IsListing(lists[n], folders[n])
  }

  lemma HeldAsListed(lists: Lists, folders: map<Node, Sums>, n: Node, p: Path)
    requires AsListed(lists, folders) && n in lists
    ensures Holds(Indexing(lists), n, p) <==> p in folders[n] && !IsPartial(p)
    ensures Holds(Indexing(lists), n, p) ==> Indexing(lists)[n][p].sha == folders[n][p]
    ensures p in PartialsOn(lists, n) <==> p in folders[n] && IsPartial(p)
  {
    ListingHolds(lists[n], folders[n], p);
  }

  lemma DeletesMember(w: Naming, v: Planned, lists: Lists, source: Node, keep: Path -> bool, n: Node, p: Path)
    requires IsMirror(w, v, lists, source, keep)
    ensures p in DeletesOn(v, n) <==> p in PartialsOn(lists, n) || Unwanted(w, Indexing(lists), source, keep, n, p)
  {
    var have := Indexing(lists);
    assert DeletesMirrored(w, v, have, source, keep, PartialsOn(lists, n), n);
    assert p in DeletesOn(v, n) <==> p in multiset(DeletesOn(v, n));
    assert p in PartialsOn(lists, n) <==> p in multiset(PartialsOn(lists, n));
    assert p in UnwantedOn(w, have, source, keep, n) <==> p in multiset(UnwantedOn(w, have, source, keep, n));
  }

  lemma {:induction false} LeastNode(nodes: set<Node>) returns (k: Node)
    requires nodes != {}
    ensures k in nodes && forall m :: m in nodes ==> k <= m
    decreases |nodes|
  {
    var first :| first in nodes;
    k := first;
    if nodes - {first} != {} {
      var rest := LeastNode(nodes - {first});
      k := if first <= rest then first else rest;
    }
    assert forall m :: m in nodes ==> m == first || m in nodes - {first};
  }

  lemma ProviderExists(w: Naming, have: Have, source: Node, keep: Path -> bool, p: Path)
    requires Wanted(w, have, source, keep, p)
    ensures exists n :: Provides(have, source, p, n) && Holds(have, n, p)
  {
    if p in HoldingOf(have, source) {
      assert Provides(have, source, p, source);
    } else {
      var nodes := set n | n in have && p in have[n];
      var k :| Holds(have, k, p);
      assert k in nodes;
      var n := LeastNode(nodes);
      assert forall m :: Holds(have, m, p) ==> m in nodes;
      assert Provides(have, source, p, n);
    }
  }

  ghost function Provider(w: Naming, have: Have, source: Node, keep: Path -> bool, p: Path): (n: Node)
    requires Wanted(w, have, source, keep, p)
    ensures Provides(have, source, p, n) && Holds(have, n, p)
  {
    ProviderExists(w, have, source, keep, p);
    var n :| Provides(have, source, p, n) && Holds(have, n, p);
    n
  }

  /** The checksum of a wanted path: the main server's, or that of the WAL gathered. */
  ghost function WantSum(w: Naming, have: Have, source: Node, keep: Path -> bool, p: Path): Sum
    requires Wanted(w, have, source, keep, p)
  {
    have[Provider(w, have, source, keep, p)][p].sha
  }

  /** What the planned copies bring to node `n` at `p`. */
  lemma CopiedAt(w: Naming, v: Planned, have: Have, source: Node, keep: Path -> bool, n: Node, p: Path)
    requires WellKeyed(have) && CopiesMirrored(w, v, have, source, keep) && n in have
    ensures p in Copied(v.log, n) <==>
      Wanted(w, have, source, keep, p) && SumAt(have[n], p) != WantSum(w, have, source, keep, p) &&
        !Frozen(w, have, n, p)
    ensures p in Copied(v.log, n) ==> Copied(v.log, n)[p] == WantSum(w, have, source, keep, p)
  {
    CopiedFacts(v.log, n, p);
    if p in Copied(v.log, n) {
      var s :| s in v.log && s.to == n && s.file.path == p && Copied(v.log, n)[p] == s.file.sha;
      assert WantedCopy(w, have, source, keep, s);
      assert s.from == Provider(w, have, source, keep, p);
    }
    if Wanted(w, have, source, keep, p) {
      var from := Provider(w, have, source, keep, p);
      var s := Send(from, n, have[from][p]);
      assert WantedCopy(w, have, source, keep, s) <==>
        SumAt(have[n], p) != WantSum(w, have, source, keep, p) && !Frozen(w, have, n, p);
    }
  }

  /** A frozen file stays exactly as it is. */
  lemma FrozenStays(w: Naming, v: Planned, lists: Lists, source: Node, keep: Path -> bool, folders: map<Node, Sums>,
                    n: Node, p: Path)
    requires IsMirror(w, v, lists, source, keep) && AsListed(lists, folders) && n in lists
    requires Frozen(w, Indexing(lists), n, p) && !IsPartial(p)
    ensures SameEntry(After(v, n, folders[n]), folders[n], p)
  {
    IndexingKeyed(lists);
    AfterEntry(v, n, folders[n], p);
    HeldAsListed(lists, folders, n, p);
    CopiedAt(w, v, Indexing(lists), source, keep, n, p);
    DeletesMember(w, v, lists, source, keep, n, p);
  }

  /** A wanted file, not frozen on `n`, ends up there. */
  lemma WantedArrives(w: Naming, v: Planned, lists: Lists, source: Node, keep: Path -> bool, folders: map<Node, Sums>,
                      n: Node, p: Path)
    requires IsMirror(w, v, lists, source, keep) && AsListed(lists, folders) && n in lists
    requires Wanted(w, Indexing(lists), source, keep, p) && !Frozen(w, Indexing(lists), n, p)
    ensures var a := After(v, n, folders[n]); p in a && a[p] == WantSum(w, Indexing(lists), source, keep, p)
  {
    IndexingKeyed(lists);
    AfterEntry(v, n, folders[n], p);
    HeldAsListed(lists, folders, n, p);
    CopiedAt(w, v, Indexing(lists), source, keep, n, p);
    DeletesMember(w, v, lists, source, keep, n, p);
    assert !IsPartial(p);
  }

  /** Nothing else is left: not wanted, not frozen, so gone everywhere. */
  lemma RestIsGone(w: Naming, v: Planned, lists: Lists, source: Node, keep: Path -> bool, folders: map<Node, Sums>,
                   n: Node, p: Path)
    requires IsMirror(w, v, lists, source, keep) && AsListed(lists, folders) && n in lists
    requires !Wanted(w, Indexing(lists), source, keep, p) && (!Frozen(w, Indexing(lists), n, p) || IsPartial(p))
    ensures p !in After(v, n, folders[n])
  {
    var have := Indexing(lists);
    IndexingKeyed(lists);
    AfterEntry(v, n, folders[n], p);
    HeldAsListed(lists, folders, n, p);
    CopiedAt(w, v, have, source, keep, n, p);
    DeletesMember(w, v, lists, source, keep, n, p);
    if Holds(have, n, p) && w.isWal(p) {
      assert HoldsWal(w, have, n, p, w.segment(p));
    }
  }

  // ---------------------------------------------------------------- the result

  /**
   * After a backup sync the main server holds exactly its own files plus the WAL gathered
   * from other nodes, and none of its own files was overwritten.
   */
  lemma MainServerResult(w: Naming, v: Planned, lists: Lists, source: Node, keep: Path -> bool,
                         folders: map<Node, Sums>, p: Path)
    requires IsMirror(w, v, lists, source, keep) && AsListed(lists, folders) && source in lists
    ensures var a := After(v, source, folders[source]);
      && (p in a <==> (p in folders[source] && !IsPartial(p)) || Gathered(w, Indexing(lists), source, keep, p))
      && (p in folders[source] && !IsPartial(p) ==> a[p] == folders[source][p])
  {
    var have := Indexing(lists);
    IndexingKeyed(lists);
    HeldAsListed(lists, folders, source, p);
    if Frozen(w, have, source, p) && !IsPartial(p) {
      FrozenStays(w, v, lists, source, keep, folders, source, p);
    } else if Wanted(w, have, source, keep, p) {
      WantedNotPartial(w, lists, source, keep, p);
      WantedArrives(w, v, lists, source, keep, folders, source, p);
    } else {
      RestIsGone(w, v, lists, source, keep, folders, source, p);
    }
  }

  lemma WantedNotPartial(w: Naming, lists: Lists, source: Node, keep: Path -> bool, p: Path)
    requires Wanted(w, Indexing(lists), source, keep, p)
    ensures !IsPartial(p)
  {
    IndexingKeyed(lists);
    ProviderExists(w, Indexing(lists), source, keep, p);
  }

  /**
   * Every node then equals the main server, except on conflicted segments it already held:
   * those are neither changed nor deleted.
   */
  lemma MirrorResult(w: Naming, v: Planned, lists: Lists, source: Node, keep: Path -> bool, folders: map<Node, Sums>,
                     n: Node, p: Path)
    requires IsMirror(w, v, lists, source, keep) && AsListed(lists, folders) && source in lists && n in lists
    ensures
      if Frozen(w, Indexing(lists), n, p) && !IsPartial(p) then SameEntry(After(v, n, folders[n]), folders[n], p)
      else SameEntry(After(v, n, folders[n]), After(v, source, folders[source]), p)
  {
    var have := Indexing(lists);
    if Frozen(w, have, n, p) && !IsPartial(p) {
      FrozenStays(w, v, lists, source, keep, folders, n, p);
    } else {
      MainServerResult(w, v, lists, source, keep, folders, p);
      if Wanted(w, have, source, keep, p) {
        WantedNotPartial(w, lists, source, keep, p);
        WantedArrives(w, v, lists, source, keep, folders, n, p);
        SourceSum(w, v, lists, source, keep, folders, p);
      } else {
        RestIsGone(w, v, lists, source, keep, folders, n, p);
        HeldAsListed(lists, folders, source, p);
      }
    }
  }

  lemma SourceSum(w: Naming, v: Planned, lists: Lists, source: Node, keep: Path -> bool, folders: map<Node, Sums>,
                  p: Path)
    requires IsMirror(w, v, lists, source, keep) && AsListed(lists, folders) && source in lists
    requires Wanted(w, Indexing(lists), source, keep, p)
    ensures var a := After(v, source, folders[source]); p in a && a[p] == WantSum(w, Indexing(lists), source, keep, p)
  {
    var have := Indexing(lists);
    WantedNotPartial(w, lists, source, keep, p);
    if Frozen(w, have, source, p) {
      FrozenStays(w, v, lists, source, keep, folders, source, p);
      HeldAsListed(lists, folders, source, p);
      assert p in HoldingOf(have, source);
    } else {
      WantedArrives(w, v, lists, source, keep, folders, source, p);
    }
  }

  /** No node deletes a file it is sent or sends; the main server deletes only its partial files. */
  lemma CopiesAreSound(w: Naming, v: Planned, lists: Lists, source: Node, keep: Path -> bool, s: Send)
    requires IsMirror(w, v, lists, source, keep) && s in v.log && source in lists
    ensures s.from in lists && s.to in lists && s.from != s.to && !IsPartial(s.file.path)
    ensures Holds(Indexing(lists), s.from, s.file.path) && Indexing(lists)[s.from][s.file.path] == s.file
    ensures s.file.path !in DeletesOn(v, s.to) && s.file.path !in DeletesOn(v, s.from)
    ensures forall p :: p in DeletesOn(v, source) ==> IsPartial(p)
  {
    var have := Indexing(lists);
    assert WantedCopy(w, have, source, keep, s);
    IndexingKeyed(lists);
    IndexedFacts(lists[s.from]);
    IndexedFacts(lists[s.to]);
    DeletesMember(w, v, lists, source, keep, s.to, s.file.path);
    DeletesMember(w, v, lists, source, keep, s.from, s.file.path);
    IndexedFacts(lists[source]);
    forall p | p in DeletesOn(v, source)
      ensures IsPartial(p)
    {
      DeletesMember(w, v, lists, source, keep, source, p);
    }
  }

  // ---------------------------------------------------------------- planning again

  /** The folders once the plan is carried out on every node. */
  function AfterAll(v: Planned, folders: map<Node, Sums>): map<Node, Sums> {
    map n | n in folders :: After(v, n, folders[n])
  }

  /** A sync of `lists` carried out, and its result listed again. */
  ghost predicate Done(w: Naming, v: Planned, lists: Lists, source: Node, keep: Path -> bool, folders: map<Node, Sums>,
                       again: Lists) {
    IsMirror(w, v, lists, source, keep) && AsListed(lists, folders) && source in lists &&
      AsListed(again, AfterAll(v, folders))
  }

  lemma NoPartialLeft(w: Naming, v: Planned, lists: Lists, source: Node, keep: Path -> bool, folders: map<Node, Sums>,
                      n: Node, p: Path)
    requires IsMirror(w, v, lists, source, keep) && AsListed(lists, folders) && n in lists && IsPartial(p)
    ensures p !in After(v, n, folders[n])
  {
    if Wanted(w, Indexing(lists), source, keep, p) {
      WantedNotPartial(w, lists, source, keep, p);
    } else {
      RestIsGone(w, v, lists, source, keep, folders, n, p);
    }
  }

  lemma HeldThere(v: Planned, folders: map<Node, Sums>, again: Lists, n: Node, p: Path)
    requires AsListed(again, AfterAll(v, folders)) && n in folders
    ensures again.Keys == folders.Keys
    ensures Holds(Indexing(again), n, p) <==> p in After(v, n, folders[n]) && !IsPartial(p)
    ensures Holds(Indexing(again), n, p) ==> Indexing(again)[n][p].sha == After(v, n, folders[n])[p]
    ensures p in PartialsOn(again, n) <==> p in After(v, n, folders[n]) && IsPartial(p)
  {
    HeldAsListed(again, AfterAll(v, folders), n, p);
  }

  /** No partial file is left, and the new listing shows what `After` says. */
  lemma HeldAgain(w: Naming, v: Planned, lists: Lists, source: Node, keep: Path -> bool, folders: map<Node, Sums>,
                  again: Lists, n: Node, p: Path)
    requires Done(w, v, lists, source, keep, folders, again) && n in lists
    ensures again.Keys == lists.Keys && p !in PartialsOn(again, n)
    ensures Holds(Indexing(again), n, p) <==> p in After(v, n, folders[n])
    ensures Holds(Indexing(again), n, p) ==> Indexing(again)[n][p].sha == After(v, n, folders[n])[p]
  {
    HeldThere(v, folders, again, n, p);
    if IsPartial(p) {
      NoPartialLeft(w, v, lists, source, keep, folders, n, p);
    }
  }

  /** A conflict is still there: every node that held a version of it still does. */
  lemma VersionStays(w: Naming, v: Planned, lists: Lists, source: Node, keep: Path -> bool, folders: map<Node, Sums>,
                     again: Lists, seg: string, x: WalVersion)
    requires Done(w, v, lists, source, keep, folders, again)
    requires Conflicted(w, Indexing(lists), seg) && HeldVersion(w, Indexing(lists), seg, x)
    ensures HeldVersion(w, Indexing(again), seg, x)
  {
    var have := Indexing(lists);
    var n :| n in have && x in SegmentVersions(w, have[n], seg);
    IndexingKeyed(lists);
    assert HoldsWal(w, have, n, x.path, seg) && !IsPartial(x.path);
    FrozenStays(w, v, lists, source, keep, folders, n, x.path);
    HeldAsListed(lists, folders, n, x.path);
    HeldAgain(w, v, lists, source, keep, folders, again, n, x.path);
    assert x in SegmentVersions(w, Indexing(again)[n], seg);
  }

  /** Outside conflicts, everything held afterwards is the main server's and was held before. */
  lemma VersionWasHeld(w: Naming, v: Planned, lists: Lists, source: Node, keep: Path -> bool, folders: map<Node, Sums>,
                       again: Lists, seg: string, x: WalVersion)
    requires Done(w, v, lists, source, keep, folders, again)
    requires !Conflicted(w, Indexing(lists), seg) && HeldVersion(w, Indexing(again), seg, x)
    ensures x.path in After(v, source, folders[source]) && x.sum == After(v, source, folders[source])[x.path]
    ensures exists y: WalVersion :: y.path == x.path && HeldVersion(w, Indexing(lists), seg, y)
  {
    var have, more := Indexing(lists), Indexing(again);
    var n :| n in more && x in SegmentVersions(w, more[n], seg);
    HeldAgain(w, v, lists, source, keep, folders, again, n, x.path);
    MirrorResult(w, v, lists, source, keep, folders, n, x.path);
    MainServerResult(w, v, lists, source, keep, folders, x.path);
    HeldAsListed(lists, folders, source, x.path);
    assert Wanted(w, have, source, keep, x.path);
    var k := Provider(w, have, source, keep, x.path);
    assert WalVersion(x.path, have[k][x.path].sha) in SegmentVersions(w, have[k], seg);
  }

  lemma SameConflicts(w: Naming, v: Planned, lists: Lists, source: Node, keep: Path -> bool, folders: map<Node, Sums>,
                      again: Lists, seg: string)
    requires Done(w, v, lists, source, keep, folders, again)
    ensures Conflicted(w, Indexing(again), seg) <==> Conflicted(w, Indexing(lists), seg)
  {
    var have, more := Indexing(lists), Indexing(again);
    if Conflicted(w, have, seg) {
      var x, y :| x != y && HeldVersion(w, have, seg, x) && HeldVersion(w, have, seg, y);
      VersionStays(w, v, lists, source, keep, folders, again, seg, x);
      VersionStays(w, v, lists, source, keep, folders, again, seg, y);
    } else if Conflicted(w, more, seg) {
      var x, y :| x != y && HeldVersion(w, more, seg, x) && HeldVersion(w, more, seg, y);
      VersionWasHeld(w, v, lists, source, keep, folders, again, seg, x);
      VersionWasHeld(w, v, lists, source, keep, folders, again, seg, y);
    }
  }

  /** A conflicted segment's holders still hold it. */
  lemma FrozenAgain(w: Naming, v: Planned, lists: Lists, source: Node, keep: Path -> bool, folders: map<Node, Sums>,
                    again: Lists, n: Node, p: Path)
    requires Done(w, v, lists, source, keep, folders, again) && n in lists && Frozen(w, Indexing(lists), n, p)
    ensures Frozen(w, Indexing(again), n, p)
  {
    var have, seg := Indexing(lists), w.segment(p);
    SameConflicts(w, v, lists, source, keep, folders, again, seg);
    IndexingKeyed(lists);
    var q :| q in HoldingOf(have, n) && HoldsWal(w, have, n, q, seg);
    FrozenStays(w, v, lists, source, keep, folders, n, q);
    HeldAsListed(lists, folders, n, q);
    HeldAgain(w, v, lists, source, keep, folders, again, n, q);
    assert q in HoldingOf(Indexing(again), n) && HoldsWal(w, Indexing(again), n, q, seg);
  }

  /** Whatever a node holds afterwards, outside conflicts, the main server holds too. */
  lemma HeldOnMain(w: Naming, v: Planned, lists: Lists, source: Node, keep: Path -> bool, folders: map<Node, Sums>,
                   again: Lists, n: Node, p: Path)
    requires Done(w, v, lists, source, keep, folders, again) && n in lists && Holds(Indexing(again), n, p)
    ensures p in HoldingOf(Indexing(again), source) || (w.isWal(p) && Conflicted(w, Indexing(again), w.segment(p)))
  {
    HeldAgain(w, v, lists, source, keep, folders, again, n, p);
    HeldAgain(w, v, lists, source, keep, folders, again, source, p);
    MirrorResult(w, v, lists, source, keep, folders, n, p);
    if Frozen(w, Indexing(lists), n, p) {
      SameConflicts(w, v, lists, source, keep, folders, again, w.segment(p));
    }
  }

  lemma NothingToCopy(w: Naming, v: Planned, lists: Lists, source: Node, keep: Path -> bool, folders: map<Node, Sums>,
                      again: Lists, keep2: Path -> bool, s: Send)
    requires Done(w, v, lists, source, keep, folders, again)
    ensures !WantedCopy(w, Indexing(again), source, keep2, s)
  {
    var more, p := Indexing(again), s.file.path;
    if WantedCopy(w, more, source, keep2, s) {
      HeldOnMain(w, v, lists, source, keep, folders, again, s.from, p);
      HeldAgain(w, v, lists, source, keep, folders, again, source, p);
      HeldAgain(w, v, lists, source, keep, folders, again, s.to, p);
      MirrorResult(w, v, lists, source, keep, folders, s.to, p);
      if Frozen(w, Indexing(lists), s.to, p) {
        FrozenAgain(w, v, lists, source, keep, folders, again, s.to, p);
      }
    }
  }

  lemma NothingToDelete(w: Naming, v: Planned, lists: Lists, source: Node, keep: Path -> bool, folders: map<Node, Sums>,
                        again: Lists, keep2: Path -> bool, x: Planned, n: Node)
    requires Done(w, v, lists, source, keep, folders, again) && IsMirror(w, x, again, source, keep2)
    ensures DeletesOn(x, n) == []
  {
    if DeletesOn(x, n) != [] {
      var p := DeletesOn(x, n)[0];
      DeletesMember(w, x, again, source, keep2, n, p);
      if n in again {
        HeldAgain(w, v, lists, source, keep, folders, again, n, p);
        HeldOnMain(w, v, lists, source, keep, folders, again, n, p);
      }
    }
  }

  /**
   * Planning again on the result, whatever retention now covers, copies and deletes nothing
   * and reports the same conflicts.
   */
  lemma PlanningAgain(w: Naming, v: Planned, lists: Lists, source: Node, keep: Path -> bool, folders: map<Node, Sums>,
                      again: Lists, keep2: Path -> bool, x: Planned)
    requires IsMirror(w, v, lists, source, keep) && AsListed(lists, folders) && source in lists
    requires AsListed(again, AfterAll(v, folders)) && IsMirror(w, x, again, source, keep2)
    ensures x.log == [] && x.conflicts == v.conflicts
    ensures forall n :: DeletesOn(x, n) == []
  {
    if x.log != [] {
      assert x.log[0] in x.log;
      NothingToCopy(w, v, lists, source, keep, folders, again, keep2, x.log[0]);
    }
    forall n {
      NothingToDelete(w, v, lists, source, keep, folders, again, keep2, x, n);
    }
    forall seg
      ensures seg in x.conflicts <==> seg in v.conflicts
    {
      SameConflicts(w, v, lists, source, keep, folders, again, seg);
    }
    Text.SameListing(x.conflicts, v.conflicts);
  }
}
