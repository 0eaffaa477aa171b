/** What every two-way plan guarantees: convergence, a fixpoint, and no edit lost in silence. */
module TwoWayTheorems {
  import opened Transfer
  import opened Plans
  import opened TwoWay
  import opened TwoWayPlanner
  import opened Folders
  import Text

  // ---------------------------------------------------------------- order independence

  /**
   * Every order of visiting nodes and paths gives the same plan: the same winners, copies,
   * deletes, conflicts and record, and the same set of receivers for every sender and path.
   */
  lemma OrderIndependent(v: Planned, w: Planned, lists: Lists, rec: Record)
    requires IsMerge(v, lists, rec) && IsMerge(w, lists, rec)
    ensures v.files == w.files && v.deleted == w.deleted && v.conflicts == w.conflicts
    ensures forall n :: DeletesOn(v, n) == DeletesOn(w, n)
    ensures forall s :: s in v.log <==> s in w.log
    ensures forall from, path, to :: to in To(v.sends, from, path) <==> to in To(w.sends, from, path)
  {
    Text.SameListing(v.deleted, w.deleted);
    Text.SameListing(v.conflicts, w.conflicts);
    forall n
      ensures DeletesOn(v, n) == DeletesOn(w, n)
    {
      assert DeletesMerged(v, Indexing(lists), rec, PartialsOn(lists, n), n);
      assert DeletesMerged(w, Indexing(lists), rec, PartialsOn(lists, n), n);
      Text.SortedUnique(DeletesOn(v, n), DeletesOn(w, n));
    }
    forall from, path, to
      ensures to in To(v.sends, from, path) <==> to in To(w.sends, from, path)
    {
      assert To(v.sends, from, path) == Receivers(v.log, from, path);
      assert To(w.sends, from, path) == Receivers(w.log, from, path);
      ReceiversMember(v.log, from, path, to);
      ReceiversMember(w.log, from, path, to);
    }
  }

  // ---------------------------------------------------------------- which version wins

  /** `m`'s copy is preferred to `n`'s: modified later, or as late with the greater checksum; else, the greater node. */
  ghost predicate Prefers(have: Have, p: Path, m: Node, n: Node)
    requires Holds(have, m, p) && Holds(have, n, p)
  {
    var a, b := have[m][p], have[n][p];
    || a.mtime > b.mtime
    || (a.mtime == b.mtime && (Text.Precedes(b.sha, a.sha) || (a.sha == b.sha && m > n)))
  }

  /** Of the nodes `s`, all of which hold `p`, none is to be preferred to `n`. */
  ghost predicate NewestOf(have: Have, p: Path, s: set<Node>, n: Node) {
    && n in s && (forall m :: m in s ==> Holds(have, m, p))
    && forall m :: m in s ==> !Prefers(have, p, m, n)
  }

  /** The same, among those that synced last; none synced later than `n`. */
  ghost predicate LatestOf(at: map<Node, int>, have: Have, p: Path, s: set<Node>, n: Node) {
    && n in s && (forall m :: m in s ==> Holds(have, m, p) && At(at, m) <= At(at, n))
    && (forall m :: m in s && m in at ==> at[m] <= if n in at then at[n] else 0)
    && forall m :: m in s && At(at, m) == At(at, n) ==> !Prefers(have, p, m, n)
  }

  /** The plan spreads `n`'s copy of `p`: it is what every node is to hold, and goes to just those that hold another. */
  ghost predicate Spreads(v: Planned, have: Have, p: Path, n: Node) {
    && Holds(have, n, p) && p in v.files && v.files[p] == have[n][p].sha && p !in v.deleted
    && (forall s :: s in v.log && s.file.path == p ==> s.from == n && s.file == have[n][p])
    && (forall m :: SpreadTo(v, have, p, n, m))
  }

  ghost predicate SpreadTo(v: Planned, have: Have, p: Path, n: Node, m: Node)
    requires Holds(have, n, p)
  {
    Send(n, m, have[n][p]) in v.log <==> m in have && SumOn(have, m, p) != have[n][p].sha
  }

  lemma NewerMeans(have: Have, p: Path, m: Node, n: Node)
    requires Holds(have, m, p) && Holds(have, n, p)
    ensures Prefers(have, p, m, n) <==> Newer(VersionOf(have, m, p), VersionOf(have, n, p)) > 0
  {
    var a, b := have[m][p].sha, have[n][p].sha;
    Text.ComparesTexts(b, a);
    Text.CompareTextFlip(a, b);
    Text.CompareTextZero(a, b);
  }

  lemma TopIsNewest(have: Have, p: Path, s: set<Node>, n: Node)
    requires IsTop(map[], have, p, s, n)
    ensures NewestOf(have, p, s, n)
  {
    forall m | m in s
      ensures !Prefers(have, p, m, n)
    {
      NewerMeans(have, p, m, n);
    }
  }

  lemma TopIsLatest(at: map<Node, int>, have: Have, p: Path, s: set<Node>, n: Node)
    requires IsTop(at, have, p, s, n)
    ensures LatestOf(at, have, p, s, n)
  {
    forall m | m in s
      ensures At(at, m) <= At(at, n) && (At(at, m) == At(at, n) ==> !Prefers(have, p, m, n))
    {
      NewerMeans(have, p, m, n);
      assert Rank(at, VersionOf(have, m, p), VersionOf(have, n, p)) <= 0;
    }
  }

  lemma KeepSpreads(v: Planned, lists: Lists, rec: Record, p: Path)
    requires IsMerge(v, lists, rec) && Decide(Indexing(lists), rec, p).Keep?
    ensures Spreads(v, Indexing(lists), p, Decide(Indexing(lists), rec, p).win)
  {
    var have := Indexing(lists);
    var n := Decide(have, rec, p).win;
    IndexingKeyed(lists);
    forall s | s in v.log && s.file.path == p
      ensures s.from == n && s.file == have[n][p]
    {
      assert Wanted(have, rec, s);
    }
    forall m
      ensures SpreadTo(v, have, p, n, m)
    {
      assert have[n][p].path == p;
      assert Wanted(have, rec, Send(n, m, have[n][p])) <==> m in have && SumOn(have, m, p) != have[n][p].sha;
    }
  }

  /**
   * Which version of a path wins. With edits, the one modified last (ties by checksum, then
   * node), whatever was deleted; else a delete takes the path off every node; else, of the
   * versions on record, one from the nodes that synced last, the newest there; else, of the
   * first copies, the newest. And just the nodes that hold another version are sent it.
   */
  lemma NewestWins(v: Planned, lists: Lists, rec: Record, p: Path)
    requires IsMerge(v, lists, rec)
    ensures var have := Indexing(lists);
      var changed, kept, unsynced := ChangedOn(have, rec, p), KeptOn(have, rec, p), UnsyncedOn(have, rec, p);
      if changed != {} then exists n :: NewestOf(have, p, changed, n) && Spreads(v, have, p, n)
      else if Deleted(have, rec, p) then p in v.deleted && p !in v.files
      else if kept != {} then exists n :: LatestOf(rec.syncedAt, have, p, kept, n) && Spreads(v, have, p, n)
      else if unsynced != {} then exists n :: NewestOf(have, p, unsynced, n) && Spreads(v, have, p, n)
      else p !in v.files && p !in v.deleted
  {
    var have := Indexing(lists);
    var changed, kept, unsynced := ChangedOn(have, rec, p), KeptOn(have, rec, p), UnsyncedOn(have, rec, p);
    var fate := Decide(have, rec, p);
    if fate.Keep? {
      KeepSpreads(v, lists, rec, p);
      if changed != {} {
        TopIsNewest(have, p, changed, fate.win);
      } else if kept != {} {
        TopIsLatest(rec.syncedAt, have, p, kept, fate.win);
      } else {
        TopIsNewest(have, p, unsynced, fate.win);
      }
    }
  }

  // ---------------------------------------------------------------- conservation

  /**
   * Every copy is sent by another node, which holds exactly that version, to a node that
   * lacks it; and no node deletes a path it is sent, or one it sends.
   */
  lemma CopiesAreSound(v: Planned, lists: Lists, rec: Record, s: Send)
    requires IsMerge(v, lists, rec) && s in v.log
    ensures s.from in lists && s.to in lists && s.from != s.to
    ensures var have := Indexing(lists);
      Holds(have, s.from, s.file.path) && have[s.from][s.file.path] == s.file &&
        SumOn(have, s.to, s.file.path) != s.file.sha
    ensures !IsPartial(s.file.path) && s.file.path in v.files && v.files[s.file.path] == s.file.sha
    ensures s.file.path !in DeletesOn(v, s.to) && s.file.path !in DeletesOn(v, s.from)
  {
    var have := Indexing(lists);
    assert Wanted(have, rec, s);
    IndexedFacts(lists[s.from]);
    IndexedFacts(lists[s.to]);
    KeptNotDeleted(v, lists, rec, s.to, s.file.path);
    KeptNotDeleted(v, lists, rec, s.from, s.file.path);
  }

  lemma DeletesMember(v: Planned, lists: Lists, rec: Record, n: Node, p: Path)
    requires IsMerge(v, lists, rec)
    ensures p in DeletesOn(v, n) <==>
      p in PartialsOn(lists, n) || (Holds(Indexing(lists), n, p) && Decide(Indexing(lists), rec, p).Delete?)
  {
    var have := Indexing(lists);
    assert DeletesMerged(v, have, rec, PartialsOn(lists, n), n);
    assert p in DeletesOn(v, n) <==> p in multiset(DeletesOn(v, n));
    assert p in PartialsOn(lists, n) <==> p in multiset(PartialsOn(lists, n));
    assert p in DeletedHere(have, rec, n) <==> p in multiset(DeletedHere(have, rec, n));
  }

  lemma KeptNotDeleted(v: Planned, lists: Lists, rec: Record, n: Node, p: Path)
    requires IsMerge(v, lists, rec) && p in v.files && !IsPartial(p)
    ensures p !in DeletesOn(v, n)
  {
    DeletesMember(v, lists, rec, n, p);
    if n in lists {
      IndexedFacts(lists[n]);
    }
  }

  // ---------------------------------------------------------------- convergence

  /** Convergence, path by path. */
  lemma ConvergesAt(v: Planned, lists: Lists, rec: Record, n: Node, folder: Sums, p: Path)
    requires IsMerge(v, lists, rec) && n in lists && IsListing(lists[n], folder)
    ensures var a := After(v, n, folder); (p in a <==> p in v.files) && (p in a ==> a[p] == v.files[p])
  {
    var have := Indexing(lists);
    ListingHolds(lists[n], folder, p);
    CopiedFacts(v.log, n, p);
    DeletesMember(v, lists, rec, n, p);
    IndexingKeyed(lists);
    match Decide(have, rec, p)
    case Keep(win, _) =>
      assert !IsPartial(p);
      var s := Send(win, n, have[win][p]);
      assert Wanted(have, rec, s) <==> SumOn(have, n, p) != s.file.sha;
      assert v.files[p] == s.file.sha;
      if p in Copied(v.log, n) {
        var t :| t in v.log && t.to == n && t.file.path == p && Copied(v.log, n)[p] == t.file.sha;
        assert Wanted(have, rec, t);
      }
    case Delete =>
      NotSentAt(v, lists, rec, n, p);
    case Ignore =>
      NotSentAt(v, lists, rec, n, p);
      if Holds(have, n, p) {
        HeldNotIgnored(have, rec, p, n);
      }
  }

  lemma NotSentAt(v: Planned, lists: Lists, rec: Record, n: Node, p: Path)
    requires IsMerge(v, lists, rec) && !Decide(Indexing(lists), rec, p).Keep?
    ensures p !in Copied(v.log, n)
  {
    CopiedFacts(v.log, n, p);
    forall s | s in v.log
      ensures s.file.path != p
    {
      assert Wanted(Indexing(lists), rec, s);
    }
  }

  lemma HeldNotIgnored(have: Have, rec: Record, p: Path, n: Node)
    requires Holds(have, n, p)
    ensures !Decide(have, rec, p).Ignore?
  {
    assert n in ChangedOn(have, rec, p) || n in KeptOn(have, rec, p) || n in UnsyncedOn(have, rec, p);
  }

  /**
   * Convergence: once the plan is carried out, every listed node holds exactly `files`: the
   * same paths, the same contents, no partial file.
   */
  lemma Converges(v: Planned, lists: Lists, rec: Record, n: Node, folder: Sums)
    requires IsMerge(v, lists, rec) && n in lists && IsListing(lists[n], folder)
    ensures After(v, n, folder) == v.files
  {
    forall p {
      ConvergesAt(v, lists, rec, n, folder, p);
    }
  }

  // ---------------------------------------------------------------- edits and first syncs

  /**
   * No silent loss of edits: a version no record knows, on a node with a record, keeps its
   * path alive; and if it isn't the version that wins, the path is reported as a conflict.
   */
  lemma EditsNotLost(v: Planned, lists: Lists, rec: Record, n: Node, p: Path)
    requires IsMerge(v, lists, rec) && Changed(Indexing(lists), rec, p, n)
    ensures p in v.files && p !in v.deleted
    ensures v.files[p] != Indexing(lists)[n][p].sha ==> p in v.conflicts
  {
    var have := Indexing(lists);
    assert n in ChangedOn(have, rec, p);
    var win := Decide(have, rec, p).win;
    assert win in ChangedOn(have, rec, p);
    if WinSum(have, rec, p) != have[n][p].sha {
      assert SumOn(have, n, p) != SumOn(have, win, p);
      assert Differing(have, p, ChangedOn(have, rec, p));
    }
  }

  /** Exactly when a path is reported: an edit met another edit or a delete, or first copies differ. */
  lemma ConflictsAreReal(v: Planned, lists: Lists, rec: Record, p: Path)
    requires IsMerge(v, lists, rec)
    ensures var have := Indexing(lists); p in v.conflicts <==>
      || (ChangedOn(have, rec, p) != {} && (Deleted(have, rec, p) || Differing(have, p, ChangedOn(have, rec, p))))
      || (ChangedOn(have, rec, p) == {} && !Deleted(have, rec, p) && KeptOn(have, rec, p) == {}
          && Differing(have, p, UnsyncedOn(have, rec, p)))
  {
    var have := Indexing(lists);
    assert p in v.conflicts <==> IsConflict(have, rec, p);
  }

  /** Listing one more node, which has no record, changes no classification but its own. */
  lemma NewcomerFate(have: Have, rec: Record, x: Node, m: Holding, p: Path)
    requires x !in have && x !in rec.files
    ensures var bigger := have[x := m];
      && ChangedOn(bigger, rec, p) == ChangedOn(have, rec, p) && KeptOn(bigger, rec, p) == KeptOn(have, rec, p)
      && (Deleted(bigger, rec, p) <==> Deleted(have, rec, p))
      && UnsyncedOn(bigger, rec, p) == UnsyncedOn(have, rec, p) + if p in m then {x} else {}
  {
    var bigger := have[x := m];
    assert forall n :: n in have ==> Removed(bigger, rec, p, n) == Removed(have, rec, p, n);
    assert !Removed(bigger, rec, p, x);
  }

  /**
   * A first sync is harmless: adding a node without a record changes no other node's deletes
   * and no path's deletion, and its version wins only where no listed node with a record
   * holds the path and the path isn't deleted.
   */
  lemma FirstSyncHarmless(v: Planned, w: Planned, lists: Lists, rec: Record, x: Node, files: seq<SyncFile>)
    requires x !in lists && x !in rec.files
    requires IsMerge(v, lists, rec) && IsMerge(w, lists[x := files], rec)
    ensures v.deleted == w.deleted
    ensures forall n :: n != x ==> DeletesOn(v, n) == DeletesOn(w, n)
    ensures forall s :: s in w.log && s.from == x ==>
      !Deleted(Indexing(lists), rec, s.file.path)
      && forall n :: n in lists && Holds(Indexing(lists), n, s.file.path) ==> n !in rec.files
  {
    var have, bigger := Indexing(lists), Indexing(lists[x := files]);
    assert bigger == have[x := Indexed(files)];
    forall p
      ensures Decide(have, rec, p).Delete? <==> Decide(bigger, rec, p).Delete?
    {
      NewcomerFate(have, rec, x, Indexed(files), p);
    }
    Text.SameListing(v.deleted, w.deleted);
    forall n | n != x
      ensures DeletesOn(v, n) == DeletesOn(w, n)
    {
      SameDeletes(v, w, lists, rec, x, files, n);
    }
    forall s | s in w.log && s.from == x
      ensures !Deleted(have, rec, s.file.path)
      ensures forall n :: n in have && Holds(have, n, s.file.path) ==> n !in rec.files
    {
      assert Wanted(bigger, rec, s);
      NewcomerWins(have, rec, x, Indexed(files), s.file.path);
    }
  }

  lemma SameDeletes(v: Planned, w: Planned, lists: Lists, rec: Record, x: Node, files: seq<SyncFile>, n: Node)
    requires x !in lists && n != x
    requires IsMerge(v, lists, rec) && IsMerge(w, lists[x := files], rec)
    requires forall p :: Decide(Indexing(lists), rec, p).Delete? <==>
      Decide(Indexing(lists[x := files]), rec, p).Delete?
    ensures DeletesOn(v, n) == DeletesOn(w, n)
  {
    assert DeletesMerged(v, Indexing(lists), rec, PartialsOn(lists, n), n);
    assert DeletesMerged(w, Indexing(lists[x := files]), rec, PartialsOn(lists[x := files], n), n);
    assert DeletedHere(Indexing(lists), rec, n) == DeletedHere(Indexing(lists[x := files]), rec, n);
    Text.SortedUnique(DeletesOn(v, n), DeletesOn(w, n));
  }

  lemma NewcomerWins(have: Have, rec: Record, x: Node, m: Holding, p: Path)
    requires x !in have && x !in rec.files
    requires var f := Decide(have[x := m], rec, p); f.Keep? && f.win == x
    ensures !Deleted(have, rec, p) && forall n :: n in have && Holds(have, n, p) ==> n !in rec.files
  {
    var bigger := have[x := m];
    NewcomerFate(have, rec, x, m, p);
    assert x !in ChangedOn(bigger, rec, p) && x !in KeptOn(bigger, rec, p);
    forall n | n in have && Holds(have, n, p)
      ensures n !in rec.files
    {
      assert n !in ChangedOn(have, rec, p) && n !in KeptOn(have, rec, p);
    }
  }

  // ---------------------------------------------------------------- the record

  /** The stored record: as Record, with the time each delete marker was made. */
  datatype Stored = Stored(files: map<Node, map<Path, Sum>>, syncedAt: map<Node, int>, markers: map<Path, int>)

  function Load(st: Stored): Record {
    Record(st.files, st.syncedAt, st.markers.Keys)
  }

  /** Some node of the cluster hasn't synced since time `t`. */
  predicate SomeBehind(syncedAt: map<Node, int>, cluster: set<Node>, t: int) {
    exists n :: n in cluster && (n !in syncedAt || syncedAt[n] < t)
  }

  function SyncTimes(at: map<Node, int>, synced: set<Node>, now: int): map<Node, int> {
    map n | n in at.Keys + synced :: if n in synced then now else at[n]
  }

  function FilesOnRecord(st: Stored, synced: set<Node>, files: map<Path, Sum>): map<Node, map<Path, Sum>> {
    map n | n in st.files.Keys + synced :: if n in synced then files else st.files[n]
  }

  /** The markers with `deleted` added; a path already marked keeps its time. */
  function Marked(markers: map<Path, int>, deleted: seq<Path>, now: int): map<Path, int> {
    if deleted == [] then markers
    else
      var rest := Marked(markers, deleted[1..], now);
      if deleted[0] in rest then rest else rest[deleted[0] := now]
  }

  lemma {:induction false} MarkedFacts(markers: map<Path, int>, deleted: seq<Path>, now: int)
    ensures var m := Marked(markers, deleted, now);
      && (forall p :: p in m <==> p in markers || p in deleted)
      && (forall p :: p in m ==> m[p] == if p in markers then markers[p] else now)
  {
    if deleted != [] {
      MarkedFacts(markers, deleted[1..], now);
    }
  }

  /** The markers no longer needed: of paths that exist again, or that every node has synced since. */
  function Spent(markers: map<Path, int>, files: map<Path, Sum>, syncedAt: map<Node, int>,
                 cluster: set<Node>): set<Path> {
    set p | p in markers && (p in files || !SomeBehind(syncedAt, cluster, markers[p]))
  }

  /**
   * Saves a sync's outcome at time `now`: each node in `synced` holds `files`; deleted paths
   * are remembered until every node of the cluster has synced since; a path that exists again
   * loses its marker. A folder no longer wanted is left as it was.
   */
  function Save(st: Stored, wanted: bool, synced: set<Node>, files: map<Path, Sum>, deleted: seq<Path>,
                cluster: set<Node>, now: int): Stored {
    if !wanted then st
    else
      var at, markers := SyncTimes(st.syncedAt, synced, now), Marked(st.markers, deleted, now);
      Stored(FilesOnRecord(st, synced, files), at, markers - Spent(markers, files, at, cluster))
  }

  /** When a path was first marked as deleted: before, or by this sync. */
  function MarkedWhen(st: Stored, p: Path, now: int): int {
    if p in st.markers then st.markers[p] else now
  }

  /** `n` hasn't synced since `t`, this sync included. */
  predicate HasToSee(st: Stored, synced: set<Node>, now: int, n: Node, t: int) {
    if n in synced then now < t else n !in st.syncedAt || st.syncedAt[n] < t
  }

  /**
   * What saving does to a path's marker: a marked or deleted path keeps one, with the time it
   * was first marked at, exactly while it doesn't exist again and some node of the cluster
   * hasn't synced since.
   */
  lemma MarkersExactly(st: Stored, synced: set<Node>, files: map<Path, Sum>, deleted: seq<Path>, cluster: set<Node>,
                       now: int, p: Path)
    ensures var t := Save(st, true, synced, files, deleted, cluster, now);
      && (p in t.markers <==>
           && (p in st.markers || p in deleted) && p !in files
           && exists n :: n in cluster && HasToSee(st, synced, now, n, MarkedWhen(st, p, now)))
      && (p in t.markers ==> t.markers[p] == MarkedWhen(st, p, now))
  {
    MarkedFacts(st.markers, deleted, now);
    var at, markers := SyncTimes(st.syncedAt, synced, now), Marked(st.markers, deleted, now);
    assert forall n :: (n !in at || at[n] < MarkedWhen(st, p, now)) <==>
      HasToSee(st, synced, now, n, MarkedWhen(st, p, now));
  }

  /** And to the nodes: those that synced are on record with just `files`, now; the others as before. */
  lemma NodesExactly(st: Stored, synced: set<Node>, files: map<Path, Sum>, deleted: seq<Path>, cluster: set<Node>,
                     now: int, n: Node)
    ensures var t := Save(st, true, synced, files, deleted, cluster, now);
      if n in synced then n in t.files && t.files[n] == files && n in t.syncedAt && t.syncedAt[n] == now
      else
        && (n in t.files <==> n in st.files) && (n in st.files ==> t.files[n] == st.files[n])
        && (n in t.syncedAt <==> n in st.syncedAt) && (n in st.syncedAt ==> t.syncedAt[n] == st.syncedAt[n])
  {
  }

  /** Every listed node holds exactly `files` and has just that on record; no marker names one of them. */
  ghost predicate Settled(lists: Lists, st: Stored, files: map<Path, Sum>) {
    && lists != map[]
    && (forall n :: n in lists ==> n in st.files && st.files[n] == files && IsListing(lists[n], files))
    && (forall q :: q in files ==> !IsPartial(q) && q !in st.markers)
  }

  lemma SettledAt(lists: Lists, st: Stored, files: map<Path, Sum>, p: Path, n: Node)
    requires Settled(lists, st, files) && n in lists
    ensures var have, rec := Indexing(lists), Load(st);
      && (Holds(have, n, p) <==> p in files)
      && (Holds(have, n, p) ==> have[n][p].sha == files[p] && Kept(have, rec, p, n))
      && !Changed(have, rec, p, n) && !Unsynced(have, rec, p, n) && !Removed(have, rec, p, n)
  {
    ListingHolds(lists[n], files, p);
    if p in files {
      assert Load(st).files[n][p] == files[p];
    }
  }

  lemma SettledSets(lists: Lists, st: Stored, files: map<Path, Sum>, p: Path)
    requires Settled(lists, st, files)
    ensures var have, rec := Indexing(lists), Load(st);
      && ChangedOn(have, rec, p) == {} && UnsyncedOn(have, rec, p) == {}
      && KeptOn(have, rec, p) == (if p in files then lists.Keys else {})
      && (p in files ==> !Deleted(have, rec, p))
  {
    forall n | n in lists {
      SettledAt(lists, st, files, p, n);
    }
  }

  /** The fate of every path in a settled folder. */
  lemma SettledFate(lists: Lists, st: Stored, files: map<Path, Sum>, p: Path)
    requires Settled(lists, st, files)
    ensures var have, rec := Indexing(lists), Load(st);
      && (Decide(have, rec, p).Keep? <==> p in files) && !IsConflict(have, rec, p)
      && (p in files ==> WinSum(have, rec, p) == files[p])
  {
    SettledSets(lists, st, files, p);
    assert p in files ==> lists.Keys != {};
    if p in files {
      SettledAt(lists, st, files, p, Decide(Indexing(lists), Load(st), p).win);
    }
  }

  lemma SettledFile(v: Planned, lists: Lists, st: Stored, files: map<Path, Sum>, p: Path)
    requires IsMerge(v, lists, Load(st)) && Settled(lists, st, files)
    ensures SameEntry(v.files, files, p) && p !in v.conflicts
  {
    SettledFate(lists, st, files, p);
  }

  lemma SettledFiles(v: Planned, lists: Lists, st: Stored, files: map<Path, Sum>)
    requires IsMerge(v, lists, Load(st)) && Settled(lists, st, files)
    ensures v.files == files
  {
    forall p {
      SettledFile(v, lists, st, files, p);
    }
    SameMaps(v.files, files);
  }

  lemma SettledCopies(v: Planned, lists: Lists, st: Stored, files: map<Path, Sum>)
    requires Settled(lists, st, files) && CopiesMerged(v, Indexing(lists), Load(st))
    ensures v.log == [] && forall from, path :: To(v.sends, from, path) == []
  {
    if v.log != [] {
      var s := v.log[0];
      assert s in v.log && Wanted(Indexing(lists), Load(st), s);
      SettledFate(lists, st, files, s.file.path);
      SettledAt(lists, st, files, s.file.path, s.to);
    }
    assert forall from, path :: To(v.sends, from, path) == Receivers(v.log, from, path);
  }

  lemma SettledDeletes(v: Planned, lists: Lists, st: Stored, files: map<Path, Sum>, n: Node)
    requires IsMerge(v, lists, Load(st)) && Settled(lists, st, files)
    ensures DeletesOn(v, n) == []
  {
    if DeletesOn(v, n) != [] {
      var p := DeletesOn(v, n)[0];
      DeletesMember(v, lists, Load(st), n, p);
      SettledFate(lists, st, files, p);
      if n in lists {
        ListingHolds(lists[n], files, p);
      }
    }
  }

  /**
   * Fixpoint: with the plan carried out and recorded, and no edits since, planning again asks
   * for nothing: no copy, no delete, no conflict, and the same files.
   */
  lemma Fixpoint(v: Planned, lists: Lists, st: Stored, files: map<Path, Sum>)
    requires IsMerge(v, lists, Load(st)) && Settled(lists, st, files)
    ensures v.files == files && v.log == [] && v.conflicts == []
    ensures forall n :: DeletesOn(v, n) == []
    ensures forall from, path :: To(v.sends, from, path) == []
  {
    SettledFiles(v, lists, st, files);
    if v.conflicts != [] {
      SettledFile(v, lists, st, files, v.conflicts[0]);
    }
    SettledCopies(v, lists, st, files);
    forall n {
      SettledDeletes(v, lists, st, files, n);
    }
  }

  /** A path kept or deleted by a plan is settled by saving it for all listed nodes. */
  lemma SaveSettles(v: Planned, lists: Lists, st: Stored, cluster: set<Node>, now: int)
    requires IsMerge(v, lists, Load(st))
    ensures var t := Save(st, true, lists.Keys, v.files, v.deleted, cluster, now);
      && (forall n :: n in lists ==> n in t.files && t.files[n] == v.files)
      && (forall q :: q in v.files ==> !IsPartial(q) && q !in t.markers)
  {
    IndexingKeyed(lists);
  }

  /**
   * Convergence and fixpoint together: carry the plan out on every listed node, save it, list
   * the folders again; the next plan is empty and keeps the same files.
   */
  lemma SyncThenNothing(v: Planned, lists: Lists, st: Stored, cluster: set<Node>, now: int, folders: map<Node, Sums>,
                        again: Lists, w: Planned)
    requires lists != map[] && IsMerge(v, lists, Load(st))
    requires folders.Keys == lists.Keys && forall n :: n in lists ==> IsListing(lists[n], folders[n])
    requires again.Keys == lists.Keys && forall n :: n in again ==> IsListing(again[n], After(v, n, folders[n]))
    requires IsMerge(w, again, Load(Save(st, true, lists.Keys, v.files, v.deleted, cluster, now)))
    ensures w.files == v.files && w.log == [] && w.conflicts == [] && forall n :: DeletesOn(w, n) == []
  {
    forall n | n in lists {
      Converges(v, lists, Load(st), n, folders[n]);
    }
    SaveSettles(v, lists, st, cluster, now);
    Fixpoint(w, again, Save(st, true, lists.Keys, v.files, v.deleted, cluster, now), v.files);
  }

  /** One later sync: who succeeded, and what it recorded. */
  datatype Saved = Saved(wanted: bool, synced: set<Node>, files: map<Path, Sum>, deleted: seq<Path>, now: int)

  function SaveAll(st: Stored, cluster: set<Node>, runs: seq<Saved>): Stored
    decreases |runs|
  {
    if runs == [] then st
    else SaveAll(Save(st, runs[0].wanted, runs[0].synced, runs[0].files, runs[0].deleted, cluster, runs[0].now),
                 cluster, runs[1..])
  }

  /**
   * A delete waits for a node that was away: however many syncs pass without it, as long as
   * none brings the path back, its marker and the node's old record stay.
   */
  lemma {:induction false} MarkerWaits(st: Stored, cluster: set<Node>, runs: seq<Saved>, p: Path, n: Node)
    requires n in cluster && p in st.markers && (n in st.syncedAt ==> st.syncedAt[n] < st.markers[p])
    requires forall r :: r in runs ==> n !in r.synced && p !in r.files
    ensures var t := SaveAll(st, cluster, runs);
      p in t.markers && t.markers[p] == st.markers[p] && (n in t.files <==> n in st.files) &&
        (n in st.files ==> t.files[n] == st.files[n])
    decreases |runs|
  {
    if runs != [] {
      var r := runs[0];
      assert r in runs;
      var t := Save(st, r.wanted, r.synced, r.files, r.deleted, cluster, r.now);
      if r.wanted {
        MarkedFacts(st.markers, r.deleted, r.now);
        assert SomeBehind(t.syncedAt, cluster, st.markers[p]);
      }
      MarkerWaits(t, cluster, runs[1..], p, n);
    }
  }

  /** So when it is listed again with its old copy, and nobody edited the path, the copy is deleted. */
  lemma LateNodeCatchesDelete(st: Stored, cluster: set<Node>, runs: seq<Saved>, p: Path, n: Node, v: Planned,
                              lists: Lists)
    requires n in cluster && p in st.markers && (n in st.syncedAt ==> st.syncedAt[n] < st.markers[p])
    requires forall r :: r in runs ==> n !in r.synced && p !in r.files
    requires n in lists && Holds(Indexing(lists), n, p)
    requires IsMerge(v, lists, Load(SaveAll(st, cluster, runs)))
    ensures p in DeletesOn(v, n) <==> ChangedOn(Indexing(lists), Load(SaveAll(st, cluster, runs)), p) == {}
  {
    MarkerWaits(st, cluster, runs, p, n);
    var rec := Load(SaveAll(st, cluster, runs));
    DeletesMember(v, lists, rec, n, p);
    IndexedFacts(lists[n]);
  }
}
