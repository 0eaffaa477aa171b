/** What a whole sync leaves behind: plan, run and record together. */
module SyncTheorems {
  import opened Transfer
  import opened Plans
  import opened CopyPhase
  import opened ReceiveRuns
  import opened SyncRuns
  import opened TwoWay
  import opened TwoWayPlanner
  import opened Folders
  import opened Subsequences
  import Receiver
  import WalFiles
  import T = TwoWayTheorems
  import B = BackupTheorems
  import M = BackupPlanner

  // ---------------------------------------------------------------- the run carries the plan out

  /** A folder as its checksums. */
  function SumsOf(h: Hash, f: Folder): Sums
    requires forall b :: IsSum(h(b))
  {
    map p | p in f :: h(f[p])
  }

  /** The listings are exact and no folder changes but by the run: a sender finds what was listed. */
  ghost predicate Steady(h: Hash, lists: Lists, folders: map<Node, Folder>, found: Finds) {
    && (forall b :: IsSum(h(b))) && lists.Keys <= folders.Keys
    && (forall n :: n in lists ==> IsListing(lists[n], SumsOf(h, folders[n])))
    && (forall n, p :: n in folders && p in folders[n] ==> found(n, p) == Contents(folders[n][p]))
  }

  /** Copies name listed files, and every leftover partial file is to be deleted. */
  ghost predicate Grounded(v: Planned, lists: Lists) {
    && (forall s :: s in v.log ==> s.from in lists && !IsPartial(s.file.path) && s.file in lists[s.from])
    && (forall n, p :: n in lists && p in PartialsOn(lists, n) ==> p in DeletesOn(v, n))
  }

  lemma MergeGrounded(v: Planned, lists: Lists, rec: Record)
    requires IsMerge(v, lists, rec)
    ensures Grounded(v, lists)
  {
    forall s | s in v.log
      ensures s.from in lists && !IsPartial(s.file.path) && s.file in lists[s.from]
    {
      T.CopiesAreSound(v, lists, rec, s);
      IndexedFacts(lists[s.from]);
    }
    forall n, p | n in lists && p in PartialsOn(lists, n)
      ensures p in DeletesOn(v, n)
    {
      T.DeletesMember(v, lists, rec, n, p);
    }
  }

  lemma MirrorGrounded(w: M.Naming, v: Planned, lists: Lists, source: Node, keep: Path -> bool)
    requires M.IsMirror(w, v, lists, source, keep) && source in lists
    ensures Grounded(v, lists)
  {
    forall s | s in v.log
      ensures s.from in lists && !IsPartial(s.file.path) && s.file in lists[s.from]
    {
      B.CopiesAreSound(w, v, lists, source, keep, s);
      IndexedFacts(lists[s.from]);
    }
    forall n, p | n in lists && p in PartialsOn(lists, n)
      ensures p in DeletesOn(v, n)
    {
      B.DeletesMember(w, v, lists, source, keep, n, p);
    }
  }

  /** Listed files under their folder, that don't change meanwhile, can all be delivered. */
  lemma SteadyDeliverable(h: Hash, v: Planned, lists: Lists, folders: map<Node, Folder>, found: Finds)
    requires Steady(h, lists, folders, found) && Grounded(v, lists)
    requires forall n, f :: n in lists && f in lists[n] ==> LocalPath(f.path)
    ensures Deliverable(v, found)
  {
    forall s | s in v.log
      ensures LocalPath(s.file.path) && found(s.from, s.file.path).Contents?
    {
      assert s.file in lists[s.from] && s.file.path in SumsOf(h, folders[s.from]);
    }
  }

  /** A file sent to `n` arrived with the checksum planned. */
  lemma SentAfter(h: Hash, v: Planned, lists: Lists, folders: map<Node, Folder>, found: Finds, n: Node, mid: Folder,
                  p: Path)
    requires Steady(h, lists, folders, found) && Grounded(v, lists) && p in Folders.Copied(v.log, n)
    requires forall s :: s in v.log && s.to == n ==> Receiver.Arrived(found(s.from, s.file.path), s.file.path, mid)
    ensures p in mid && h(mid[p]) == Folders.Copied(v.log, n)[p]
  {
    CopiedFacts(v.log, n, p);
    var s :| s in v.log && s.to == n && s.file.path == p && Folders.Copied(v.log, n)[p] == s.file.sha;
    assert Receiver.Arrived(found(s.from, p), p, mid);
    assert p in SumsOf(h, folders[s.from]) && SumsOf(h, folders[s.from])[p] == s.file.sha;
  }

  /** What a success means for one file: sent, leftover or untouched. */
  lemma SumAfter(h: Hash, v: Planned, lists: Lists, folders: map<Node, Folder>, found: Finds, n: Node, mid: Folder,
                 p: Path)
    requires Steady(h, lists, folders, found) && Grounded(v, lists) && n in lists
    requires Spared(v, n, folders[n], mid) && AllArrived(v, n, found, folders[n], mid)
    ensures SameEntry(SumsOf(h, mid - (set q | q in DeletesOn(v, n))), After(v, n, SumsOf(h, folders[n])), p)
  {
    AfterEntry(v, n, SumsOf(h, folders[n]), p);
    if p in Folders.Copied(v.log, n) {
      SentAfter(h, v, lists, folders, found, n, mid, p);
    } else if IsPartial(p) {
      ListingHolds(lists[n], SumsOf(h, folders[n]), p);
    } else {
      CopiedFacts(v.log, n, p);
      assert !SentThere(v, n, p);
      assert SameAt(folders[n], mid, p);
    }
  }

  /** A node for which the run succeeded holds just what carrying out the plan makes of its folder. */
  lemma SuccessCarriesOut(h: Hash, v: Planned, lists: Lists, folders: map<Node, Folder>, found: Finds, able: set<Node>,
                          o: Outcome, n: Node)
    requires Steady(h, lists, folders, found) && Grounded(v, lists)
    requires RunResult(v, found, folders, able, o) && n in lists && n !in o.failed
    ensures SumsOf(h, o.after[n]) == After(v, n, SumsOf(h, folders[n]))
  {
    assert NodeResult(v, n, found, folders[n], o.moments[n], o.mids[n], o.deleting[n], o.after[n], n !in o.copyFailed,
                      n !in o.failed);
    forall p
      ensures SameEntry(SumsOf(h, o.after[n]), After(v, n, SumsOf(h, folders[n])), p)
    {
      SumAfter(h, v, lists, folders, found, n, o.mids[n], p);
    }
    SameMaps(SumsOf(h, o.after[n]), After(v, n, SumsOf(h, folders[n])));
  }

  // ---------------------------------------------------------------- no loss

  /** A copy's sender is never sent that file. */
  lemma WinnerNotSent(v: Planned, lists: Lists, rec: Record, p: Path)
    requires IsMerge(v, lists, rec) && p in v.files
    ensures var n := Decide(Indexing(lists), rec, p).win;
      n in lists && !SentThere(v, n, p) && p !in DeletesOn(v, n) && !IsPartial(p)
  {
    var have := Indexing(lists);
    var n := Decide(have, rec, p).win;
    IndexedFacts(lists[n]);
    T.KeptNotDeleted(v, lists, rec, n, p);
    forall s | s in v.log && s.file.path == p
      ensures s.to != n
    {
      assert TwoWayPlanner.Wanted(have, rec, s);
    }
  }

  /**
   * No loss: whatever fails and whenever the run stops, the version chosen for every kept
   * path is still held, unchanged, by the node it was chosen from.
   */
  lemma WinnerNeverLost(v: Planned, lists: Lists, rec: Record, found: Finds, folders: map<Node, Folder>,
                        able: set<Node>, o: Outcome, p: Path)
    requires IsMerge(v, lists, rec) && p in v.files && lists.Keys <= folders.Keys
    requires RunResult(v, found, folders, able, o)
    ensures var n := Decide(Indexing(lists), rec, p).win;
      && n in lists && (forall d :: d in o.moments[n] || d in o.deleting[n] ==> SameAt(folders[n], d, p))
      && SameAt(folders[n], o.mids[n], p) && SameAt(folders[n], o.after[n], p)
  {
    WinnerNotSent(v, lists, rec, p);
    KeptThroughout(v, found, folders, able, o, Decide(Indexing(lists), rec, p).win, p);
  }

  /** The same of a backup sync: the node each wanted file comes from keeps it throughout. */
  lemma ProviderNeverLost(w: M.Naming, v: Planned, lists: Lists, source: Node, keep: Path -> bool, found: Finds,
                          folders: map<Node, Folder>, able: set<Node>, o: Outcome, p: Path)
    requires M.IsMirror(w, v, lists, source, keep) && M.Wanted(w, Indexing(lists), source, keep, p) && source in lists
    requires lists.Keys <= folders.Keys && RunResult(v, found, folders, able, o)
    ensures var n := B.Provider(w, Indexing(lists), source, keep, p);
      && n in lists && (forall d :: d in o.moments[n] || d in o.deleting[n] ==> SameAt(folders[n], d, p))
      && SameAt(folders[n], o.mids[n], p) && SameAt(folders[n], o.after[n], p)
  {
    var n := B.Provider(w, Indexing(lists), source, keep, p);
    ProviderNotSent(w, v, lists, source, keep, p);
    KeptThroughout(v, found, folders, able, o, n, p);
  }

  lemma ProviderNotSent(w: M.Naming, v: Planned, lists: Lists, source: Node, keep: Path -> bool, p: Path)
    requires M.IsMirror(w, v, lists, source, keep) && M.Wanted(w, Indexing(lists), source, keep, p) && source in lists
    ensures var n := B.Provider(w, Indexing(lists), source, keep, p);
      n in lists && !SentThere(v, n, p) && p !in DeletesOn(v, n) && !IsPartial(p)
  {
    var n := B.Provider(w, Indexing(lists), source, keep, p);
    B.WantedNotPartial(w, lists, source, keep, p);
    IndexingKeyed(lists);
    B.CopiedAt(w, v, Indexing(lists), source, keep, n, p);
    CopiedFacts(v.log, n, p);
    B.DeletesMember(w, v, lists, source, keep, n, p);
    IndexedFacts(lists[n]);
  }

  // ---------------------------------------------------------------- whole runs

  /** Convergence of a run: each node that succeeded holds exactly the merge, no other path, no partial file. */
  lemma RunConverges(h: Hash, v: Planned, lists: Lists, rec: Record, folders: map<Node, Folder>, found: Finds,
                     able: set<Node>, o: Outcome, n: Node)
    requires IsMerge(v, lists, rec) && Steady(h, lists, folders, found)
    requires RunResult(v, found, folders, able, o) && n in lists && n !in o.failed
    ensures SumsOf(h, o.after[n]) == v.files
  {
    MergeGrounded(v, lists, rec);
    SuccessCarriesOut(h, v, lists, folders, found, able, o, n);
    T.Converges(v, lists, rec, n, SumsOf(h, folders[n]));
  }

  lemma SavedAt(st: T.Stored, wanted: bool, synced: set<Node>, files: map<Path, Sum>, deleted: seq<Path>,
                cluster: set<Node>, now: int, n: Node)
    ensures var t := T.Save(st, wanted, synced, files, deleted, cluster, now);
      if n in synced then wanted ==> n in t.files && t.files[n] == files
      else (n in t.files <==> n in st.files) && (n in st.files ==> t.files[n] == st.files[n])
  {
  }

  /**
   * The record after a run tells the truth: a node that succeeded is on record with just what
   * it holds; one that failed, at any point, keeps its old record.
   */
  lemma RecordTells(h: Hash, v: Planned, lists: Lists, st: T.Stored, folders: map<Node, Folder>, found: Finds,
                    able: set<Node>, o: Outcome, wanted: bool, cluster: set<Node>, now: int, n: Node)
    requires IsMerge(v, lists, T.Load(st)) && Steady(h, lists, folders, found) && able <= lists.Keys
    requires RunResult(v, found, folders, able, o) && n in folders
    ensures var t := T.Save(st, wanted, folders.Keys - o.failed, v.files, v.deleted, cluster, now);
      if n in o.failed then (n in t.files <==> n in st.files) && (n in st.files ==> t.files[n] == st.files[n])
      else n in lists && (wanted ==> n in t.files && t.files[n] == SumsOf(h, o.after[n]))
  {
    SavedAt(st, wanted, folders.Keys - o.failed, v.files, v.deleted, cluster, now, n);
    assert NodeResult(v, n, found, folders[n], o.moments[n], o.mids[n], o.deleting[n], o.after[n], n !in o.copyFailed,
                      n !in o.failed);
    if n !in o.failed {
      RunConverges(h, v, lists, T.Load(st), folders, found, able, o, n);
    }
  }

  function AllSums(h: Hash, lists: Lists, folders: map<Node, Folder>): map<Node, Sums>
    requires (forall b :: IsSum(h(b))) && lists.Keys <= folders.Keys
  {
    map n | n in lists :: SumsOf(h, folders[n])
  }

  /** A backup run that succeeded on `n`: its folder is what the plan makes of it. */
  lemma BackupCarriesOut(h: Hash, w: M.Naming, v: Planned, lists: Lists, source: Node, keep: Path -> bool,
                         folders: map<Node, Folder>, found: Finds, able: set<Node>, o: Outcome, n: Node)
    requires M.IsMirror(w, v, lists, source, keep) && Steady(h, lists, folders, found) && source in lists
    requires RunResult(v, found, folders, able, o) && n in lists && n !in o.failed
    ensures B.AsListed(lists, AllSums(h, lists, folders))
    ensures SumsOf(h, o.after[n]) == After(v, n, AllSums(h, lists, folders)[n])
  {
    MirrorGrounded(w, v, lists, source, keep);
    SuccessCarriesOut(h, v, lists, folders, found, able, o, n);
    SteadyListed(h, lists, folders, found);
  }

  lemma SteadyListed(h: Hash, lists: Lists, folders: map<Node, Folder>, found: Finds)
    requires Steady(h, lists, folders, found)
    ensures B.AsListed(lists, AllSums(h, lists, folders))
  {
    var sums := AllSums(h, lists, folders);
    forall n | n in lists
      ensures IsListing(lists[n], sums[n])
    {
    }
  }

  /** A backup run: the main server ends with its own files, untouched, plus the WAL gathered. */
  lemma RunGathers(h: Hash, w: M.Naming, v: Planned, lists: Lists, source: Node, keep: Path -> bool,
                   folders: map<Node, Folder>, found: Finds, able: set<Node>, o: Outcome, p: Path)
    requires M.IsMirror(w, v, lists, source, keep) && Steady(h, lists, folders, found) && source in lists
    requires RunResult(v, found, folders, able, o) && source !in o.failed
    ensures var main, before := SumsOf(h, o.after[source]), SumsOf(h, folders[source]);
      && (p in main <==> (p in before && !IsPartial(p)) || M.Gathered(w, Indexing(lists), source, keep, p))
      && (p in before && !IsPartial(p) ==> main[p] == before[p])
  {
    BackupCarriesOut(h, w, v, lists, source, keep, folders, found, able, o, source);
    B.MainServerResult(w, v, lists, source, keep, AllSums(h, lists, folders), p);
  }

  /** And every other node that succeeded equals it, but for conflicted segments it already held. */
  lemma RunMirrors(h: Hash, w: M.Naming, v: Planned, lists: Lists, source: Node, keep: Path -> bool,
                   folders: map<Node, Folder>, found: Finds, able: set<Node>, o: Outcome, n: Node, p: Path)
    requires M.IsMirror(w, v, lists, source, keep) && Steady(h, lists, folders, found) && source in lists && n in lists
    requires RunResult(v, found, folders, able, o) && n !in o.failed && source !in o.failed
    ensures
      if M.Frozen(w, Indexing(lists), n, p) && !IsPartial(p)
        then SameEntry(SumsOf(h, o.after[n]), SumsOf(h, folders[n]), p)
      else SameEntry(SumsOf(h, o.after[n]), SumsOf(h, o.after[source]), p)
  {
    BackupCarriesOut(h, w, v, lists, source, keep, folders, found, able, o, n);
    BackupCarriesOut(h, w, v, lists, source, keep, folders, found, able, o, source);
    B.MirrorResult(w, v, lists, source, keep, AllSums(h, lists, folders), n, p);
  }

  /** What a plan needs of a node's disk. */
  predicate Fits(bytes: map<Node, nat>, free: map<Node, nat>, n: Node) {
    n !in bytes || bytes[n] == 0 || (n in free && bytes[n] <= free[n])
  }

  function Able(lists: Lists, bytes: map<Node, nat>, free: map<Node, nat>): set<Node> {
    set n | n in lists && Fits(bytes, free, n)
  }

  /** A node may receive exactly if it was listed and the files it is sent have room there, all together. */
  lemma AbleExactly(v: Planned, lists: Lists, free: map<Node, nat>, n: Node)
    requires Conserved(v)
    ensures n in Able(lists, v.bytes, free) <==> n in lists && HasRoom(v, free, n)
  {
    assert BytesTo(v, n) == TotalSize(SentTo(v.log, n));
  }

  /** The files planned for `n` are no larger than the room it has (none, if it isn't known). */
  predicate HasRoom(v: Planned, free: map<Node, nat>, n: Node) {
    TotalSize(SentTo(v.log, n)) <= if n in free then free[n] else 0
  }

  lemma MergeDeliverable(v: Planned, lists: Lists, rec: Record)
    requires IsMerge(v, lists, rec)
    ensures Conserved(v) && OncePerPath(v.log) && NoDoubles(v.sends)
    ensures forall s :: s in v.log ==> !IsPartial(s.file.path)
  {
    MergeGrounded(v, lists, rec);
    forall from, p
      ensures Distinct(To(v.sends, from, p))
    {
      assert To(v.sends, from, p) == Receivers(v.log, from, p);
      ReceiversDistinct(v.log, from, p);
    }
  }

  lemma MirrorDeliverable(w: M.Naming, v: Planned, lists: Lists, source: Node, keep: Path -> bool)
    requires M.IsMirror(w, v, lists, source, keep) && source in lists
    ensures Conserved(v) && OncePerPath(v.log) && NoDoubles(v.sends)
    ensures forall s :: s in v.log ==> !IsPartial(s.file.path)
  {
    MirrorGrounded(w, v, lists, source, keep);
    forall from, p
      ensures Distinct(To(v.sends, from, p))
    {
      assert To(v.sends, from, p) == Receivers(v.log, from, p);
      ReceiversDistinct(v.log, from, p);
    }
  }

  /**
   * The listings a backup sync works with: those of nodes that passed the path test, and the
   * main server's only with its retention known.
   */
  function Entrants(lists: Lists, passing: set<Node>, source: Node, retention: Option<Path -> bool>): Lists {
    lists - (lists.Keys - passing) - (if retention.None? then {source} else {})
  }

  /**
   * A whole backup sync. `passing` are the nodes that passed the path test, `retention` what the
   * main server keeps, if it could be read. Without the main server nothing is done.
   */
  method BackupSync(h: Hash, listed: Lists, passing: set<Node>, source: Node, retention: Option<Path -> bool>,
                    folders: map<Node, Folder>, free: map<Node, nat>, w: World)
    returns (after: map<Node, Folder>, failed: set<Node>, ghost v: Planned, ghost o: Outcome)
    requires Plausible(h, w) && listed.Keys <= folders.Keys
    ensures source !in listed || source !in passing || retention.None? ==> after == folders && failed == folders.Keys
    ensures source in listed && source in passing && retention.Some? ==>
      var lists := Entrants(listed, passing, source, retention);
      && M.IsMirror(M.REPOSITORY, v, lists, source, retention.value) && o.after == after && o.failed == failed
      && failed <= folders.Keys
      && RunResult(v, w.found, folders, Able(lists, v.bytes, free), o)
      && AllContacted(w, v, o.mids, o.copyFailed) && SentInOrder(WalFiles.IsIndexFile, o.orders)
      && (SmoothWorld(h, w) && Deliverable(v, w.found) ==> failed == folders.Keys - Able(lists, v.bytes, free))
  {
    var lists := Entrants(listed, passing, source, retention);
    if source !in lists {
      v, o := EMPTY, Outcome(folders, folders.Keys, folders, folders.Keys, map[], map[], map[]);
      return folders, folders.Keys, v, o;
    }
    var p := M.BackupPlan(lists, source, retention.value);
    v := p.View();
    MirrorDeliverable(M.REPOSITORY, v, lists, source, retention.value);
    var able := Able(lists, p.bytes, free);
    after, failed, o := CarryOut(h, p, folders, able, WalFiles.IsIndexFile, w);
  }

  /** How the record's storage answers: whether it could be read, and then saved to. */
  datatype Storage = Storage(loads: bool, saves: bool)

  /**
   * A whole two-way sync of the listed nodes: plan, copy, delete, record. With none listed, or
   * no record to plan from, nothing is done. If the record can't be saved, every node has failed.
   */
  method TwoWaySync(h: Hash, lists: Lists, st: T.Stored, folders: map<Node, Folder>, free: map<Node, nat>, w: World,
                    storage: Storage, wanted: bool, cluster: set<Node>, now: int)
    returns (after: map<Node, Folder>, failed: set<Node>, t: T.Stored, ghost v: Planned, ghost o: Outcome)
    requires Plausible(h, w) && lists.Keys <= folders.Keys
    ensures lists == map[] || !storage.loads ==> after == folders && failed == folders.Keys && t == st
    ensures lists != map[] && storage.loads ==>
      && IsMerge(v, lists, T.Load(st)) && o.after == after && o.failed <= folders.Keys
      && RunResult(v, w.found, folders, Able(lists, v.bytes, free), o)
      && AllContacted(w, v, o.mids, o.copyFailed) && SentInOrder(WalFiles.IsIndexFile, o.orders)
      && failed == (if storage.saves then o.failed else folders.Keys)
      && t == (if storage.saves then T.Save(st, wanted, folders.Keys - failed, v.files, v.deleted, cluster, now)
        else st)
      && (SmoothWorld(h, w) && Deliverable(v, w.found) ==> o.failed == folders.Keys - Able(lists, v.bytes, free))
  {
    if lists == map[] || !storage.loads {
      v, o := EMPTY, Outcome(folders, folders.Keys, folders, folders.Keys, map[], map[], map[]);
      return folders, folders.Keys, st, v, o;
    }
    var p := TwoWayPlan(lists, T.Load(st));
    v := p.View();
    MergeDeliverable(v, lists, T.Load(st));
    var able := Able(lists, p.bytes, free);
    after, failed, o := CarryOut(h, p, folders, able, WalFiles.IsIndexFile, w);
    if storage.saves {
      t := T.Save(st, wanted, folders.Keys - failed, p.files, p.deleted, cluster, now);
    } else {
      failed, t := folders.Keys, st;
    }
  }
}
