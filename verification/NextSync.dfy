/**
 * The sync after one in which some nodes failed: exactly when it keeps what the first one
 * chose, and a run of syncs in which it doesn't.
 */
module NextSync {
  import opened Transfer
  import opened Plans
  import opened TwoWay
  import opened TwoWayPlanner
  import opened Folders
  import T = TwoWayTheorems

  /**
   * A sync ended: `ok` are the nodes it succeeded on, now holding `files`; `again` lists what
   * every node holds since.
   */
  ghost predicate Ended(st: T.Stored, ok: set<Node>, files: map<Path, Sum>, again: Lists, now: int) {
    && ok != {} && ok <= again.Keys && (forall n :: n in ok ==> IsListing(again[n], files))
    && 0 < now && (forall n :: n in st.syncedAt ==> st.syncedAt[n] < now)
    && (forall p :: p in files ==> !IsPartial(p))
  }

  /** Some node that didn't succeed has this version on record. */
  predicate StillOnRecord(st: T.Stored, ok: set<Node>, p: Path, sum: string) {
    exists m :: m in st.files && m !in ok && p in st.files[m] && st.files[m][p] == sum
  }

  /**
   * A node with a record on which the sync failed still has, at `p`, a version that neither
   * won nor is on record elsewhere, or lacks the file though its record has it.
   */
  predicate Overrules(st: T.Stored, ok: set<Node>, files: map<Path, Sum>, have: Have, p: Path, n: Node)
    requires p in files
  {
    && n in have && n !in ok && n in st.files
    && if p in have[n] then have[n][p].sha != files[p] && !StillOnRecord(st, ok, p, have[n][p].sha)
      else p in st.files[n]
  }

  function Next(st: T.Stored, ok: set<Node>, v: Planned, cluster: set<Node>, now: int): T.Stored {
    T.Save(st, true, ok, v.files, v.deleted, cluster, now)
  }

  lemma KnownNext(st: T.Stored, ok: set<Node>, v: Planned, cluster: set<Node>, now: int, p: Path, sum: string)
    requires p in v.files && ok != {}
    ensures Known(T.Load(Next(st, ok, v, cluster, now)), p, sum) <==> sum == v.files[p] || StillOnRecord(st, ok, p, sum)
  {
    var t := Next(st, ok, v, cluster, now);
    var k :| k in ok;
    assert k in t.files && t.files[k] == v.files;
    if Known(T.Load(t), p, sum) {
      var m :| m in t.files && p in t.files[m] && t.files[m][p] == sum;
      assert m !in ok ==> m in st.files && st.files[m] == t.files[m];
    }
    if m :| m in st.files && m !in ok && p in st.files[m] && st.files[m][p] == sum {
      assert m in t.files && t.files[m] == st.files[m];
    }
  }

  /** A node where the sync succeeded neither changed nor removed the file. */
  lemma SucceededKeeps(st: T.Stored, ok: set<Node>, v: Planned, cluster: set<Node>, now: int, again: Lists, p: Path,
                       n: Node)
    requires Ended(st, ok, v.files, again, now) && p in v.files && n in ok
    ensures var have, rec := Indexing(again), T.Load(Next(st, ok, v, cluster, now));
      Kept(have, rec, p, n) && have[n][p].sha == v.files[p] && At(rec.syncedAt, n) == now
  {
    ListingHolds(again[n], v.files, p);
    KnownNext(st, ok, v, cluster, now, p, v.files[p]);
  }

  /** How each node's copy is classified by the next sync. */
  lemma NextClass(st: T.Stored, ok: set<Node>, v: Planned, cluster: set<Node>, now: int, again: Lists, p: Path, n: Node)
    requires Ended(st, ok, v.files, again, now) && p in v.files && n in again
    ensures var have, rec := Indexing(again), T.Load(Next(st, ok, v, cluster, now));
      && (Changed(have, rec, p, n) <==> Overrules(st, ok, v.files, have, p, n) && p in have[n])
      && (Removed(have, rec, p, n) <==> Overrules(st, ok, v.files, have, p, n) && p !in have[n])
      && (n !in ok ==> At(rec.syncedAt, n) < now)
  {
    var have: Have := Indexing(again);
    if n in ok {
      SucceededKeeps(st, ok, v, cluster, now, again, p, n);
    } else if p in have[n] {
      KnownNext(st, ok, v, cluster, now, p, have[n][p].sha);
    }
  }

  /** The node whose record is newest wins when nothing changed: one on which the sync succeeded. */
  lemma NewestRecordWins(st: T.Stored, ok: set<Node>, v: Planned, cluster: set<Node>, now: int, again: Lists, p: Path)
    requires Ended(st, ok, v.files, again, now) && p in v.files
    requires KeptOn(Indexing(again), T.Load(Next(st, ok, v, cluster, now)), p) != {}
    ensures var have, rec := Indexing(again), T.Load(Next(st, ok, v, cluster, now));
      Top(rec.syncedAt, have, p, KeptOn(have, rec, p)) in ok
  {
    var have, rec := Indexing(again), T.Load(Next(st, ok, v, cluster, now));
    var s := KeptOn(have, rec, p);
    var top := Top(rec.syncedAt, have, p, s);
    var k :| k in ok;
    SucceededKeeps(st, ok, v, cluster, now, again, p, k);
    assert k in s && Rank(rec.syncedAt, VersionOf(have, k, p), VersionOf(have, top, p)) <= 0;
    NextClass(st, ok, v, cluster, now, again, p, top);
  }

  /** Overruled: another version wins, or the path is deleted. */
  lemma Overruled(st: T.Stored, ok: set<Node>, v: Planned, cluster: set<Node>, now: int, again: Lists, p: Path, n: Node)
    requires Ended(st, ok, v.files, again, now) && p in v.files && Overrules(st, ok, v.files, Indexing(again), p, n)
    ensures var have, rec := Indexing(again), T.Load(Next(st, ok, v, cluster, now));
      Decide(have, rec, p).Keep? ==> WinSum(have, rec, p) != v.files[p]
  {
    var have, rec := Indexing(again), T.Load(Next(st, ok, v, cluster, now));
    NextClass(st, ok, v, cluster, now, again, p, n);
    if ChangedOn(have, rec, p) != {} {
      var win := Decide(have, rec, p).win;
      assert win in ChangedOn(have, rec, p);
      NextClass(st, ok, v, cluster, now, again, p, win);
    } else {
      assert n !in ChangedOn(have, rec, p) && Removed(have, rec, p, n);
    }
  }

  /** Not overruled: nothing changed and nothing was removed. */
  lemma NotOverruled(st: T.Stored, ok: set<Node>, v: Planned, cluster: set<Node>, now: int, again: Lists, p: Path)
    requires Ended(st, ok, v.files, again, now) && p in v.files
    requires forall n :: !Overrules(st, ok, v.files, Indexing(again), p, n)
    ensures var have, rec := Indexing(again), T.Load(Next(st, ok, v, cluster, now));
      Decide(have, rec, p).Keep? && WinSum(have, rec, p) == v.files[p]
  {
    var have, rec := Indexing(again), T.Load(Next(st, ok, v, cluster, now));
    forall n | n in again
      ensures !Changed(have, rec, p, n) && !Removed(have, rec, p, n)
    {
      NextClass(st, ok, v, cluster, now, again, p, n);
    }
    assert ChangedOn(have, rec, p) == {} && !Deleted(have, rec, p);
    var k :| k in ok;
    SucceededKeeps(st, ok, v, cluster, now, again, p, k);
    assert k in KeptOn(have, rec, p);
    NewestRecordWins(st, ok, v, cluster, now, again, p);
    SucceededKeeps(st, ok, v, cluster, now, again, p, Decide(have, rec, p).win);
  }

  /**
   * The next sync keeps the version chosen if and only if no node on which the sync failed
   * overrules it. (So always when the sync succeeded everywhere.)
   */
  lemma ChoiceHolds(st: T.Stored, ok: set<Node>, v: Planned, cluster: set<Node>, now: int, again: Lists, w: Planned,
                    p: Path)
    requires Ended(st, ok, v.files, again, now) && p in v.files
    requires IsMerge(w, again, T.Load(Next(st, ok, v, cluster, now)))
    ensures (p in w.files && w.files[p] == v.files[p]) <==>
      !exists n :: Overrules(st, ok, v.files, Indexing(again), p, n)
  {
    if n :| Overrules(st, ok, v.files, Indexing(again), p, n) {
      Overruled(st, ok, v, cluster, now, again, p, n);
    } else {
      NotOverruled(st, ok, v, cluster, now, again, p);
    }
  }

  // ---------------------------------------------------------------- when that goes unreported

  /** The nodes that overrule the choice. */
  function Overrulers(st: T.Stored, ok: set<Node>, files: map<Path, Sum>, have: Have, p: Path): set<Node>
    requires p in files
  {
    set n | n in have && Overrules(st, ok, files, have, p, n)
  }

  /** The nodes `s` all hold the same version of the file, or all lack it. */
  predicate Agree(have: Have, p: Path, s: set<Node>) {
    forall n, m :: n in s && m in s ==>
      SumOn(have, n, p) == SumOn(have, m, p) && (Holds(have, n, p) <==> Holds(have, m, p))
  }

  /** How the next sync sees the nodes `over`, those that overrule the choice. */
  lemma NextSees(st: T.Stored, ok: set<Node>, v: Planned, cluster: set<Node>, now: int, again: Lists, p: Path)
    requires Ended(st, ok, v.files, again, now) && p in v.files
    ensures var have, rec := Indexing(again), T.Load(Next(st, ok, v, cluster, now));
      var over := Overrulers(st, ok, v.files, have, p);
      && KeptOn(have, rec, p) != {}
      && (Deleted(have, rec, p) <==> exists n :: n in over && !Holds(have, n, p))
      && (forall n :: n in ChangedOn(have, rec, p) <==> n in over && Holds(have, n, p))
  {
    var have, rec := Indexing(again), T.Load(Next(st, ok, v, cluster, now));
    var over := Overrulers(st, ok, v.files, have, p);
    forall n | n in have
      ensures Changed(have, rec, p, n) <==> n in over && Holds(have, n, p)
      ensures Removed(have, rec, p, n) <==> n in over && !Holds(have, n, p)
    {
      NextClass(st, ok, v, cluster, now, again, p, n);
    }
    var k :| k in ok;
    SucceededKeeps(st, ok, v, cluster, now, again, p, k);
    assert k in KeptOn(have, rec, p);
  }

  /** Of nodes that differ, an edit met another edit or a delete; of nodes that agree, not. */
  lemma AgreeMeans(have: Have, p: Path, over: set<Node>, changed: set<Node>)
    requires forall n :: n in changed <==> n in over && Holds(have, n, p)
    ensures Agree(have, p, over) <==>
      !(changed != {} && ((exists n :: n in over && !Holds(have, n, p)) || Differing(have, p, changed)))
  {
    if !Agree(have, p, over) {
      var n, m :| n in over && m in over
        && !(SumOn(have, n, p) == SumOn(have, m, p) && (Holds(have, n, p) <==> Holds(have, m, p)));
      assert n in changed || m in changed;
    }
  }

  /**
   * Exactly when the next sync undoes the choice in silence: if and only if some node overrules
   * it, and all that do agree, on one version or on having no file.
   */
  lemma UndoneInSilence(st: T.Stored, ok: set<Node>, v: Planned, cluster: set<Node>, now: int, again: Lists, w: Planned,
                        p: Path)
    requires Ended(st, ok, v.files, again, now) && p in v.files
    requires IsMerge(w, again, T.Load(Next(st, ok, v, cluster, now)))
    ensures var over := Overrulers(st, ok, v.files, Indexing(again), p);
      !(p in w.files && w.files[p] == v.files[p]) && p !in w.conflicts <==>
        over != {} && Agree(Indexing(again), p, over)
  {
    var have, rec := Indexing(again), T.Load(Next(st, ok, v, cluster, now));
    var over := Overrulers(st, ok, v.files, have, p);
    ChoiceHolds(st, ok, v, cluster, now, again, w, p);
    assert over != {} <==> exists n :: Overrules(st, ok, v.files, have, p, n) by {
      if n :| Overrules(st, ok, v.files, have, p, n) {
        assert n in over;
      }
    }
    T.ConflictsAreReal(w, again, rec, p);
    NextSees(st, ok, v, cluster, now, again, p);
    AgreeMeans(have, p, over, ChangedOn(have, rec, p));
  }

  // ---------------------------------------------------------------- an edit lost without a conflict

  const OLD: Sum := "a"
  const MID: Sum := "b"
  const NEW: Sum := "c"
  const DOC: Path := "f"

  function Doc(sum: Sum, mtime: int): seq<SyncFile> {
    [SyncFile(DOC, 1, sum, mtime)]
  }

  /** Two nodes, 1 and 2, listing one file each. */
  function Both(first: seq<SyncFile>, second: seq<SyncFile>): Lists {
    map[1 := first, 2 := second]
  }

  lemma DocIndexed(sum: Sum, mtime: int)
    ensures Indexed(Doc(sum, mtime)) == map[DOC := SyncFile(DOC, 1, sum, mtime)]
  {
    assert !IsPartial(DOC);
    assert Doc(sum, mtime)[..0] == [];
  }

  /** A record of both nodes that holds just DOC. */
  predicate OnlyDoc(rec: Record) {
    rec.deleted == {} && rec.files.Keys == {1, 2} && rec.files[1].Keys == {DOC} && rec.files[2].Keys == {DOC}
  }

  /** One node edited; the other holds a version on record. */
  lemma EditFate(have: Have, rec: Record, x: SyncFile, y: SyncFile)
    requires have == map[1 := map[DOC := x], 2 := map[DOC := y]] && OnlyDoc(rec)
    requires Known(rec, DOC, x.sha) != Known(rec, DOC, y.sha)
    ensures Decide(have, rec, DOC) == Keep(if Known(rec, DOC, y.sha) then 1 else 2, false)
  {
    var edited := if Known(rec, DOC, y.sha) then 1 else 2;
    assert forall n :: n in have ==> (Changed(have, rec, DOC, n) <==> n == edited);
    assert ChangedOn(have, rec, DOC) == {edited};
    assert !Deleted(have, rec, DOC);
  }

  lemma NoOtherFate(have: Have, rec: Record, x: SyncFile, y: SyncFile, p: Path)
    requires have == map[1 := map[DOC := x], 2 := map[DOC := y]] && OnlyDoc(rec) && p != DOC
    ensures Decide(have, rec, p) == Ignore
  {
    assert ChangedOn(have, rec, p) == {} && KeptOn(have, rec, p) == {} && UnsyncedOn(have, rec, p) == {};
  }

  /** The edit wins, and no conflict is reported. */
  lemma EditWins(v: Planned, x: Sum, s: int, y: Sum, t: int, rec: Record)
    requires IsMerge(v, Both(Doc(x, s), Doc(y, t)), rec) && OnlyDoc(rec)
    requires Known(rec, DOC, x) != Known(rec, DOC, y)
    ensures DOC in v.files && v.files[DOC] == (if Known(rec, DOC, y) then x else y) && v.conflicts == []
  {
    DocIndexed(x, s);
    DocIndexed(y, t);
    var have := Indexing(Both(Doc(x, s), Doc(y, t)));
    EditFate(have, rec, SyncFile(DOC, 1, x, s), SyncFile(DOC, 1, y, t));
    if v.conflicts != [] {
      var p := v.conflicts[0];
      assert IsConflict(have, rec, p);
      NoOtherFate(have, rec, SyncFile(DOC, 1, x, s), SyncFile(DOC, 1, y, t), p);
    }
  }

  /** What is stored once node 1 last recorded `first` at `at`, and node 2 recorded OLD at time 1. */
  function Apart(first: Sum, at: int): T.Stored {
    T.Stored(map[1 := map[DOC := first], 2 := map[DOC := OLD]], map[1 := at, 2 := 1], map[])
  }

  /** Node 2 failed: only node 1 records the outcome. */
  lemma OnlyFirstSaves(was: Sum, at: int, sum: Sum, now: int)
    ensures T.Save(Apart(was, at), true, {1}, map[DOC := sum], [], {1, 2}, now) == Apart(sum, now)
  {
    var t := T.Save(Apart(was, at), true, {1}, map[DOC := sum], [], {1, 2}, now);
    assert t.files == Apart(sum, now).files && t.syncedAt == Apart(sum, now).syncedAt && t.markers == map[];
  }

  lemma ApartKnows(first: Sum, at: int, sum: Sum)
    ensures OnlyDoc(T.Load(Apart(first, at)))
    ensures Known(T.Load(Apart(first, at)), DOC, sum) <==> sum == first || sum == OLD
  {
    var rec := T.Load(Apart(first, at));
    assert rec.files[1][DOC] == first && rec.files[2][DOC] == OLD;
  }

  /**
   * A node that fails twice can undo another's edit in silence. Both nodes start in step.
   * Node 1 edits the file; node 2 gets the edit but fails to finish, so its record stays old.
   * Node 1 edits again; node 2 fails before it gets that. Now no record knows node 2's copy,
   * so it passes for an edit: the third sync, with nothing edited since, puts it back over
   * node 1's, with no conflict reported at any point.
   */
  lemma EditUndoneInSilence(v1: Planned, v2: Planned, v3: Planned, st2: T.Stored, st3: T.Stored)
    requires IsMerge(v1, Both(Doc(MID, 10), Doc(OLD, 5)), T.Load(Apart(OLD, 1)))
    requires st2 == T.Save(Apart(OLD, 1), true, {1}, map[DOC := MID], [], {1, 2}, 2)
    requires IsMerge(v2, Both(Doc(NEW, 20), Doc(MID, 10)), T.Load(st2))
    requires st3 == T.Save(st2, true, {1}, map[DOC := NEW], [], {1, 2}, 3)
    requires IsMerge(v3, Both(Doc(NEW, 20), Doc(MID, 10)), T.Load(st3))
    ensures DOC in v1.files && v1.files[DOC] == MID && DOC in v2.files && v2.files[DOC] == NEW
    ensures DOC in v3.files && v3.files[DOC] == MID
    ensures v1.conflicts == v2.conflicts == v3.conflicts == []
  {
    ApartKnows(OLD, 1, OLD);
    ApartKnows(OLD, 1, MID);
    EditWins(v1, MID, 10, OLD, 5, T.Load(Apart(OLD, 1)));
    OnlyFirstSaves(OLD, 1, MID, 2);
    ApartKnows(MID, 2, MID);
    ApartKnows(MID, 2, NEW);
    EditWins(v2, NEW, 20, MID, 10, T.Load(st2));
    OnlyFirstSaves(MID, 2, NEW, 3);
    ApartKnows(NEW, 3, MID);
    ApartKnows(NEW, 3, NEW);
    EditWins(v3, NEW, 20, MID, 10, T.Load(st3));
  }
}
