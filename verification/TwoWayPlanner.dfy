/** The planner of a two-way sync: the loops that fill the plan, for any order of nodes and paths. */
module TwoWayPlanner {
  import opened Transfer
  import opened Subsequences
  import opened Plans
  import opened TwoWay
  import Text

  /** A copy the merge calls for. */
  ghost predicate Wanted(have: Have, rec: Record, s: Send) {
    var p := s.file.path;
    && Decide(have, rec, p).Keep? && s.from == Decide(have, rec, p).win
    && s.file == have[s.from][p]
    && s.to in have && SumOn(have, s.to, p) != s.file.sha
  }

  /** `l` sends `win` once to each node that doesn't hold its content. */
  ghost predicate Spread(l: seq<Send>, have: Have, p: Path, win: Version) {
    && (forall s :: s in l <==>
        s.from == win.node && s.file == win.file && s.to in have && SumOn(have, s.to, p) != win.file.sha)
    && (forall i, j :: 0 <= i < j < |l| ==> l[i].to != l[j].to)
  }

  method SendEverywhere(p: Plan, have: Have, path: Path, win: Version)
    requires Conserved(p.View())
    modifies p
    ensures OnlyCopies(old(p.View()), p.View())
    ensures Spread(p.log[|old(p.log)|..], have, path, win)
  {
    var todo := have.Keys;
    ghost var l: seq<Send> := [];
    while todo != {}
      invariant todo <= have.Keys
      invariant OnlyCopies(old(p.View()), p.View()) && p.log == old(p.log) + l
      invariant forall s :: s in l <==> s.from == win.node && s.file == win.file && s.to in have && s.to !in todo
                                        && SumOn(have, s.to, path) != win.file.sha
      invariant forall i, j :: 0 <= i < j < |l| ==> l[i].to != l[j].to
      decreases |todo|
    {
      var n :| n in todo;
      todo := todo - {n};
      if SumAt(have[n], path) != win.file.sha {
        CopyConserves(p.View(), win.node, n, win.file);
        p.Copy(win.node, n, win.file);
        l := l + [Send(win.node, n, win.file)];
      }
    }
    assert p.log[|old(p.log)|..] == l;
  }

  /** `w` is `v` with `path` deleted on each node of `have` that holds it and isn't in `todo`. */
  ghost predicate OnlyDeletes(v: Planned, w: Planned, have: Have, path: Path, todo: set<Node>) {
    && w == v.(deletes := w.deletes)
    && forall n :: DeletesOn(w, n) == DeletesOn(v, n) + if Holds(have, n, path) && n !in todo then [path] else []
  }

  method DeleteEverywhere(p: Plan, have: Have, path: Path)
    modifies p
    ensures OnlyDeletes(old(p.View()), p.View(), have, path, {})
  {
    var todo := have.Keys;
    while todo != {}
      invariant todo <= have.Keys && OnlyDeletes(old(p.View()), p.View(), have, path, todo)
      decreases |todo|
    {
      var n :| n in todo;
      todo := todo - {n};
      if path in have[n] {
        p.Delete(n, path);
      }
    }
  }

  /** What planning one path adds to the plan. */
  ghost predicate Effect(v: Planned, w: Planned, have: Have, rec: Record, path: Path) {
    match Decide(have, rec, path)
    case Ignore => w == v
    case Delete => OnlyDeletes(v.(deleted := v.deleted + [path]), w, have, path, {})
    case Keep(win, conflict) =>
      && OnlyCopies(v.(files := v.files[path := have[win][path].sha],
                       conflicts := if conflict then v.conflicts + [path] else v.conflicts), w)
      && Spread(w.log[|v.log|..], have, path, VersionOf(have, win, path))
  }

  method KeepPath(p: Plan, have: Have, rec: Record, path: Path, win: Version, conflict: bool)
    requires Conserved(p.View()) && Decide(have, rec, path) == Keep(win.node, conflict)
    requires win == VersionOf(have, win.node, path)
    modifies p
    ensures Conserved(p.View()) && Effect(old(p.View()), p.View(), have, rec, path)
  {
    if conflict {
      p.conflicts := p.conflicts + [path];
    }
    p.files := p.files[path := win.file.sha];
    assert Conserved(p.View());
    SendEverywhere(p, have, path, win);
  }

  method PlanPath(p: Plan, have: Have, rec: Record, path: Path)
    requires Conserved(p.View())
    modifies p
    ensures Conserved(p.View()) && Effect(old(p.View()), p.View(), have, rec, path)
  {
    var changed, kept, unsynced, deleted := Classify(have, rec, path);
    SetsMatch(have, rec, path, changed, kept, unsynced);
    if changed != [] {
      var win := MaxVersion(map[], changed);
      MaxIsTop(map[], have, path, changed, ChangedOn(have, rec, path), win);
      DifferIsDiffering(have, path, changed, ChangedOn(have, rec, path));
      var differ := Differ(changed);
      KeepPath(p, have, rec, path, win, deleted || differ);
    } else if deleted {
      p.deleted := p.deleted + [path];
      DeleteEverywhere(p, have, path);
    } else if kept != [] {
      var win := MaxVersion(rec.syncedAt, kept);
      MaxIsTop(rec.syncedAt, have, path, kept, KeptOn(have, rec, path), win);
      KeepPath(p, have, rec, path, win, false);
    } else if unsynced != [] {
      var win := MaxVersion(map[], unsynced);
      MaxIsTop(map[], have, path, unsynced, UnsyncedOn(have, rec, path), win);
      DifferIsDiffering(have, path, unsynced, UnsyncedOn(have, rec, path));
      var differ := Differ(unsynced);
      KeepPath(p, have, rec, path, win, differ);
    }
  }

  lemma SetsMatch(have: Have, rec: Record, p: Path, changed: seq<Version>, kept: seq<Version>, unsynced: seq<Version>)
    requires VersionsOf(have, p, changed, ChangedOn(have, rec, p))
    requires VersionsOf(have, p, kept, KeptOn(have, rec, p))
    requires VersionsOf(have, p, unsynced, UnsyncedOn(have, rec, p))
    ensures changed == [] <==> ChangedOn(have, rec, p) == {}
    ensures kept == [] <==> KeptOn(have, rec, p) == {}
    ensures unsynced == [] <==> UnsyncedOn(have, rec, p) == {}
  {
    NoneMatch(have, p, changed, ChangedOn(have, rec, p));
    NoneMatch(have, p, kept, KeptOn(have, rec, p));
    NoneMatch(have, p, unsynced, UnsyncedOn(have, rec, p));
  }

  lemma NoneMatch(have: Have, p: Path, vs: seq<Version>, s: set<Node>)
    requires VersionsOf(have, p, vs, s)
    ensures vs == [] <==> s == {}
  {
    if vs != [] {
      assert vs[0].node in s;
    }
  }

  // ---------------------------------------------------------------- the whole plan

  ghost predicate IsConflict(have: Have, rec: Record, p: Path) {
    Decide(have, rec, p).Keep? && Decide(have, rec, p).conflict
  }

  /** The log holds exactly the copies wanted for `done`, each once. */
  ghost predicate CopiesDone(v: Planned, have: Have, rec: Record, done: set<Path>) {
    && Conserved(v) && OncePerPath(v.log)
    && forall s :: s in v.log <==> s.file.path in done && Wanted(have, rec, s)
  }

  ghost predicate FilesDone(v: Planned, have: Have, rec: Record, done: set<Path>) {
    && (forall p :: p in v.files <==> p in done && Decide(have, rec, p).Keep?)
    && (forall p :: p in v.files ==> v.files[p] == WinSum(have, rec, p))
  }

  ghost predicate DeletedDone(v: Planned, have: Have, rec: Record, done: set<Path>) {
    Distinct(v.deleted) && forall p :: p in v.deleted <==> p in done && Decide(have, rec, p).Delete?
  }

  ghost predicate ConflictsDone(v: Planned, have: Have, rec: Record, done: set<Path>) {
    Distinct(v.conflicts) && forall p :: p in v.conflicts <==> p in done && IsConflict(have, rec, p)
  }

  /** On `n`: the partial files found there (as in `base`), then each deleted path it holds. */
  ghost predicate DeletesDone(base: Planned, v: Planned, have: Have, rec: Record, done: set<Path>, n: Node) {
    var b, d := DeletesOn(base, n), DeletesOn(v, n);
    && b <= d && Distinct(d[|b|..])
    && forall p :: p in d[|b|..] <==> p in done && Decide(have, rec, p).Delete? && Holds(have, n, p)
  }

  ghost predicate Progress(base: Planned, v: Planned, have: Have, rec: Record, done: set<Path>) {
    && CopiesDone(v, have, rec, done) && FilesDone(v, have, rec, done)
    && DeletedDone(v, have, rec, done) && ConflictsDone(v, have, rec, done)
    && forall n :: DeletesDone(base, v, have, rec, done, n)
  }

  lemma CopiesStep(v: Planned, w: Planned, have: Have, rec: Record, done: set<Path>, p: Path)
    requires WellKeyed(have) && CopiesDone(v, have, rec, done) && p !in done && Conserved(w)
    requires Effect(v, w, have, rec, p)
    ensures CopiesDone(w, have, rec, done + {p})
  {
    if Decide(have, rec, p).Keep? {
      var l := w.log[|v.log|..];
      assert w.log == v.log + l;
      forall s
        ensures s in w.log <==> s.file.path in done + {p} && Wanted(have, rec, s)
      {
        assert s in w.log <==> s in v.log || s in l;
      }
      forall i, j | 0 <= i < j < |w.log|
        ensures !(w.log[i].to == w.log[j].to && w.log[i].file.path == w.log[j].file.path)
      {
        if i < |v.log| {
          assert w.log[i] == v.log[i] && v.log[i] in v.log;
          if j >= |v.log| {
            assert w.log[j] == l[j - |v.log|] && l[j - |v.log|] in l;
          }
        } else {
          assert w.log[i] == l[i - |v.log|] && w.log[j] == l[j - |v.log|];
        }
      }
    } else {
      assert w.log == v.log;
      forall s: Send | s.file.path == p
        ensures !Wanted(have, rec, s)
      {
      }
    }
  }

  lemma FilesStep(v: Planned, w: Planned, have: Have, rec: Record, done: set<Path>, p: Path)
    requires FilesDone(v, have, rec, done) && p !in done && Effect(v, w, have, rec, p)
    ensures FilesDone(w, have, rec, done + {p})
  {
  }

  lemma DeletedStep(v: Planned, w: Planned, have: Have, rec: Record, done: set<Path>, p: Path)
    requires DeletedDone(v, have, rec, done) && p !in done && Effect(v, w, have, rec, p)
    ensures DeletedDone(w, have, rec, done + {p})
  {
    assert w.deleted == if Decide(have, rec, p).Delete? then v.deleted + [p] else v.deleted;
  }

  lemma ConflictsStep(v: Planned, w: Planned, have: Have, rec: Record, done: set<Path>, p: Path)
    requires ConflictsDone(v, have, rec, done) && p !in done && Effect(v, w, have, rec, p)
    ensures ConflictsDone(w, have, rec, done + {p})
  {
    assert w.conflicts == if IsConflict(have, rec, p) then v.conflicts + [p] else v.conflicts;
  }

  lemma DeletesStep(base: Planned, v: Planned, w: Planned, have: Have, rec: Record, done: set<Path>, p: Path, n: Node)
    requires DeletesDone(base, v, have, rec, done, n) && p !in done && Effect(v, w, have, rec, p)
    ensures DeletesDone(base, w, have, rec, done + {p}, n)
  {
    var b, d, e := DeletesOn(base, n), DeletesOn(v, n), DeletesOn(w, n);
    if Decide(have, rec, p).Delete? && Holds(have, n, p) {
      assert e == d + [p] && e[|b|..] == d[|b|..] + [p];
    } else {
      assert e == d;
    }
  }

  lemma ProgressStep(base: Planned, v: Planned, w: Planned, have: Have, rec: Record, done: set<Path>, p: Path)
    requires WellKeyed(have) && Progress(base, v, have, rec, done) && p !in done
    requires Conserved(w) && Effect(v, w, have, rec, p)
    ensures Progress(base, w, have, rec, done + {p})
  {
    CopiesStep(v, w, have, rec, done, p);
    FilesStep(v, w, have, rec, done, p);
    DeletedStep(v, w, have, rec, done, p);
    ConflictsStep(v, w, have, rec, done, p);
    forall n {
      DeletesStep(base, v, w, have, rec, done, p, n);
    }
  }

  // ---------------------------------------------------------------- the planner

  /** The plan of a two-way sync, up to the order in which copies were added. */
  ghost predicate IsMerge(v: Planned, lists: Lists, rec: Record) {
    var have := Indexing(lists);
    && CopiesMerged(v, have, rec) && FilesMerged(v, have, rec) && ListsMerged(v, have, rec)
    && forall n :: DeletesMerged(v, have, rec, PartialsOn(lists, n), n)
  }

  ghost predicate CopiesMerged(v: Planned, have: Have, rec: Record) {
    Conserved(v) && OncePerPath(v.log) && forall s :: s in v.log <==> Wanted(have, rec, s)
  }

  ghost predicate FilesMerged(v: Planned, have: Have, rec: Record) {
    && (forall p :: p in v.files <==> Decide(have, rec, p).Keep?)
    && (forall p :: p in v.files ==> v.files[p] == WinSum(have, rec, p))
  }

  ghost predicate ListsMerged(v: Planned, have: Have, rec: Record) {
    && Text.Sorted(v.deleted) && Distinct(v.deleted) && (forall p :: p in v.deleted <==> Decide(have, rec, p).Delete?)
    && Text.Sorted(v.conflicts) && Distinct(v.conflicts) && (forall p :: p in v.conflicts <==> IsConflict(have, rec, p))
  }

  /** `n` deletes its leftover partial files and each deleted path it holds, in sorted order. */
  ghost predicate DeletesMerged(v: Planned, have: Have, rec: Record, partials: seq<Path>, n: Node) {
    Text.Sorted(DeletesOn(v, n)) &&
      multiset(DeletesOn(v, n)) == multiset(partials) + multiset(DeletedHere(have, rec, n))
  }

  ghost function DeletedHere(have: Have, rec: Record, n: Node): set<Path> {
    if n in have then set p | p in have[n] && Decide(have, rec, p).Delete? else {}
  }

  function RecordedPaths(rec: Record, n: Node): set<Path> {
    if n in rec.files then rec.files[n].Keys else {}
  }

  /** `paths` are all the paths on a listed node, on a listed node's record or on a marker. */
  ghost predicate Covers(paths: set<Path>, have: Have, rec: Record) {
    && (forall n :: n in have ==> have[n].Keys <= paths && RecordedPaths(rec, n) <= paths)
    && rec.deleted <= paths
  }

  lemma UncoveredIgnored(paths: set<Path>, have: Have, rec: Record, p: Path)
    requires Covers(paths, have, rec) && p !in paths
    ensures Decide(have, rec, p).Ignore?
  {
    forall n | n in have
      ensures !Holds(have, n, p) && !Removed(have, rec, p, n)
    {
      assert p !in have[n].Keys && p !in RecordedPaths(rec, n);
    }
    assert ChangedOn(have, rec, p) == {};
    assert KeptOn(have, rec, p) == {};
    assert UnsyncedOn(have, rec, p) == {};
  }

  /** The listings outside `todo` are indexed, and `paths` covers them. */
  ghost predicate IndexedBut(v: Planned, have: Have, paths: set<Path>, lists: Lists, rec: Record, todo: set<Node>) {
    && todo <= lists.Keys && have == Indexing(lists) - todo
    && Covers(paths, have, rec) && IndexedOnly(v, lists, todo)
  }

  lemma IndexStep(v: Planned, have: Have, paths: set<Path>, lists: Lists, rec: Record, todo: set<Node>, n: Node)
    requires IndexedBut(v, have, paths, lists, rec, todo) && n in todo
    ensures var m := Indexed(lists[n]);
      IndexedBut(WithDeletes(v, n, Partials(lists[n])), have[n := m], paths + m.Keys + RecordedPaths(rec, n), lists,
                 rec, todo - {n})
  {
    IndexedOnlyStep(v, lists, todo, n);
    assert have[n := Indexed(lists[n])] == Indexing(lists) - (todo - {n});
  }

  /** Indexes every listing and collects the paths to look at. */
  method IndexAll(p: Plan, lists: Lists, rec: Record) returns (have: Have, paths: set<Path>)
    requires p.View() == EMPTY
    modifies p
    ensures IndexedBut(p.View(), have, paths, lists, rec, {})
  {
    have, paths := map[], rec.deleted;
    var todo := lists.Keys;
    assert Indexing(lists) - todo == map[];
    while todo != {}
      invariant IndexedBut(p.View(), have, paths, lists, rec, todo)
      decreases |todo|
    {
      var n :| n in todo;
      IndexStep(p.View(), have, paths, lists, rec, todo, n);
      var m := p.Index(n, lists[n]);
      have := have[n := m];
      paths := paths + m.Keys + RecordedPaths(rec, n);
      todo := todo - {n};
    }
  }

  /** Sorting hides the order in which paths were planned. */
  lemma SortedDeletes(base: Planned, v: Planned, w: Planned, have: Have, rec: Record, done: set<Path>,
                      partials: seq<Path>, n: Node)
    requires DeletesDone(base, v, have, rec, done, n) && Covers(done, have, rec) && DeletesOn(base, n) == partials
    requires w.deletes == map k | k in v.deletes :: Text.Sort(v.deletes[k])
    ensures DeletesMerged(w, have, rec, partials, n)
  {
    assert n in have ==> have[n].Keys <= done;
    Text.SortedTail(partials, DeletesOn(v, n), DeletedHere(have, rec, n));
    assert DeletesOn(w, n) == Text.Sort(DeletesOn(v, n));
  }

  method PlanPaths(p: Plan, have: Have, rec: Record, paths: set<Path>, ghost base: Planned)
    requires WellKeyed(have) && Progress(base, p.View(), have, rec, {})
    modifies p
    ensures Progress(base, p.View(), have, rec, paths)
  {
    var todo := paths;
    ghost var done: set<Path> := {};
    while todo != {}
      invariant forall x :: x in todo <==> x in paths && x !in done
      invariant done <= paths && Progress(base, p.View(), have, rec, done)
      decreases |todo|
    {
      var path :| path in todo;
      ghost var v := p.View();
      PlanPath(p, have, rec, path);
      ProgressStep(base, v, p.View(), have, rec, done, path);
      todo, done := todo - {path}, done + {path};
    }
    assert done == paths;
  }

  /**
   * The planner: whatever order nodes and paths are visited in, it returns the plan fixed by
   * `IsMerge`.
   */
  method TwoWayPlan(lists: Lists, rec: Record) returns (p: Plan)
    ensures fresh(p) && IsMerge(p.View(), lists, rec)
  {
    p := new Plan();
    var have, paths := IndexAll(p, lists, rec);
    ghost var base := p.View();
    assert have == Indexing(lists);
    IndexingKeyed(lists);
    NothingDone(base, have, rec);
    PlanPaths(p, have, rec, paths, base);
    ghost var v := p.View();
    p.SortDeletes();
    p.deleted := Text.Sort(p.deleted);
    p.conflicts := Text.Sort(p.conflicts);
    AllDone(base, v, p.View(), lists, rec, paths);
  }

  lemma NothingDone(base: Planned, have: Have, rec: Record)
    requires base == EMPTY.(deletes := base.deletes)
    ensures Progress(base, base, have, rec, {})
  {
    assert Conserved(base);
  }

  lemma AllDone(base: Planned, v: Planned, w: Planned, lists: Lists, rec: Record, paths: set<Path>)
    requires Progress(base, v, Indexing(lists), rec, paths) && Covers(paths, Indexing(lists), rec)
    requires IndexedOnly(base, lists, {})
    requires w == v.(deletes := map n | n in v.deletes :: Text.Sort(v.deletes[n]),
                     deleted := Text.Sort(v.deleted), conflicts := Text.Sort(v.conflicts))
    ensures IsMerge(w, lists, rec)
  {
    var have := Indexing(lists);
    CopiesAllDone(v, w, have, rec, paths);
    ListsAllDone(v, w, have, rec, paths);
    forall n
      ensures DeletesMerged(w, have, rec, PartialsOn(lists, n), n)
    {
      assert DeletesDone(base, v, have, rec, paths, n);
      SortedDeletes(base, v, w, have, rec, paths, PartialsOn(lists, n), n);
    }
  }

  lemma CopiesAllDone(v: Planned, w: Planned, have: Have, rec: Record, paths: set<Path>)
    requires CopiesDone(v, have, rec, paths) && FilesDone(v, have, rec, paths) && Covers(paths, have, rec)
    requires w == v.(deletes := w.deletes, deleted := w.deleted, conflicts := w.conflicts)
    ensures CopiesMerged(w, have, rec) && FilesMerged(w, have, rec)
  {
    forall p | p !in paths {
      UncoveredIgnored(paths, have, rec, p);
    }
    assert Conserved(w);
  }

  lemma ListsAllDone(v: Planned, w: Planned, have: Have, rec: Record, paths: set<Path>)
    requires DeletedDone(v, have, rec, paths) && ConflictsDone(v, have, rec, paths) && Covers(paths, have, rec)
    requires w.deleted == Text.Sort(v.deleted) && w.conflicts == Text.Sort(v.conflicts)
    ensures ListsMerged(w, have, rec)
  {
    forall p | p !in paths {
      UncoveredIgnored(paths, have, rec, p);
    }
    Text.SortedListing(v.deleted);
    Text.SortedListing(v.conflicts);
  }
}
