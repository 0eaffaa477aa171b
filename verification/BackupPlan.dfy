/** The one-way sync of a backup repository: gather WAL to the main server, then mirror it. */
module BackupPlanner {
  import opened Transfer
  import opened Subsequences
  import opened Plans
  import opened WalFiles
  import Text

  /**
   * How WAL files are named. Everything below holds for any naming; the repository's own is
   * `REPOSITORY`.
   */
  datatype Naming = Naming(isWal: Path -> bool, segment: Path -> string, isHistory: Path -> bool)

  const REPOSITORY: Naming := Naming(IsWal, WalSegment, IsHistory)

  // ---------------------------------------------------------------- what is asked for

  function HoldingOf(have: Have, n: Node): Holding {
    if n in have then have[n] else map[]
  }

  /** `n` holds `p`, a file of segment `seg`. */
  predicate HoldsWal(w: Naming, have: Have, n: Node, p: Path, seg: string) {
    Holds(have, n, p) && w.isWal(p) && w.segment(p) == seg
  }

  predicate HoldsSegment(w: Naming, have: Have, n: Node, seg: string) {
    exists p :: p in HoldingOf(have, n) && HoldsWal(w, have, n, p, seg)
  }

  /** One content of a WAL segment: the name it is stored under and its checksum. */
  datatype WalVersion = WalVersion(path: Path, sum: Sum)

  function SegmentVersions(w: Naming, m: Holding, seg: string): set<WalVersion> {
    set p | p in m && w.isWal(p) && w.segment(p) == seg :: WalVersion(p, m[p].sha)
  }

  ghost predicate HeldVersion(w: Naming, have: Have, seg: string, x: WalVersion) {
    exists n :: n in have && x in SegmentVersions(w, have[n], seg)
  }

  /** Two nodes were primary at once: the segment exists under two names or with two contents. */
  ghost predicate Conflicted(w: Naming, have: Have, seg: string) {
    exists x, y :: x != y && HeldVersion(w, have, seg, x) && HeldVersion(w, have, seg, y)
  }

  /** WAL the main server lacks that its retention still covers. */
  ghost predicate Gathered(w: Naming, have: Have, source: Node, keep: Path -> bool, p: Path) {
    && p !in HoldingOf(have, source) && w.isWal(p) && !Conflicted(w, have, w.segment(p)) && (w.isHistory(p) || keep(p))
    && exists n :: Holds(have, n, p)
  }

  /** A path every node should hold. */
  ghost predicate Wanted(w: Naming, have: Have, source: Node, keep: Path -> bool, p: Path) {
    p in HoldingOf(have, source) || Gathered(w, have, source, keep, p)
  }

  /** Whose version of a wanted path is used: the main server's, else the first holder's. */
  ghost predicate Provides(have: Have, source: Node, p: Path, n: Node) {
    if p in HoldingOf(have, source) then n == source
    else Holds(have, n, p) && forall m :: Holds(have, m, p) ==> n <= m
  }

  /** A conflicted segment is left as it is on a node that holds it. */
  ghost predicate Frozen(w: Naming, have: Have, n: Node, p: Path) {
    w.isWal(p) && HoldsSegment(w, have, n, w.segment(p)) && Conflicted(w, have, w.segment(p))
  }

  ghost predicate WantedCopy(w: Naming, have: Have, source: Node, keep: Path -> bool, s: Send) {
    var p := s.file.path;
    && Wanted(w, have, source, keep, p) && Provides(have, source, p, s.from) && Holds(have, s.from, p)
    && s.file == have[s.from][p]
    && s.to in have && SumAt(have[s.to], p) != s.file.sha && !Frozen(w, have, s.to, p)
  }

  /** A file a node other than the main server is to delete. */
  ghost predicate Unwanted(w: Naming, have: Have, source: Node, keep: Path -> bool, n: Node, p: Path) {
    && n != source && Holds(have, n, p) && !Wanted(w, have, source, keep, p)
    && !(w.isWal(p) && Conflicted(w, have, w.segment(p)))
  }

  ghost function UnwantedOn(w: Naming, have: Have, source: Node, keep: Path -> bool, n: Node): set<Path> {
    if n in have then set p | p in have[n] && Unwanted(w, have, source, keep, n, p) else {}
  }

  ghost predicate CopiesMirrored(w: Naming, v: Planned, have: Have, source: Node, keep: Path -> bool) {
    Conserved(v) && OncePerPath(v.log) && forall s :: s in v.log <==> WantedCopy(w, have, source, keep, s)
  }

  ghost predicate DeletesMirrored(w: Naming, v: Planned, have: Have, source: Node, keep: Path -> bool,
                                  partials: seq<Path>, n: Node) {
    Text.Sorted(DeletesOn(v, n)) &&
      multiset(DeletesOn(v, n)) == multiset(partials) + multiset(UnwantedOn(w, have, source, keep, n))
  }

  ghost predicate ConflictsListed(w: Naming, v: Planned, have: Have) {
    Text.Sorted(v.conflicts) && Distinct(v.conflicts) && forall seg :: seg in v.conflicts <==> Conflicted(w, have, seg)
  }

  /** The plan of a backup sync, up to the order in which copies were added. */
  ghost predicate IsMirror(w: Naming, v: Planned, lists: Lists, source: Node, keep: Path -> bool) {
    var have := Indexing(lists);
    && CopiesMirrored(w, v, have, source, keep) && ConflictsListed(w, v, have) && v.files == map[] && v.deleted == []
    && forall n :: DeletesMirrored(w, v, have, source, keep, PartialsOn(lists, n), n)
  }

  // ---------------------------------------------------------------- conflicts

  /** A version as text: its path and checksum. */
  function VersionKey(x: WalVersion): string {
    x.path + " " + x.sum
  }

  lemma OnlySpace(x: WalVersion)
    ensures VersionKey(x)[|x.path|] == ' ' && forall k :: |x.path| < k < |VersionKey(x)| ==> VersionKey(x)[k] != ' '
  {
    var a := VersionKey(x);
    assert a[|x.path| + 1..] == x.sum;
    forall k | |x.path| < k < |a|
      ensures a[k] != ' '
    {
      assert a[k] == x.sum[k - |x.path| - 1];
    }
  }

  /** A checksum has no space, so the text identifies the version. */
  lemma VersionKeyInjective(x: WalVersion, y: WalVersion)
    requires VersionKey(x) == VersionKey(y)
    ensures x == y
  {
    var a, b := VersionKey(x), VersionKey(y);
    OnlySpace(x);
    OnlySpace(y);
    assert x.path == a[..|x.path|] && y.path == b[..|y.path|];
    assert x.sum == a[|x.path| + 1..] && y.sum == b[|y.path| + 1..];
  }

  function Keys(s: set<WalVersion>): set<string> {
    set x | x in s :: VersionKey(x)
  }

  function VersionsOf(versions: map<string, set<string>>, seg: string): set<string> {
    if seg in versions then versions[seg] else {}
  }

  /** `versions` lists, as text, every version of every segment held by the nodes of `have`. */
  ghost predicate Versioned(w: Naming, versions: map<string, set<string>>, have: Have) {
    forall seg, key :: key in VersionsOf(versions, seg) <==>
      exists x :: HeldVersion(w, have, seg, x) && key == VersionKey(x)
  }

  lemma TwoKeys(vs: set<string>)
    ensures |vs| > 1 <==> exists a, b :: a != b && a in vs && b in vs
  {
    if |vs| > 1 {
      var a :| a in vs;
      assert |vs - {a}| > 0;
      var b :| b in vs - {a};
    }
    if a, b :| a != b && a in vs && b in vs {
      Bigger({a, b}, vs);
    }
  }

  lemma {:induction false} Bigger<T>(a: set<T>, b: set<T>)
    requires a <= b
    ensures |a| <= |b|
    decreases |a|
  {
    if a != {} {
      var x :| x in a;
      Bigger(a - {x}, b - {x});
    }
  }

  /** More than one version, counted as text, is a conflict. */
  lemma ManyVersionsConflict(w: Naming, versions: map<string, set<string>>, have: Have, seg: string)
    requires Versioned(w, versions, have)
    ensures |VersionsOf(versions, seg)| > 1 <==> Conflicted(w, have, seg)
  {
    var vs := VersionsOf(versions, seg);
    TwoKeys(vs);
    if a, b :| a != b && a in vs && b in vs {
      var x :| HeldVersion(w, have, seg, x) && a == VersionKey(x);
      var y :| HeldVersion(w, have, seg, y) && b == VersionKey(y);
      assert x != y;
    }
    if x, y :| x != y && HeldVersion(w, have, seg, x) && HeldVersion(w, have, seg, y) {
      assert VersionKey(x) in vs && VersionKey(y) in vs;
      if VersionKey(x) == VersionKey(y) {
        VersionKeyInjective(x, y);
      }
    }
  }

  // ---------------------------------------------------------------- reading the listings

  function Segments(w: Naming, m: Holding): set<string> {
    set p | p in m && w.isWal(p) :: w.segment(p)
  }

  lemma SegmentsStep(w: Naming, m: Holding, p: Path, f: SyncFile)
    requires p !in m
    ensures Segments(w, m[p := f]) == Segments(w, m) + if w.isWal(p) then {w.segment(p)} else {}
  {
    var big := m[p := f];
    forall seg | seg in Segments(w, m)
      ensures seg in Segments(w, big)
    {
      var q :| q in m && w.isWal(q) && w.segment(q) == seg;
      assert q in big;
    }
    if w.isWal(p) {
      assert p in big;
    }
  }

  lemma SegmentVersionsStep(w: Naming, m: Holding, p: Path, f: SyncFile, seg: string)
    requires p !in m
    ensures SegmentVersions(w, m[p := f], seg) ==
      SegmentVersions(w, m, seg) + if w.isWal(p) && w.segment(p) == seg then {WalVersion(p, f.sha)} else {}
  {
    var big := m[p := f];
    forall x | x in SegmentVersions(w, m, seg)
      ensures x in SegmentVersions(w, big, seg)
    {
      assert x.path in big;
    }
    if w.isWal(p) && w.segment(p) == seg {
      assert p in big;
    }
  }

  lemma KeysAdd(s: set<WalVersion>, x: WalVersion)
    ensures Keys(s + {x}) == Keys(s) + {VersionKey(x)}
  {
    forall y | y in s
      ensures VersionKey(y) in Keys(s + {x})
    {
      assert y in s + {x};
    }
    assert x in s + {x};
  }

  /** `versions` is `before` with the versions of the WAL of `m`. */
  ghost predicate WalAdded(w: Naming, before: map<string, set<string>>, versions: map<string, set<string>>,
                           m: Holding) {
    forall seg :: VersionsOf(versions, seg) == VersionsOf(before, seg) + Keys(SegmentVersions(w, m, seg))
  }

  lemma KeysStep(w: Naming, m: Holding, p: Path, f: SyncFile, seg: string)
    requires p !in m
    ensures Keys(SegmentVersions(w, m[p := f], seg)) ==
      Keys(SegmentVersions(w, m, seg)) + if w.isWal(p) && w.segment(p) == seg then {VersionKey(WalVersion(p, f.sha))}
        else {}
  {
    SegmentVersionsStep(w, m, p, f, seg);
    KeysAdd(SegmentVersions(w, m, seg), WalVersion(p, f.sha));
    assert SegmentVersions(w, m, seg) + {} == SegmentVersions(w, m, seg);
  }

  lemma WalAddedStep(w: Naming, before: map<string, set<string>>, versions: map<string, set<string>>, m: Holding,
                     p: Path, f: SyncFile, key: string)
    requires WalAdded(w, before, versions, m) && p !in m && w.isWal(p) && key == VersionKey(WalVersion(p, f.sha))
    ensures WalAdded(w, before, versions[w.segment(p) := VersionsOf(versions, w.segment(p)) + {key}], m[p := f])
  {
    var now := versions[w.segment(p) := VersionsOf(versions, w.segment(p)) + {key}];
    forall seg
      ensures VersionsOf(now, seg) == VersionsOf(before, seg) + Keys(SegmentVersions(w, m[p := f], seg))
    {
      KeysStep(w, m, p, f, seg);
      UnionStep(VersionsOf(before, seg), Keys(SegmentVersions(w, m, seg)), if w.segment(p) == seg then {key} else {});
    }
  }

  lemma UnionStep(a: set<string>, b: set<string>, c: set<string>)
    ensures a + b + c == a + (b + c) && a + b + {} == a + b
  {
  }

  lemma OtherAddedStep(w: Naming, before: map<string, set<string>>, versions: map<string, set<string>>, m: Holding,
                       p: Path, f: SyncFile)
    requires WalAdded(w, before, versions, m) && p !in m && !w.isWal(p)
    ensures WalAdded(w, before, versions, m[p := f])
  {
    forall seg
      ensures SegmentVersions(w, m[p := f], seg) == SegmentVersions(w, m, seg)
    {
      SegmentVersionsStep(w, m, p, f, seg);
    }
  }

  /** The versions and segments of the WAL of `m` are noted. */
  ghost predicate Noted(w: Naming, before: map<string, set<string>>, versions: map<string, set<string>>,
                        segs: set<string>, m: Holding) {
    WalAdded(w, before, versions, m) && segs == Segments(w, m)
  }

  lemma NotedStep(w: Naming, before: map<string, set<string>>, versions: map<string, set<string>>, segs: set<string>,
                  m: Holding, p: Path, f: SyncFile)
    requires Noted(w, before, versions, segs, m) && p !in m
    ensures var seg, key := w.segment(p), VersionKey(WalVersion(p, f.sha));
      if w.isWal(p) then Noted(w, before, versions[seg := VersionsOf(versions, seg) + {key}], segs + {seg}, m[p := f])
      else Noted(w, before, versions, segs, m[p := f])
  {
    SegmentsStep(w, m, p, f);
    if w.isWal(p) {
      WalAddedStep(w, before, versions, m, p, f, VersionKey(WalVersion(p, f.sha)));
    } else {
      OtherAddedStep(w, before, versions, m, p, f);
    }
  }

  /** Notes the versions and segments of one node's WAL, file by file in any order. */
  method AddWal(w: Naming, before: map<string, set<string>>, m: Holding)
    returns (versions: map<string, set<string>>, segs: set<string>)
    ensures WalAdded(w, before, versions, m) && segs == Segments(w, m)
  {
    versions, segs := before, {};
    var todo := m.Keys;
    assert m - todo == map[];
    ghost var done: Holding := map[];
    while todo != {}
      invariant todo <= m.Keys && done == m - todo && Noted(w, before, versions, segs, done)
      decreases |todo|
    {
      var path :| path in todo;
      assert m - (todo - {path}) == done[path := m[path]];
      NotedStep(w, before, versions, segs, done, path, m[path]);
      if w.isWal(path) {
        var seg, key := w.segment(path), VersionKey(WalVersion(path, m[path].sha));
        versions := versions[seg := (if seg in versions then versions[seg] else {}) + {key}];
        segs := segs + {seg};
      }
      todo, done := todo - {path}, done[path := m[path]];
    }
    assert m - todo == m;
  }

  /** The listings of the nodes not in `todo` are read. */
  ghost predicate ReadSome(w: Naming, v: Planned, have: Have, versions: map<string, set<string>>,
                           holds: map<Node, set<string>>, lists: Lists, todo: set<Node>) {
    && todo <= lists.Keys && have == Indexing(lists) - todo && IndexedOnly(v, lists, todo)
    && Versioned(w, versions, have)
    && holds.Keys == have.Keys && forall n :: n in have ==> holds[n] == Segments(w, have[n])
  }

  lemma VersionedStep(w: Naming, before: map<string, set<string>>, versions: map<string, set<string>>, have: Have,
                      n: Node, m: Holding)
    requires Versioned(w, before, have) && WalAdded(w, before, versions, m) && n !in have
    ensures Versioned(w, versions, have[n := m])
  {
    var big := have[n := m];
    forall seg, key
      ensures key in VersionsOf(versions, seg) <==> exists x :: HeldVersion(w, big, seg, x) && key == VersionKey(x)
    {
      HeldStep(w, have, n, m, seg);
      assert VersionsOf(versions, seg) == VersionsOf(before, seg) + Keys(SegmentVersions(w, m, seg));
      if key in VersionsOf(before, seg) {
        var x :| HeldVersion(w, have, seg, x) && key == VersionKey(x);
        assert HeldVersion(w, big, seg, x);
      } else if key in Keys(SegmentVersions(w, m, seg)) {
        var x :| x in SegmentVersions(w, m, seg) && key == VersionKey(x);
        assert HeldVersion(w, big, seg, x);
      }
    }
  }

  lemma HeldStep(w: Naming, have: Have, n: Node, m: Holding, seg: string)
    requires n !in have
    ensures forall x :: HeldVersion(w, have[n := m], seg, x) <==>
      HeldVersion(w, have, seg, x) || x in SegmentVersions(w, m, seg)
  {
    var big := have[n := m];
    forall x
      ensures HeldVersion(w, big, seg, x) <==> HeldVersion(w, have, seg, x) || x in SegmentVersions(w, m, seg)
    {
      if HeldVersion(w, have, seg, x) {
        var k :| k in have && x in SegmentVersions(w, have[k], seg);
        assert k in big && big[k] == have[k];
      }
      if x in SegmentVersions(w, m, seg) {
        assert n in big && big[n] == m;
      }
    }
  }

  lemma ReadStep(w: Naming, v: Planned, have: Have, before: map<string, set<string>>, holds: map<Node, set<string>>,
                 lists: Lists, todo: set<Node>, n: Node, versions: map<string, set<string>>, segs: set<string>)
    requires ReadSome(w, v, have, before, holds, lists, todo) && n in todo
    requires WalAdded(w, before, versions, Indexed(lists[n])) && segs == Segments(w, Indexed(lists[n]))
    ensures ReadSome(w, WithDeletes(v, n, Partials(lists[n])), have[n := Indexed(lists[n])], versions,
                     holds[n := segs], lists, todo - {n})
  {
    VersionedStep(w, before, versions, have, n, Indexed(lists[n]));
    IndexedOnlyStep(v, lists, todo, n);
    assert have[n := Indexed(lists[n])] == Indexing(lists) - (todo - {n});
  }

  /** Reads one listing. */
  method ReadOne(w: Naming, p: Plan, lists: Lists, ghost todo: set<Node>, n: Node, have0: Have,
                 versions0: map<string, set<string>>, holds0: map<Node, set<string>>)
    returns (have: Have, versions: map<string, set<string>>, holds: map<Node, set<string>>)
    requires ReadSome(w, p.View(), have0, versions0, holds0, lists, todo) && n in todo
    modifies p
    ensures ReadSome(w, p.View(), have, versions, holds, lists, todo - {n})
  {
    ghost var v := p.View();
    var m := p.Index(n, lists[n]);
    var segs;
    versions, segs := AddWal(w, versions0, m);
    ReadStep(w, v, have0, versions0, holds0, lists, todo, n, versions, segs);
    have, holds := have0[n := m], holds0[n := segs];
  }

  method ReadAll(w: Naming, p: Plan, lists: Lists, nodes: seq<Node>)
    returns (have: Have, versions: map<string, set<string>>, holds: map<Node, set<string>>)
    requires p.View() == EMPTY && Ascending(nodes) && forall n :: n in nodes <==> n in lists
    modifies p
    ensures ReadSome(w, p.View(), have, versions, holds, lists, {})
  {
    have, versions, holds := map[], map[], map[];
    assert SetOf(nodes[0..]) == lists.Keys;
    assert Indexing(lists) - lists.Keys == map[];
    for i := 0 to |nodes|
      invariant ReadSome(w, p.View(), have, versions, holds, lists, SetOf(nodes[i..]))
    {
      RestShrinks(nodes, i);
      have, versions, holds := ReadOne(w, p, lists, SetOf(nodes[i..]), nodes[i], have, versions, holds);
    }
    assert SetOf(nodes[|nodes|..]) == {};
  }

  // ---------------------------------------------------------------- what every node should hold

  /** WAL that may be gathered, once it is known which segments conflict. */
  predicate Eligible(w: Naming, conflicted: set<string>, keep: Path -> bool, p: Path) {
    w.isWal(p) && w.segment(p) !in conflicted && (w.isHistory(p) || keep(p))
  }

  /** `p` is on the main server, or can be gathered from a node not in `todo`. */
  ghost predicate Found(w: Naming, have: Have, source: Node, conflicted: set<string>, keep: Path -> bool,
                        todo: set<Node>, p: Path) {
    p in HoldingOf(have, source) || (Eligible(w, conflicted, keep, p) && exists n :: n !in todo && Holds(have, n, p))
  }

  /** The wanted versions found on the main server and on the nodes not in `todo`. */
  ghost predicate WantSome(w: Naming, want: map<Path, Version>, have: Have, source: Node, conflicted: set<string>,
                           keep: Path -> bool, todo: set<Node>) {
    && (forall p :: p in want <==> Found(w, have, source, conflicted, keep, todo, p))
    && (forall p :: p in want ==>
        Holds(have, want[p].node, p) && want[p].file == have[want[p].node][p] &&
          Provides(have, source, p, want[p].node))
  }

  /** `want` is `want0` with the eligible files of `n` nobody before it had, but for those in `todo`. */
  ghost predicate WantFrom(w: Naming, want0: map<Path, Version>, want: map<Path, Version>, n: Node, m: Holding,
                           conflicted: set<string>, keep: Path -> bool, todo: set<Path>) {
    && (forall p :: p in want <==> p in want0 || (p in m && p !in todo && Eligible(w, conflicted, keep, p)))
    && (forall p :: p in want ==> want[p] == if p in want0 then want0[p] else Version(n, m[p]))
  }

  method AddWanted(w: Naming, want0: map<Path, Version>, n: Node, m: Holding, conflicted: set<string>,
                   keep: Path -> bool)
    returns (want: map<Path, Version>)
    ensures WantFrom(w, want0, want, n, m, conflicted, keep, {})
  {
    want := want0;
    var todo := m.Keys;
    while todo != {}
      invariant todo <= m.Keys && WantFrom(w, want0, want, n, m, conflicted, keep, todo)
      decreases |todo|
    {
      var path :| path in todo;
      if path !in want && Eligible(w, conflicted, keep, path) {
        want := want[path := Version(n, m[path])];
      }
      todo := todo - {path};
    }
  }

  lemma WantStep(w: Naming, want: map<Path, Version>, more: map<Path, Version>, have: Have, source: Node,
                 conflicted: set<string>, keep: Path -> bool, todo: set<Node>, n: Node)
    requires WantSome(w, want, have, source, conflicted, keep, todo) && n in todo && n in have && todo <= have.Keys
    requires forall m :: m in todo ==> n <= m
    requires WantFrom(w, want, more, n, have[n], conflicted, keep, {})
    ensures WantSome(w, more, have, source, conflicted, keep, todo - {n})
  {
    forall p
      ensures p in more <==> Found(w, have, source, conflicted, keep, todo - {n}, p)
    {
      if Holds(have, n, p) {
        assert n !in todo - {n} && Holds(have, n, p);
      }
      if k :| k !in todo && Holds(have, k, p) {
        assert k !in todo - {n};
      }
    }
    forall p | p in more
      ensures Holds(have, more[p].node, p) && more[p].file == have[more[p].node][p]
      ensures Provides(have, source, p, more[p].node)
    {
      if p !in want {
        forall k | Holds(have, k, p)
          ensures n <= k
        {
          assert k in todo;
        }
      }
    }
  }

  /** The main server's own files. */
  method OwnFiles(source: Node, own: Holding) returns (want: map<Path, Version>)
    ensures want.Keys == own.Keys && forall p :: p in want ==> want[p] == Version(source, own[p])
  {
    want := map[];
    var todo := own.Keys;
    while todo != {}
      invariant todo <= own.Keys && want.Keys == own.Keys - todo
      invariant forall p :: p in want ==> want[p] == Version(source, own[p])
      decreases |todo|
    {
      var p :| p in todo;
      want := want[p := Version(source, own[p])];
      todo := todo - {p};
    }
  }

  method Gather(w: Naming, nodes: seq<Node>, have: Have, source: Node, conflicted: set<string>, keep: Path -> bool)
    returns (want: map<Path, Version>)
    requires Ascending(nodes) && forall n :: n in nodes <==> n in have
    ensures WantSome(w, want, have, source, conflicted, keep, {})
  {
    var own := HoldingOf(have, source);
    want := OwnFiles(source, own);
    assert SetOf(nodes[0..]) == have.Keys;
    for i := 0 to |nodes|
      invariant WantSome(w, want, have, source, conflicted, keep, SetOf(nodes[i..]))
    {
      RestShrinks(nodes, i);
      var n := nodes[i];
      assert forall m :: m in SetOf(nodes[i..]) ==> n <= m && m in nodes;
      var more := AddWanted(w, want, n, have[n], conflicted, keep);
      WantStep(w, want, more, have, source, conflicted, keep, SetOf(nodes[i..]), n);
      want := more;
    }
    assert SetOf(nodes[|nodes|..]) == {};
  }

  lemma FoundIsWanted(w: Naming, have: Have, source: Node, conflicted: set<string>, keep: Path -> bool, p: Path)
    requires forall seg :: Conflicted(w, have, seg) ==> seg in conflicted
    requires forall seg :: seg in conflicted ==> Conflicted(w, have, seg)
    ensures Found(w, have, source, conflicted, keep, {}, p) <==> Wanted(w, have, source, keep, p)
  {
    if n :| Holds(have, n, p) {
      assert n !in {} && Holds(have, n, p);
    }
  }

  // ---------------------------------------------------------------- copies and deletes

  /** Left as it is on a node holding the segments `segs`. */
  predicate Spared(w: Naming, segs: set<string>, conflicted: set<string>, p: Path) {
    w.isWal(p) && w.segment(p) in segs && w.segment(p) in conflicted
  }

  /** A copy due to node `s.to`, which holds `m`. */
  predicate Due(w: Naming, want: map<Path, Version>, m: Holding, segs: set<string>, conflicted: set<string>, s: Send) {
    && s.file.path in want && s.from == want[s.file.path].node && s.file == want[s.file.path].file
    && SumAt(m, s.file.path) != s.file.sha && !Spared(w, segs, conflicted, s.file.path)
  }

  /** `l` are the copies due to `n` of the paths not in `todo`, each once. */
  ghost predicate SentTo1(w: Naming, l: seq<Send>, want: map<Path, Version>, m: Holding, segs: set<string>,
                          conflicted: set<string>, n: Node, todo: set<Path>) {
    && (forall s :: s in l <==> s.to == n && s.file.path !in todo && Due(w, want, m, segs, conflicted, s))
    && (forall i, j :: 0 <= i < j < |l| ==> l[i].file.path != l[j].file.path)
  }

  ghost predicate WantKeyed(want: map<Path, Version>) {
    forall p :: p in want ==> want[p].file.path == p
  }

  lemma {:induction false} SendStep(w: Naming, l: seq<Send>, want: map<Path, Version>, m: Holding, segs: set<string>,
                                    conflicted: set<string>, n: Node, todo: set<Path>, p: Path)
    requires WantKeyed(want) && SentTo1(w, l, want, m, segs, conflicted, n, todo) && p in todo && p in want
    ensures var s := Send(want[p].node, n, want[p].file);
      SentTo1(w, if Due(w, want, m, segs, conflicted, s) then l + [s] else l, want, m, segs, conflicted, n, todo - {p})
  {
    var s := Send(want[p].node, n, want[p].file);
    forall i | 0 <= i < |l|
      ensures l[i].file.path != p
    {
      assert l[i] in l;
    }
  }

  /** `v` is `v0` with the copies `l`. */
  ghost predicate Spreading(w: Naming, v0: Planned, v: Planned, l: seq<Send>, want: map<Path, Version>, m: Holding,
                            segs: set<string>, conflicted: set<string>, n: Node, todo: set<Path>) {
    OnlyCopies(v0, v) && v.log == v0.log + l && SentTo1(w, l, want, m, segs, conflicted, n, todo)
  }

  lemma SpreadStep(w: Naming, v0: Planned, v: Planned, l: seq<Send>, want: map<Path, Version>, m: Holding,
                   segs: set<string>, conflicted: set<string>, n: Node, todo: set<Path>, p: Path)
    requires WantKeyed(want) && Spreading(w, v0, v, l, want, m, segs, conflicted, n, todo) && p in todo && p in want
    ensures
      var f := want[p].file;
      if SumAt(m, p) != f.sha && !Spared(w, segs, conflicted, p)
      then Spreading(w, v0, WithCopy(v, want[p].node, n, f), l + [Send(want[p].node, n, f)], want, m, segs,
                     conflicted, n, todo - {p})
      else Spreading(w, v0, v, l, want, m, segs, conflicted, n, todo - {p})
  {
    SendStep(w, l, want, m, segs, conflicted, n, todo, p);
    CopyConserves(v, want[p].node, n, want[p].file);
  }

  method SpreadTo(w: Naming, p: Plan, want: map<Path, Version>, n: Node, m: Holding, segs: set<string>,
                  conflicted: set<string>)
    requires WantKeyed(want) && Conserved(p.View())
    modifies p
    ensures OnlyCopies(old(p.View()), p.View())
    ensures SentTo1(w, p.log[|old(p.log)|..], want, m, segs, conflicted, n, {})
  {
    var todo := want.Keys;
    ghost var l: seq<Send> := [];
    while todo != {}
      invariant todo <= want.Keys && Spreading(w, old(p.View()), p.View(), l, want, m, segs, conflicted, n, todo)
      decreases |todo|
    {
      var path :| path in todo;
      var v := want[path];
      SpreadStep(w, old(p.View()), p.View(), l, want, m, segs, conflicted, n, todo, path);
      if SumAt(m, path) != v.file.sha && !Spared(w, segs, conflicted, path) {
        p.Copy(v.node, n, v.file);
        l := l + [Send(v.node, n, v.file)];
      }
      todo := todo - {path};
    }
    assert p.log[|old(p.log)|..] == l;
  }

  /** A file that is neither wanted nor part of a conflict. */
  predicate Expired(w: Naming, want: map<Path, Version>, conflicted: set<string>, p: Path) {
    p !in want && !(w.isWal(p) && w.segment(p) in conflicted)
  }

  /** Deletes the expired files of one node. */
  method Prune(w: Naming, p: Plan, want: map<Path, Version>, n: Node, m: Holding, conflicted: set<string>)
    returns (ghost d: seq<Path>)
    modifies p
    ensures p.View() == WithDeletes(old(p.View()), n, d)
    ensures Distinct(d) && forall q :: q in d <==> q in m && Expired(w, want, conflicted, q)
  {
    var todo := m.Keys;
    d := [];
    while todo != {}
      invariant todo <= m.Keys && p.View() == WithDeletes(old(p.View()), n, d)
      invariant Distinct(d) && forall q :: q in d <==> q in m && q !in todo && Expired(w, want, conflicted, q)
      decreases |todo|
    {
      var path :| path in todo;
      if Expired(w, want, conflicted, path) {
        WithDeletesAppend(old(p.View()), n, d, path);
        p.Delete(n, path);
        d := d + [path];
      }
      todo := todo - {path};
    }
  }

  /** The copies due to the nodes not in `todo` are planned. */
  ghost predicate CopiesSpread(w: Naming, v: Planned, want: map<Path, Version>, have: Have, conflicted: set<string>,
                               todo: set<Node>) {
    && Conserved(v) && OncePerPath(v.log)
    && forall s :: s in v.log <==>
      s.to in have && s.to !in todo && Due(w, want, have[s.to], Segments(w, have[s.to]), conflicted, s)
  }

  /** The files expired on `n` are planned to be deleted there, after what `base` deletes. */
  ghost predicate Pruned(w: Naming, base: Planned, v: Planned, want: map<Path, Version>, m: Holding,
                         conflicted: set<string>, n: Node) {
    var b, d := DeletesOn(base, n), DeletesOn(v, n);
    && b <= d && Distinct(d[|b|..]) && forall p :: p in d[|b|..] <==> p in m && Expired(w, want, conflicted, p)
  }

  /** Where node `k` stands: pruned, or not touched yet. */
  ghost predicate DeletesAt(w: Naming, base: Planned, v: Planned, want: map<Path, Version>, have: Have,
                            conflicted: set<string>, source: Node, todo: set<Node>, k: Node) {
    if k in have && k !in todo && k != source then Pruned(w, base, v, want, have[k], conflicted, k)
    else DeletesOn(v, k) == DeletesOn(base, k)
  }

  ghost predicate DeletesSpread(w: Naming, base: Planned, v: Planned, want: map<Path, Version>, have: Have,
                                conflicted: set<string>, source: Node, todo: set<Node>) {
    forall k :: DeletesAt(w, base, v, want, have, conflicted, source, todo, k)
  }

  lemma CopiesSpreadStep(w: Naming, v: Planned, x: Planned, want: map<Path, Version>, have: Have,
                         conflicted: set<string>, todo: set<Node>, n: Node)
    requires CopiesSpread(w, v, want, have, conflicted, todo) && n in todo && n in have
    requires v.log <= x.log && Conserved(x)
    requires SentTo1(w, x.log[|v.log|..], want, have[n], Segments(w, have[n]), conflicted, n, {})
    ensures CopiesSpread(w, x, want, have, conflicted, todo - {n})
  {
    var l := x.log[|v.log|..];
    assert x.log == v.log + l;
    forall i, j | 0 <= i < j < |x.log|
      ensures !(x.log[i].to == x.log[j].to && x.log[i].file.path == x.log[j].file.path)
    {
      if i < |v.log| {
        assert x.log[i] == v.log[i] && v.log[i] in v.log;
        if j >= |v.log| {
          assert x.log[j] == l[j - |v.log|] && l[j - |v.log|] in l;
        }
      } else {
        assert x.log[i] == l[i - |v.log|] && x.log[j] == l[j - |v.log|];
      }
    }
  }

  lemma DeletesSpreadStep(w: Naming, base: Planned, v: Planned, x: Planned, want: map<Path, Version>, have: Have,
                          conflicted: set<string>, source: Node, todo: set<Node>, n: Node, d: seq<Path>)
    requires DeletesSpread(w, base, v, want, have, conflicted, source, todo) && n in todo && n in have
    requires Distinct(d) && x.deletes == WithDeletes(v, n, d).deletes
    requires n != source ==> forall p :: p in d <==> p in have[n] && Expired(w, want, conflicted, p)
    requires n == source ==> d == []
    ensures DeletesSpread(w, base, x, want, have, conflicted, source, todo - {n})
  {
    forall k
      ensures DeletesAt(w, base, x, want, have, conflicted, source, todo - {n}, k)
    {
      assert DeletesAt(w, base, v, want, have, conflicted, source, todo, k);
      if k == n {
        assert DeletesOn(x, n) == DeletesOn(base, n) + d;
        assert DeletesOn(x, n)[|DeletesOn(base, n)|..] == d;
      } else {
        assert DeletesOn(x, k) == DeletesOn(v, k);
      }
    }
  }

  /** One node's copies and deletes. */
  method SpreadOne(w: Naming, p: Plan, want: map<Path, Version>, have: Have, holds: map<Node, set<string>>,
                   conflicted: set<string>, source: Node, ghost base: Planned, ghost todo: set<Node>, n: Node)
    requires WantKeyed(want) && n in todo && n in have && n in holds && holds[n] == Segments(w, have[n])
    requires CopiesSpread(w, p.View(), want, have, conflicted, todo)
    requires DeletesSpread(w, base, p.View(), want, have, conflicted, source, todo)
    modifies p
    ensures CopiesSpread(w, p.View(), want, have, conflicted, todo - {n})
    ensures DeletesSpread(w, base, p.View(), want, have, conflicted, source, todo - {n})
    ensures p.conflicts == old(p.conflicts) && p.files == old(p.files) && p.deleted == old(p.deleted)
  {
    ghost var v := p.View();
    SpreadTo(w, p, want, n, have[n], holds[n], conflicted);
    ghost var x := p.View();
    CopiesSpreadStep(w, v, x, want, have, conflicted, todo, n);
    ghost var d := [];
    if n != source {
      d := Prune(w, p, want, n, have[n], conflicted);
    }
    assert p.View().log == x.log;
    CopiesSpreadStep(w, v, p.View(), want, have, conflicted, todo, n);
    DeletesSpreadStep(w, base, v, p.View(), want, have, conflicted, source, todo, n, d);
  }

  // ---------------------------------------------------------------- the planner

  ghost predicate ConflictSet(w: Naming, conflicted: set<string>, have: Have) {
    forall seg :: seg in conflicted <==> Conflicted(w, have, seg)
  }

  /** The segments held in more than one version, in any order. */
  method ListConflicts(w: Naming, versions: map<string, set<string>>, ghost have: Have)
    returns (conflicted: set<string>, listed: seq<string>)
    requires Versioned(w, versions, have)
    ensures ConflictSet(w, conflicted, have) && Distinct(listed) && forall seg :: seg in listed <==> seg in conflicted
  {
    conflicted, listed := {}, [];
    var todo := versions.Keys;
    while todo != {}
      invariant todo <= versions.Keys
      invariant forall seg :: seg in conflicted <==> seg in versions && seg !in todo && |versions[seg]| > 1
      invariant Distinct(listed) && forall seg :: seg in listed <==> seg in conflicted
      decreases |todo|
    {
      var seg :| seg in todo;
      if |versions[seg]| > 1 {
        conflicted, listed := conflicted + {seg}, listed + [seg];
      }
      todo := todo - {seg};
    }
    forall seg
      ensures seg in conflicted <==> Conflicted(w, have, seg)
    {
      ManyVersionsConflict(w, versions, have, seg);
    }
  }

  lemma SparedIsFrozen(w: Naming, have: Have, conflicted: set<string>, n: Node, p: Path)
    requires ConflictSet(w, conflicted, have) && n in have
    ensures Spared(w, Segments(w, have[n]), conflicted, p) <==> Frozen(w, have, n, p)
  {
    if q :| q in have[n] && HoldsWal(w, have, n, q, w.segment(p)) {
      assert w.segment(q) in Segments(w, have[n]);
    }
  }

  lemma DueIsWanted(w: Naming, want: map<Path, Version>, have: Have, source: Node, conflicted: set<string>,
                    keep: Path -> bool, s: Send)
    requires WellKeyed(have) && ConflictSet(w, conflicted, have)
    requires WantSome(w, want, have, source, conflicted, keep, {})
    ensures s.to in have && Due(w, want, have[s.to], Segments(w, have[s.to]), conflicted, s) <==>
      WantedCopy(w, have, source, keep, s)
  {
    var p := s.file.path;
    FoundIsWanted(w, have, source, conflicted, keep, p);
    assert p in want <==> Found(w, have, source, conflicted, keep, {}, p);
    if s.to in have {
      SparedIsFrozen(w, have, conflicted, s.to, p);
    }
  }

  lemma ExpiredIsUnwanted(w: Naming, want: map<Path, Version>, have: Have, source: Node, conflicted: set<string>,
                          keep: Path -> bool, n: Node, p: Path)
    requires ConflictSet(w, conflicted, have) && WantSome(w, want, have, source, conflicted, keep, {})
    requires n != source && Holds(have, n, p)
    ensures Expired(w, want, conflicted, p) <==> Unwanted(w, have, source, keep, n, p)
  {
    FoundIsWanted(w, have, source, conflicted, keep, p);
    assert p in want <==> Found(w, have, source, conflicted, keep, {}, p);
  }

  lemma CopiesMatch(w: Naming, v: Planned, want: map<Path, Version>, have: Have, source: Node, conflicted: set<string>,
                    keep: Path -> bool)
    requires WellKeyed(have) && ConflictSet(w, conflicted, have)
    requires WantSome(w, want, have, source, conflicted, keep, {})
    requires CopiesSpread(w, v, want, have, conflicted, {})
    ensures CopiesMirrored(w, v, have, source, keep)
  {
    forall s
      ensures s in v.log <==> WantedCopy(w, have, source, keep, s)
    {
      DueIsWanted(w, want, have, source, conflicted, keep, s);
    }
  }

  lemma DeletesMatch(w: Naming, base: Planned, v: Planned, x: Planned, want: map<Path, Version>, have: Have,
                     source: Node, conflicted: set<string>, keep: Path -> bool, n: Node)
    requires ConflictSet(w, conflicted, have) && WantSome(w, want, have, source, conflicted, keep, {})
    requires DeletesAt(w, base, v, want, have, conflicted, source, {}, n)
    requires x.deletes == map k | k in v.deletes :: Text.Sort(v.deletes[k])
    ensures DeletesMirrored(w, x, have, source, keep, DeletesOn(base, n), n)
  {
    if n in have && n != source {
      forall p | p in have[n] {
        ExpiredIsUnwanted(w, want, have, source, conflicted, keep, n, p);
      }
    }
    var d := DeletesOn(v, n);
    assert d[|d|..] == [];
    Text.SortedTail(DeletesOn(base, n), d, UnwantedOn(w, have, source, keep, n));
    assert DeletesOn(x, n) == Text.Sort(d);
  }

  /** Copies and deletes of every node, main server included. */
  method SpreadAll(w: Naming, p: Plan, nodes: seq<Node>, want: map<Path, Version>, have: Have,
                   holds: map<Node, set<string>>, conflicted: set<string>, source: Node)
    requires WantKeyed(want) && Ascending(nodes) && (forall n :: n in nodes <==> n in have)
    requires holds.Keys == have.Keys && forall n :: n in have ==> holds[n] == Segments(w, have[n])
    requires p.log == [] && Conserved(p.View())
    modifies p
    ensures CopiesSpread(w, p.View(), want, have, conflicted, {})
    ensures DeletesSpread(w, old(p.View()), p.View(), want, have, conflicted, source, {})
    ensures p.conflicts == old(p.conflicts) && p.files == old(p.files) && p.deleted == old(p.deleted)
  {
    assert SetOf(nodes[0..]) == have.Keys;
    for i := 0 to |nodes|
      invariant CopiesSpread(w, p.View(), want, have, conflicted, SetOf(nodes[i..]))
      invariant DeletesSpread(w, old(p.View()), p.View(), want, have, conflicted, source, SetOf(nodes[i..]))
      invariant p.conflicts == old(p.conflicts) && p.files == old(p.files) && p.deleted == old(p.deleted)
    {
      RestShrinks(nodes, i);
      assert nodes[i] in nodes;
      SpreadOne(w, p, want, have, holds, conflicted, source, old(p.View()), SetOf(nodes[i..]), nodes[i]);
    }
    assert SetOf(nodes[|nodes|..]) == {};
  }

  /**
   * The planner: whatever order files are visited in, it returns the plan fixed by
   * `IsMirror`.
   */
  method MirrorPlan(w: Naming, lists: Lists, source: Node, keep: Path -> bool) returns (p: Plan)
    ensures fresh(p) && IsMirror(w, p.View(), lists, source, keep)
  {
    p := new Plan();
    var nodes := SortNodes(lists.Keys);
    var have, versions, holds := ReadAll(w, p, lists, nodes);
    assert have == Indexing(lists);
    IndexingKeyed(lists);
    var conflicted, listed := ListConflicts(w, versions, have);
    var want := Gather(w, nodes, have, source, conflicted, keep);
    ghost var base := p.View();
    SpreadAll(w, p, nodes, want, have, holds, conflicted, source);
    ghost var v := p.View();
    p.SortDeletes();
    p.conflicts := Text.Sort(listed);
    MirrorDone(w, base, v, p.View(), lists, want, source, conflicted, listed, keep);
  }

  lemma MirrorDone(w: Naming, base: Planned, v: Planned, x: Planned, lists: Lists, want: map<Path, Version>,
                   source: Node, conflicted: set<string>, listed: seq<string>, keep: Path -> bool)
    requires WellKeyed(Indexing(lists)) && ConflictSet(w, conflicted, Indexing(lists)) && IndexedOnly(base, lists, {})
    requires WantSome(w, want, Indexing(lists), source, conflicted, keep, {})
    requires CopiesSpread(w, v, want, Indexing(lists), conflicted, {}) && v.files == map[] && v.deleted == []
    requires DeletesSpread(w, base, v, want, Indexing(lists), conflicted, source, {})
    requires Distinct(listed) && forall seg :: seg in listed <==> seg in conflicted
    requires x == v.(deletes := map k | k in v.deletes :: Text.Sort(v.deletes[k]), conflicts := Text.Sort(listed))
    ensures IsMirror(w, x, lists, source, keep)
  {
    var have := Indexing(lists);
    CopiesMatch(w, v, want, have, source, conflicted, keep);
    assert Conserved(x);
    Text.SortedListing(listed);
    forall n
      ensures DeletesMirrored(w, x, have, source, keep, PartialsOn(lists, n), n)
    {
      assert DeletesAt(w, base, v, want, have, conflicted, source, {}, n);
      DeletesMatch(w, base, v, x, want, have, source, conflicted, keep, n);
    }
  }

  /** The plan of a backup sync, with the repository's own file names. */
  method BackupPlan(lists: Lists, source: Node, keep: Path -> bool) returns (p: Plan)
    ensures fresh(p) && IsMirror(REPOSITORY, p.View(), lists, source, keep)
  {
    p := MirrorPlan(REPOSITORY, lists, source, keep);
  }
}
