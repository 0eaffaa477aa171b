/** Paths by their components: which stay in their folder, and which are WAL, indices or histories of a repository. */
module Paths {
  import opened Transfer
  import opened WalFiles

  // ---------------------------------------------------------------- components

  /** What stands between the slashes of a path. */
  function Components(p: Path): seq<string> {
    From(p, "")
  }

  /** The components of `part + p`, where `part` has no slash. */
  function From(p: Path, part: string): seq<string>
    decreases |p|
  {
    if p == "" then [part]
    else if p[0] == '/' then [part] + From(p[1..], "")
    else From(p[1..], part + [p[0]])
  }

  function Joined(cs: seq<string>): Path {
    if cs == [] then "" else if |cs| == 1 then cs[0] else cs[0] + ['/'] + Joined(cs[1..])
  }

  ghost predicate NoSlash(cs: seq<string>) {
    forall c :: c in cs ==> '/' !in c
  }

  /** `rest` below the directory `c`. */
  function Under(c: string, rest: Path): Path {
    c + ['/'] + rest
  }

  lemma JoinedMore(c: string, cs: seq<string>)
    requires cs != []
    ensures Joined([c] + cs) == Under(c, Joined(cs))
  {
    assert ([c] + cs)[1..] == cs;
  }

  lemma {:induction false} FromJoined(p: Path, part: string)
    requires '/' !in part
    ensures From(p, part) != [] && NoSlash(From(p, part)) && Joined(From(p, part)) == part + p
    decreases |p|
  {
    if p != "" && p[0] == '/' {
      FromJoined(p[1..], "");
      JoinedMore(part, From(p[1..], ""));
      assert part + p == Under(part, p[1..]);
    } else if p != "" {
      FromJoined(p[1..], part + [p[0]]);
      assert part + p == part + [p[0]] + p[1..];
    }
  }

  /** A path is its components with slashes between them; they have none. */
  lemma ComponentsJoined(p: Path)
    ensures Components(p) != [] && NoSlash(Components(p)) && Joined(Components(p)) == p
  {
    FromJoined(p, "");
  }

  lemma {:induction false} FromName(c: string, part: string)
    requires '/' !in c
    ensures From(c, part) == [part + c]
    decreases |c|
  {
    if c == "" {
      assert part + c == part;
    } else {
      FromName(c[1..], part + [c[0]]);
      assert part + [c[0]] + c[1..] == part + c;
    }
  }

  lemma {:induction false} FromUnder(p: Path, q: Path, part: string)
    ensures From(Under(p, q), part) == From(p, part) + From(q, "")
    decreases |p|
  {
    var all := Under(p, q);
    if p == "" {
      assert all[0] == '/' && all[1..] == q;
    } else {
      assert all[0] == p[0] && all[1..] == Under(p[1..], q);
      if p[0] == '/' {
        FromUnder(p[1..], q, "");
        assert [part] + (From(p[1..], "") + From(q, "")) == [part] + From(p[1..], "") + From(q, "");
      } else {
        FromUnder(p[1..], q, part + [p[0]]);
      }
    }
  }

  /** The components of a path below another. */
  lemma ComponentsUnder(p: Path, q: Path)
    ensures Components(Under(p, q)) == Components(p) + Components(q)
  {
    FromUnder(p, q, "");
  }

  lemma ComponentsOne(c: string)
    requires '/' !in c
    ensures Components(c) == [c]
  {
    FromName(c, "");
    assert "" + c == c;
  }

  /** No other list of slash-free names makes up a path. */
  lemma {:induction false} JoinedComponents(cs: seq<string>)
    requires cs != [] && NoSlash(cs)
    ensures Components(Joined(cs)) == cs
    decreases |cs|
  {
    assert cs[0] in cs;
    ComponentsOne(cs[0]);
    if |cs| > 1 {
      assert forall c :: c in cs[1..] ==> c in cs;
      JoinedComponents(cs[1..]);
      ComponentsUnder(cs[0], Joined(cs[1..]));
      assert cs == [cs[0]] + cs[1..];
    }
  }

  // ---------------------------------------------------------------- staying inside

  /** How many of `cs` go up a level. */
  function Ups(cs: seq<string>): nat {
    if cs == [] then 0 else (if cs[0] == ".." then 1 else 0) + Ups(cs[1..])
  }

  /** How many of `cs` name something, and so go down a level. */
  function Named(cs: seq<string>): nat {
    if cs == [] then 0 else (if cs[0] in {"", ".", ".."} then 0 else 1) + Named(cs[1..])
  }

  /** No start of the path leads above where `depth` levels down began. */
  ghost predicate NeverAbove(cs: seq<string>, depth: int) {
    forall k :: 0 < k <= |cs| ==> Ups(cs[..k]) <= depth + Named(cs[..k])
  }

  lemma AboveOne(c: string, rest: seq<string>, depth: int)
    ensures NeverAbove([c] + rest, depth) <==> Enter(c, depth) >= 0 && NeverAbove(rest, Enter(c, depth))
  {
    var cs := [c] + rest;
    forall k | 0 < k <= |cs|
      ensures Ups(cs[..k]) - Named(cs[..k]) == depth - Enter(c, depth) + Ups(rest[..k - 1]) - Named(rest[..k - 1])
    {
      assert cs[..k][0] == c && cs[..k][1..] == rest[..k - 1];
    }
    if NeverAbove(cs, depth) {
      assert Ups(cs[..1]) <= depth + Named(cs[..1]) && rest[..0] == [];
      forall k | 0 < k <= |rest|
        ensures Ups(rest[..k]) <= Enter(c, depth) + Named(rest[..k])
      {
        assert Ups(cs[..k + 1]) <= depth + Named(cs[..k + 1]) && (k + 1) - 1 == k;
      }
    }
    if Enter(c, depth) >= 0 && NeverAbove(rest, Enter(c, depth)) {
      assert rest[..0] == [];
    }
  }

  lemma {:induction false} StaysMeans(p: Path, part: Path, depth: int)
    ensures StaysInside(p, part, depth) <==> NeverAbove(From(p, part), depth)
    decreases |p|
  {
    if p == "" {
      assert [part] == [part] + [];
      AboveOne(part, [], depth);
    } else if p[0] == '/' {
      AboveOne(part, From(p[1..], ""), depth);
      StaysMeans(p[1..], "", Enter(part, depth));
    } else {
      StaysMeans(p[1..], part + [p[0]], depth);
    }
  }

  /**
   * A path is taken exactly when it isn't empty, isn't absolute, and no start of it goes up more
   * often than down.
   */
  lemma LocalExactly(p: Path)
    ensures LocalPath(p) <==> p != "" && p[0] != '/' && NeverAbove(Components(p), 0)
  {
    StaysMeans(p, "", 0);
  }

  /** A path of ordinary names, as walking a folder gives. */
  ghost predicate Ordinary(p: Path) {
    forall c :: c in Components(p) ==> c !in {"", ".", ".."}
  }

  lemma {:induction false} NoUps(cs: seq<string>)
    requires ".." !in cs
    ensures Ups(cs) == 0
  {
    if cs != [] {
      NoUps(cs[1..]);
    }
  }

  lemma OrdinaryIsLocal(p: Path)
    requires Ordinary(p)
    ensures LocalPath(p)
  {
    var cs := Components(p);
    ComponentsJoined(p);
    assert cs[0] in cs;
    forall k | 0 < k <= |cs|
      ensures Ups(cs[..k]) <= Named(cs[..k])
    {
      assert forall c :: c in cs[..k] ==> c in cs;
      NoUps(cs[..k]);
    }
    LocalExactly(p);
  }

  lemma AboveUnder(c: string, rest: Path, depth: int)
    requires '/' !in c
    ensures NeverAbove(Components(Under(c, rest)), depth) <==>
      Enter(c, depth) >= 0 && NeverAbove(Components(rest), Enter(c, depth))
  {
    ComponentsUnder(c, rest);
    ComponentsOne(c);
    AboveOne(c, Components(rest), depth);
  }

  /** A path that begins by going up isn't taken, whatever follows. */
  lemma UpIsNotLocal(p: Path)
    ensures !LocalPath(Under("..", p))
  {
    AboveUnder("..", p, 0);
    LocalExactly(Under("..", p));
  }

  /** Nor is one that goes down once and up twice. */
  lemma DownUpUpIsNotLocal(p: Path, c: string)
    requires '/' !in c
    ensures !LocalPath(Under(c, Under("..", Under("..", p))))
  {
    var once := Under("..", p);
    LocalExactly(Under(c, Under("..", once)));
    AboveUnder(c, Under("..", once), 0);
    AboveUnder("..", once, Enter(c, 0));
    AboveUnder("..", p, Enter(c, 0) - 1);
  }

  // ---------------------------------------------------------------- a repository's files

  lemma {:induction false} SlashesCounted(p: Path, part: string)
    ensures |From(p, part)| == Slashes(p) + 1
    decreases |p|
  {
    if p != "" {
      SlashesCounted(p[1..], if p[0] == '/' then "" else part + [p[0]]);
    }
  }

  /** The last component that isn't empty, "" if there is none. */
  function LastName(cs: seq<string>): string {
    if cs == [] then "" else if cs[|cs| - 1] != "" then cs[|cs| - 1] else LastName(cs[..|cs| - 1])
  }

  lemma {:induction false} TrimmedName(p: Path)
    ensures var q := TrimSlashes(p); LastName(Components(p)) == if q == "" then "" else q[DirLength(q)..]
    decreases |p|
  {
    if p != "" && p[|p| - 1] == '/' {
      var q := p[..|p| - 1];
      assert p == Under(q, "");
      ComponentsUnder(q, "");
      LastAdded(Components(q), "");
      TrimmedName(q);
    } else if p != "" {
      var n := DirLength(p);
      ComponentsOne(p[n..]);
      if n == 0 {
        assert p[n..] == p;
      } else {
        assert p == Under(p[..n - 1], p[n..]);
        ComponentsUnder(p[..n - 1], p[n..]);
        LastAdded(Components(p[..n - 1]), p[n..]);
      }
    }
  }

  lemma LastAdded(cs: seq<string>, c: string)
    ensures LastName(cs + [c]) == if c != "" then c else LastName(cs)
  {
    assert (cs + [c])[..|cs|] == cs;
  }

  /** The index files are those with one of four names, wherever they are. */
  lemma IndexExactly(p: Path)
    ensures IsIndexFile(p) <==>
      LastName(Components(p)) in {"backup.info", "backup.info.copy", "archive.info", "archive.info.copy"}
  {
    TrimmedName(p);
  }

  /** WAL is what lies under "archive", two directories down or deeper, and isn't an index file. */
  lemma WalExactly(p: Path)
    ensures IsWal(p) <==> |Components(p)| >= 4 && Components(p)[0] == "archive" && !IsIndexFile(p)
  {
    SlashesCounted(p, "");
    ComponentsJoined(p);
    if HasPrefix(p, "archive/") {
      assert p == Under("archive", p[8..]);
      ComponentsUnder("archive", p[8..]);
      ComponentsOne("archive");
    }
    var cs := Components(p);
    if |cs| >= 2 && cs[0] == "archive" {
      assert p == Under("archive", Joined(cs[1..]));
    }
  }

  /** In the archive: at least two directories below "archive", and not named as an index file. */
  predicate Archived(p: Path) {
    var cs := Components(p);
    && |cs| >= 4 && cs[0] == "archive"
    && LastName(cs) !in {"backup.info", "backup.info.copy", "archive.info", "archive.info.copy"}
  }

  lemma WalIsArchived(p: Path)
    ensures IsWal(p) <==> Archived(p)
  {
    WalExactly(p);
    IndexExactly(p);
  }

  /**
   * A path put together of plain names is WAL if the first is "archive", there are at least four,
   * and the last isn't an index file's.
   */
  lemma WalByNames(names: seq<string>)
    requires names != [] && NoSlash(names) && names[|names| - 1] != ""
    ensures IsWal(Joined(names)) <==>
      && |names| >= 4 && names[0] == "archive"
      && names[|names| - 1] !in {"backup.info", "backup.info.copy", "archive.info", "archive.info.copy"}
  {
    JoinedComponents(names);
    WalIsArchived(Joined(names));
  }

  /** A partial file is one whose name ends in ".nbc-partial". */
  lemma PartialExactly(p: Path)
    ensures IsPartial(p) <==> exists stem :: p == stem + ".nbc-partial"
  {
    if IsPartial(p) {
      assert p == p[..|p| - 12] + ".nbc-partial";
    }
    if stem :| p == stem + ".nbc-partial" {
      assert p[|p| - 12..] == ".nbc-partial";
    }
  }

  /** A history file is one whose name ends in ".history". */
  lemma HistoryExactly(p: Path)
    ensures IsHistory(p) <==> exists stem :: p == stem + ".history"
  {
    if IsHistory(p) {
      assert p == p[..|p| - 8] + ".history";
    }
    if stem :| p == stem + ".history" {
      assert p[|p| - 8..] == ".history";
    }
  }
}
