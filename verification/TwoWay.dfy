/**
 * The two-way merge of a folder, path by path: what each path's fate is, stated without any
 * order of visiting nodes, and the planner that computes it.
 */
module TwoWay {
  import opened Transfer
  import opened Text
  import opened Plans

  /** What a two-way sync remembers of a folder. */
  datatype Record = Record(
    files: map<Node, map<Path, Sum>>,  // what each node held when a sync last succeeded there
    syncedAt: map<Node, int>,          // and the time of that sync
    deleted: set<Path>)                // paths to remove where they are still found

  // ---------------------------------------------------------------- ordering versions

  /** Newer modification first; ties go by checksum, then node. */
  function Newer(a: Version, b: Version): int {
    Or(Compare(a.file.mtime, b.file.mtime), Or(CompareText(a.file.sha, b.file.sha), Compare(a.node, b.node)))
  }

  /** The same, after the time each node last synced (`at`; an unlisted node counts as time 0). */
  function Rank(at: map<Node, int>, a: Version, b: Version): int {
    Or(Compare(At(at, a.node), At(at, b.node)), Newer(a, b))
  }

  function At(at: map<Node, int>, n: Node): int {
    if n in at then at[n] else 0
  }

  /** The order is total and separates nodes, so a set of versions has exactly one top. */
  lemma RankFlip(at: map<Node, int>, a: Version, b: Version)
    ensures Rank(at, a, b) > 0 ==> Rank(at, b, a) < 0
    ensures Rank(at, a, b) < 0 ==> Rank(at, b, a) > 0
    ensures Rank(at, a, b) == 0 ==> a.node == b.node
  {
    CompareTextFlip(a.file.sha, b.file.sha);
  }

  lemma RankTransitive(at: map<Node, int>, a: Version, b: Version, c: Version)
    requires Rank(at, a, b) <= 0 && Rank(at, b, c) <= 0
    ensures Rank(at, a, c) <= 0
  {
    CompareTextZero(a.file.sha, b.file.sha);
    CompareTextZero(b.file.sha, c.file.sha);
    if a.file.sha != b.file.sha && b.file.sha != c.file.sha && CompareText(a.file.sha, b.file.sha) <= 0 &&
      CompareText(b.file.sha, c.file.sha) <= 0 {
      CompareTextTransitive(a.file.sha, b.file.sha, c.file.sha);
    }
  }

  function VersionOf(have: Have, n: Node, p: Path): Version
    requires Holds(have, n, p)
  {
    Version(n, have[n][p])
  }

  /** `n` ranks highest of the nodes `s`, all of which hold `p`. */
  ghost predicate IsTop(at: map<Node, int>, have: Have, p: Path, s: set<Node>, n: Node) {
    && n in s && Holds(have, n, p)
    && forall m :: m in s ==> Holds(have, m, p) && Rank(at, VersionOf(have, m, p), VersionOf(have, n, p)) <= 0
  }

  lemma TopUnique(at: map<Node, int>, have: Have, p: Path, s: set<Node>, n: Node, m: Node)
    requires IsTop(at, have, p, s, n) && IsTop(at, have, p, s, m)
    ensures n == m
  {
    RankFlip(at, VersionOf(have, n, p), VersionOf(have, m, p));
  }

  lemma {:induction false} TopExists(at: map<Node, int>, have: Have, p: Path, s: set<Node>)
    requires s != {} && forall m :: m in s ==> Holds(have, m, p)
    ensures exists n :: IsTop(at, have, p, s, n)
    decreases |s|
  {
    var m :| m in s;
    var rest := s - {m};
    var vm := VersionOf(have, m, p);
    RankFlip(at, vm, vm);
    if rest == {} {
      assert s == {m};
      assert IsTop(at, have, p, s, m);
    } else {
      TopExists(at, have, p, rest);
      var n :| IsTop(at, have, p, rest, n);
      var vn := VersionOf(have, n, p);
      RankFlip(at, vm, vn);
      if Rank(at, vm, vn) <= 0 {
        assert IsTop(at, have, p, s, n);
      } else {
        forall k | k in s
          ensures Rank(at, VersionOf(have, k, p), vm) <= 0
        {
          if k != m {
            RankTransitive(at, VersionOf(have, k, p), vn, vm);
          }
        }
        assert IsTop(at, have, p, s, m);
      }
    }
  }

  ghost function Top(at: map<Node, int>, have: Have, p: Path, s: set<Node>): (n: Node)
    requires s != {} && forall m :: m in s ==> Holds(have, m, p)
    ensures IsTop(at, have, p, s, n)
  {
    TopExists(at, have, p, s);
    var n :| IsTop(at, have, p, s, n);
    n
  }

  // ---------------------------------------------------------------- the fate of a path

  /** Some node had this version at its last sync. */
  predicate Known(rec: Record, p: Path, sum: string) {
    exists n :: n in rec.files && p in rec.files[n] && rec.files[n][p] == sum
  }

  predicate Recorded(rec: Record, n: Node) {
    n in rec.files
  }

  /** A version no record knows, on a node with a record: an edit. */
  predicate Changed(have: Have, rec: Record, p: Path, n: Node) {
    Holds(have, n, p) && Recorded(rec, n) && !Known(rec, p, have[n][p].sha)
  }

  predicate Kept(have: Have, rec: Record, p: Path, n: Node) {
    Holds(have, n, p) && Recorded(rec, n) && Known(rec, p, have[n][p].sha)
  }

  /** A copy on a node that never synced. */
  predicate Unsynced(have: Have, rec: Record, p: Path, n: Node) {
    Holds(have, n, p) && !Recorded(rec, n)
  }

  /** On record for a listed node, but gone there. */
  predicate Removed(have: Have, rec: Record, p: Path, n: Node) {
    n in have && p !in have[n] && Recorded(rec, n) && p in rec.files[n]
  }

  predicate Deleted(have: Have, rec: Record, p: Path) {
    p in rec.deleted || exists n :: n in have && Removed(have, rec, p, n)
  }

  function ChangedOn(have: Have, rec: Record, p: Path): set<Node> {
    set n | n in have && Changed(have, rec, p, n)
  }

  function KeptOn(have: Have, rec: Record, p: Path): set<Node> {
    set n | n in have && Kept(have, rec, p, n)
  }

  function UnsyncedOn(have: Have, rec: Record, p: Path): set<Node> {
    set n | n in have && Unsynced(have, rec, p, n)
  }

  /** The nodes `s` hold more than one content of `p`. */
  predicate Differing(have: Have, p: Path, s: set<Node>) {
    exists n, m :: n in s && m in s && SumOn(have, n, p) != SumOn(have, m, p)
  }

  function SumOn(have: Have, n: Node, p: Path): string {
    if n in have then SumAt(have[n], p) else ""
  }

  datatype Fate =
    | Ignore                              // no listed node has it or lacks it against its record
    | Delete
    | Keep(win: Node, conflict: bool)     // `win`'s version goes everywhere

  ghost function Decide(have: Have, rec: Record, p: Path): (f: Fate)
    ensures f.Keep? ==> Holds(have, f.win, p)
  {
    var changed, kept, unsynced := ChangedOn(have, rec, p), KeptOn(have, rec, p), UnsyncedOn(have, rec, p);
    if changed != {} then
      Keep(Top(map[], have, p, changed), Deleted(have, rec, p) || Differing(have, p, changed))
    else if Deleted(have, rec, p) then Delete
    else if kept != {} then Keep(Top(rec.syncedAt, have, p, kept), false)
    else if unsynced != {} then Keep(Top(map[], have, p, unsynced), Differing(have, p, unsynced))
    else Ignore
  }

  /** The checksum every node is to hold at a kept path. */
  ghost function WinSum(have: Have, rec: Record, p: Path): Sum
    requires Decide(have, rec, p).Keep?
  {
    have[Decide(have, rec, p).win][p].sha
  }

  // ---------------------------------------------------------------- one path, in steps

  /** `vs` are the versions of `p` on the nodes `s`, in some order. */
  predicate VersionsOf(have: Have, p: Path, vs: seq<Version>, s: set<Node>) {
    && (forall i :: 0 <= i < |vs| ==>
        vs[i].node in s && Holds(have, vs[i].node, p) && vs[i] == VersionOf(have, vs[i].node, p))
    && (forall n :: n in s ==> exists i :: 0 <= i < |vs| && vs[i].node == n)
  }

  /** The versions on record for a path. */
  method KnownSums(rec: Record, p: Path) returns (known: set<string>)
    ensures forall sum :: sum in known <==> Known(rec, p, sum)
  {
    known := {};
    var todo := rec.files.Keys;
    while todo != {}
      invariant todo <= rec.files.Keys
      invariant forall sum :: sum in known <==>
                  exists n :: n in rec.files && n !in todo && p in rec.files[n] && rec.files[n][p] == sum
      decreases |todo|
    {
      var n :| n in todo;
      if p in rec.files[n] {
        known := known + {rec.files[n][p]};
      }
      todo := todo - {n};
    }
  }

  /** Sorts the listed nodes' copies of a path, visiting the nodes in any order. */
  method Classify(have: Have, rec: Record, p: Path)
    returns (changed: seq<Version>, kept: seq<Version>, unsynced: seq<Version>, deleted: bool)
    ensures VersionsOf(have, p, changed, ChangedOn(have, rec, p))
    ensures VersionsOf(have, p, kept, KeptOn(have, rec, p))
    ensures VersionsOf(have, p, unsynced, UnsyncedOn(have, rec, p))
    ensures deleted == Deleted(have, rec, p)
  {
    var known := KnownSums(rec, p);
    changed, kept, unsynced, deleted := [], [], [], p in rec.deleted;
    var todo := have.Keys;
    while todo != {}
      invariant todo <= have.Keys
      invariant VersionsOf(have, p, changed, ChangedOn(have, rec, p) - todo)
      invariant VersionsOf(have, p, kept, KeptOn(have, rec, p) - todo)
      invariant VersionsOf(have, p, unsynced, UnsyncedOn(have, rec, p) - todo)
      invariant deleted == (p in rec.deleted || exists n :: n in have && n !in todo && Removed(have, rec, p, n))
      decreases |todo|
    {
      var n :| n in todo;
      ghost var was := todo;
      todo := todo - {n};
      if p in have[n] {
        var v := Version(n, have[n][p]);
        if n !in rec.files {
          VersionsAppend(have, p, unsynced, UnsyncedOn(have, rec, p), was, n);
          unsynced := unsynced + [v];
        } else if have[n][p].sha in known {
          VersionsAppend(have, p, kept, KeptOn(have, rec, p), was, n);
          kept := kept + [v];
        } else {
          VersionsAppend(have, p, changed, ChangedOn(have, rec, p), was, n);
          changed := changed + [v];
        }
      } else if n in rec.files && p in rec.files[n] {
        deleted := true;
      }
      assert n !in ChangedOn(have, rec, p) ==> ChangedOn(have, rec, p) - todo == ChangedOn(have, rec, p) - was;
      assert n !in KeptOn(have, rec, p) ==> KeptOn(have, rec, p) - todo == KeptOn(have, rec, p) - was;
      assert n !in UnsyncedOn(have, rec, p) ==> UnsyncedOn(have, rec, p) - todo == UnsyncedOn(have, rec, p) - was;
    }
    assert ChangedOn(have, rec, p) - {} == ChangedOn(have, rec, p);
    assert KeptOn(have, rec, p) - {} == KeptOn(have, rec, p);
    assert UnsyncedOn(have, rec, p) - {} == UnsyncedOn(have, rec, p);
  }

  lemma VersionsAppend(have: Have, p: Path, vs: seq<Version>, s: set<Node>, todo: set<Node>, n: Node)
    requires n in todo && n in s && Holds(have, n, p) && VersionsOf(have, p, vs, s - todo)
    ensures VersionsOf(have, p, vs + [VersionOf(have, n, p)], s - (todo - {n}))
  {
    var ws := vs + [VersionOf(have, n, p)];
    forall m | m in s - (todo - {n})
      ensures exists i :: 0 <= i < |ws| && ws[i].node == m
    {
      if m == n {
        assert ws[|vs|].node == m;
      } else {
        assert m in s - todo;
        var i :| 0 <= i < |vs| && vs[i].node == m;
        assert ws[i].node == m;
      }
    }
  }

  /** The last of `vs` in the order `Rank`. */
  method MaxVersion(at: map<Node, int>, vs: seq<Version>) returns (top: Version)
    requires vs != []
    ensures top in vs && forall i :: 0 <= i < |vs| ==> Rank(at, vs[i], top) <= 0
  {
    top := vs[0];
    RankFlip(at, top, top);
    for i := 1 to |vs|
      invariant top in vs && forall j :: 0 <= j < i ==> Rank(at, vs[j], top) <= 0
    {
      RankFlip(at, vs[i], vs[i]);
      if Rank(at, vs[i], top) > 0 {
        RankFlip(at, vs[i], top);
        forall j | 0 <= j < i
          ensures Rank(at, vs[j], vs[i]) <= 0
        {
          RankTransitive(at, vs[j], top, vs[i]);
        }
        top := vs[i];
      }
    }
  }

  /** More than one distinct content. */
  method Differ(vs: seq<Version>) returns (b: bool)
    requires vs != []
    ensures b <==> exists i, j :: 0 <= i < |vs| && 0 <= j < |vs| && vs[i].file.sha != vs[j].file.sha
  {
    for i := 1 to |vs|
      invariant forall j :: 0 <= j < i ==> vs[j].file.sha == vs[0].file.sha
    {
      if vs[i].file.sha != vs[0].file.sha {
        return true;
      }
    }
    b := false;
  }

  lemma MaxIsTop(at: map<Node, int>, have: Have, p: Path, vs: seq<Version>, s: set<Node>, top: Version)
    requires VersionsOf(have, p, vs, s) && top in vs
    requires forall i :: 0 <= i < |vs| ==> Rank(at, vs[i], top) <= 0
    ensures IsTop(at, have, p, s, top.node) && top == VersionOf(have, top.node, p)
    ensures top.node == Top(at, have, p, s)
  {
    forall m | m in s
      ensures Holds(have, m, p) && Rank(at, VersionOf(have, m, p), top) <= 0
    {
      var i :| 0 <= i < |vs| && vs[i].node == m;
    }
    TopUnique(at, have, p, s, top.node, Top(at, have, p, s));
  }

  lemma {:induction false} DifferIsDiffering(have: Have, p: Path, vs: seq<Version>, s: set<Node>)
    requires VersionsOf(have, p, vs, s)
    ensures Differing(have, p, s) <==> exists i, j :: 0 <= i < |vs| && 0 <= j < |vs| && vs[i].file.sha != vs[j].file.sha
  {
    if Differing(have, p, s) {
      var n, m :| n in s && m in s && SumOn(have, n, p) != SumOn(have, m, p);
      var i :| 0 <= i < |vs| && vs[i].node == n;
      var j :| 0 <= j < |vs| && vs[j].node == m;
      assert vs[i].file.sha != vs[j].file.sha;
    }
    if i, j :| 0 <= i < |vs| && 0 <= j < |vs| && vs[i].file.sha != vs[j].file.sha {
      assert SumOn(have, vs[i].node, p) != SumOn(have, vs[j].node, p);
    }
  }
}
