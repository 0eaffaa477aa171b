/** The file names of a pgBackRest repository: its WAL archive and its index files. */
module WalFiles {
  import opened Transfer

  function Slashes(p: string): nat {
    if p == "" then 0 else (if p[0] == '/' then 1 else 0) + Slashes(p[1..])
  }

  predicate HasPrefix(s: string, prefix: string) {
    prefix <= s
  }

  /** The length of the directory part of a path, its last slash included. */
  function DirLength(p: string): (n: nat)
    ensures n <= |p| && (n > 0 ==> p[n - 1] == '/') && '/' !in p[n..]
  {
    if p == "" then 0
    else if p[|p| - 1] == '/' then |p|
    else
      var n := DirLength(p[..|p| - 1]);
      assert p[n..] == p[..|p| - 1][n..] + [p[|p| - 1]];
      n
  }

  function TrimSlashes(p: string): string {
    if p != "" && p[|p| - 1] == '/' then TrimSlashes(p[..|p| - 1]) else p
  }

  /** The last element of a path. */
  function Base(p: string): string {
    if p == "" then "."
    else
      var q := TrimSlashes(p);
      if q == "" then "/" else q[DirLength(q)..]
  }

  /** Text up to the first `c`, or all of it. */
  function Before(s: string, c: char): (r: string)
    ensures r <= s && c !in r && (c !in s ==> r == s) && (r != s ==> s[|r|] == c)
  {
    if s == "" || s[0] == c then "" else [s[0]] + Before(s[1..], c)
  }

  /** The repository's own catalogues, which go last. */
  predicate IsIndexFile(p: Path) {
    Base(p) in {"backup.info", "backup.info.copy", "archive.info", "archive.info.copy"}
  }

  /** In the WAL archive: a segment, a partial segment or a timeline history file. */
  predicate IsWal(p: Path) {
    HasPrefix(p, "archive/") && Slashes(p) >= 3 && !IsIndexFile(p)
  }

  predicate IsHistory(p: Path) {
    HasSuffix(p, ".history")
  }

  lemma SegmentCut(p: Path, n: nat, name: string)
    requires n <= |p| && name <= p[n..] && '-' !in name && (name != p[n..] ==> p[n..][|name|] == '-')
    ensures var seg := p[..n] + name;
      seg <= p && '-' !in p[n..|seg|] && (seg == p || p[|seg|] == '-') && n <= |seg|
  {
    var seg := p[..n] + name;
    assert p == p[..n] + p[n..];
    assert p[n..|seg|] == name;
    if name == p[n..] {
      assert seg == p;
    } else {
      assert p[|seg|] == p[n..][|name|];
    }
  }

  /** The segment a WAL file holds: its path, cut at the first dash in its name. */
  function WalSegment(p: Path): (seg: string)
    ensures seg <= p && DirLength(p) <= |seg| && '-' !in p[DirLength(p)..|seg|]
    ensures seg == p || p[|seg|] == '-'
  {
    var n := DirLength(p);
    var name := Before(p[n..], '-');
    SegmentCut(p, n, name);
    p[..n] + name
  }
}
