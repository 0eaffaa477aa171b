/** The vocabulary of a file transfer: paths, folders, chunks and what a sender finds on disk. */
module Transfer {
  newtype byte = x: int | 0 <= x < 256
  type Bytes = seq<byte>
  type Path = string
  type Folder = map<Path, Bytes>

  /** Any checksum function: nothing here relies on it having no collisions. */
  type Hash = Bytes -> string

  const CHUNK_SIZE: nat := 64 * 1024
  const PARTIAL_SUFFIX: string := ".nbc-partial"

  datatype Option<+T> = None | Some(value: T)

  datatype Chunk = Chunk(
    path: Path,
    index: nat,
    data: Bytes,
    eof: bool,
    sha: string,   // with eof: checksum of all the data sent
    gone: bool,    // the file vanished on the sender since the listing
    err: string)   // the sender couldn't read the file

  /** What a sender finds when it opens and reads a file it was asked to send. */
  datatype Found =
    | Missing
    | Unopenable(why: string)
    | Unreadable(head: Bytes, why: string)  // `head` is read, then a read fails
    | Contents(data: Bytes)

  /** The file at `q` is the same, or absent, in both folders. */
  predicate SameAt(a: Folder, b: Folder, q: Path) {
    (q in a <==> q in b) && (q in a ==> a[q] == b[q])
  }

  predicate HasSuffix(s: string, suffix: string) {
    |suffix| <= |s| && s[|s| - |suffix|..] == suffix
  }

  predicate IsPartial(p: Path) {
    HasSuffix(p, PARTIAL_SUFFIX)
  }

  function PartialName(p: Path): (r: Path)
    ensures IsPartial(r)
  {
    p + PARTIAL_SUFFIX
  }

  /** Distinct files are received under distinct names. */
  lemma PartialNameInjective(p: Path, q: Path)
    requires PartialName(p) == PartialName(q)
    ensures p == q
  {
    assert p == PartialName(p)[..|PartialName(p)| - |PARTIAL_SUFFIX|];
    assert q == PartialName(q)[..|PartialName(q)| - |PARTIAL_SUFFIX|];
  }

  /**
   * A relative path that stays under its folder: not empty, not absolute, and never
   * climbing above where it started.
   */
  predicate LocalPath(p: Path) {
    p != "" && p[0] != '/' && StaysInside(p, "", 0)
  }

  /** Walks `p` component by component (`part` is the one being read), `depth` levels down. */
  predicate StaysInside(p: Path, part: Path, depth: int)
    decreases |p|
  {
    if p == "" then
      Enter(part, depth) >= 0
    else if p[0] == '/' then
      Enter(part, depth) >= 0 && StaysInside(p[1..], "", Enter(part, depth))
    else
      StaysInside(p[1..], part + [p[0]], depth)
  }

  function Enter(part: Path, depth: int): int {
    if part == "" || part == "." then depth
    else if part == ".." then depth - 1
    else depth + 1
  }
}
