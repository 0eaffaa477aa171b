/** What one sync does: who sends each file to whom, and what each node deletes. */
module Plans {
  import opened Transfer
  import opened Subsequences
  import Text

  /** A node's 16-byte ID, read as a number; comparing bytes or hex text compares these. */
  type Node = nat

  /** Hex text of a checksum: never empty, no spaces. An absent file reads as checksum "". */
  predicate IsSum(s: string) {
    s != "" && ' ' !in s
  }

  type Sum = s: string | IsSum(s) witness "0"

  /** A file as a listing describes it. */
  datatype SyncFile = SyncFile(path: Path, size: nat, sha: Sum, mtime: int)

  /** A node's listing by path. */
  type Holding = map<Path, SyncFile>

  /** The checksum a node holds at a path, "" if it has no such file. */
  function SumAt(m: Holding, p: Path): string {
    if p in m then m[p].sha else ""
  }

  /** One copy the plan asks for. */
  datatype Send = Send(from: Node, to: Node, file: SyncFile)

  /** A plan's contents; `log` lists its copies in the order they were planned. */
  datatype Planned = Planned(
    sends: map<Node, map<Path, seq<Node>>>,  // for each sender, where each of its files goes
    copies: map<Node, nat>,                  // how many files a node is sent
    bytes: map<Node, nat>,                   // and their total size
    deletes: map<Node, seq<Path>>,
    files: map<Path, Sum>,                   // two-way: what every node holds afterwards
    deleted: seq<Path>,                      // two-way: paths deleted on every node
    conflicts: seq<Path>,
    log: seq<Send>)

  const EMPTY: Planned := Planned(map[], map[], map[], map[], map[], [], [], [])

  /** The receivers of `path` from `from`. */
  function To(sends: map<Node, map<Path, seq<Node>>>, from: Node, path: Path): seq<Node> {
    if from in sends && path in sends[from] then sends[from][path] else []
  }

  function CopiesTo(v: Planned, n: Node): nat {
    if n in v.copies then v.copies[n] else 0
  }

  function BytesTo(v: Planned, n: Node): nat {
    if n in v.bytes then v.bytes[n] else 0
  }

  function DeletesOn(v: Planned, n: Node): seq<Path> {
    if n in v.deletes then v.deletes[n] else []
  }

  function WithCopy(v: Planned, from: Node, to: Node, f: SyncFile): Planned {
    var paths := if from in v.sends then v.sends[from] else map[];
    v.(sends := v.sends[from := paths[f.path := To(v.sends, from, f.path) + [to]]],
       copies := v.copies[to := CopiesTo(v, to) + 1],
       bytes := v.bytes[to := BytesTo(v, to) + f.size],
       log := v.log + [Send(from, to, f)])
  }

  function WithDeletes(v: Planned, node: Node, ps: seq<Path>): Planned {
    if ps == [] then v else v.(deletes := v.deletes[node := DeletesOn(v, node) + ps])
  }

  lemma WithDeletesAppend(v: Planned, node: Node, ps: seq<Path>, p: Path)
    ensures WithDeletes(WithDeletes(v, node, ps), node, [p]) == WithDeletes(v, node, ps + [p])
  {
    assert DeletesOn(v, node) + ps + [p] == DeletesOn(v, node) + (ps + [p]);
    if ps != [] {
      var d := v.deletes[node := DeletesOn(v, node) + ps];
      assert d[node := d[node] + [p]] == v.deletes[node := d[node] + [p]];
    } else {
      assert ps + [p] == [p];
    }
  }

  // ---------------------------------------------------------------- conservation

  function Receivers(log: seq<Send>, from: Node, path: Path): seq<Node> {
    if log == [] then []
    else
      var s := log[|log| - 1];
      var front := Receivers(log[..|log| - 1], from, path);
      if s.from == from && s.file.path == path then front + [s.to] else front
  }

  /** The files sent to `n`, in order. */
  function SentTo(log: seq<Send>, n: Node): seq<SyncFile> {
    if log == [] then []
    else
      var s := log[|log| - 1];
      var front := SentTo(log[..|log| - 1], n);
      if s.to == n then front + [s.file] else front
  }

  function TotalSize(fs: seq<SyncFile>): nat {
    if fs == [] then 0 else TotalSize(fs[..|fs| - 1]) + fs[|fs| - 1].size
  }

  /** The size of a list: the sum of its files' sizes. */
  lemma {:induction false} TotalSizeAdds(a: seq<SyncFile>, b: seq<SyncFile>)
    ensures TotalSize(a + b) == TotalSize(a) + TotalSize(b)
    ensures forall f: SyncFile :: TotalSize([f]) == f.size
  {
    forall f: SyncFile
      ensures TotalSize([f]) == f.size
    {
      assert [f][..0] == [];
    }
    if b == [] {
      assert a + b == a;
    } else {
      assert (a + b)[..|a + b| - 1] == a + b[..|b| - 1];
      TotalSizeAdds(a, b[..|b| - 1]);
    }
  }

  /** The per-sender lists, counts and sizes are exactly those of the copies planned. */
  ghost predicate Conserved(v: Planned) {
    && (forall from, path :: To(v.sends, from, path) == Receivers(v.log, from, path))
    && (forall n :: CopiesTo(v, n) == |SentTo(v.log, n)|)
    && (forall n :: BytesTo(v, n) == TotalSize(SentTo(v.log, n)))
  }

  lemma CopyConserves(v: Planned, from: Node, to: Node, f: SyncFile)
    requires Conserved(v)
    ensures Conserved(WithCopy(v, from, to, f))
  {
    var w := WithCopy(v, from, to, f);
    assert w.log[..|w.log| - 1] == v.log;
    forall a, p
      ensures To(w.sends, a, p) == Receivers(w.log, a, p)
    {
      assert To(v.sends, a, p) == Receivers(v.log, a, p);
    }
    forall n
      ensures CopiesTo(w, n) == |SentTo(w.log, n)| && BytesTo(w, n) == TotalSize(SentTo(w.log, n))
    {
      assert CopiesTo(v, n) == |SentTo(v.log, n)| && BytesTo(v, n) == TotalSize(SentTo(v.log, n));
      var fs := SentTo(v.log, n);
      assert (fs + [f])[..|fs|] == fs;
      assert TotalSize(fs + [f]) == TotalSize(fs) + f.size;
    }
  }

  /** `w` is `v` with more copies. */
  ghost predicate OnlyCopies(v: Planned, w: Planned) {
    && v.log <= w.log && Conserved(w)
    && w.deletes == v.deletes && w.files == v.files && w.deleted == v.deleted && w.conflicts == v.conflicts
  }

  lemma {:induction false} ReceiversMember(log: seq<Send>, from: Node, path: Path, to: Node)
    ensures to in Receivers(log, from, path) <==>
      exists s :: s in log && s.from == from && s.file.path == path && s.to == to
  {
    if log != [] {
      ReceiversMember(log[..|log| - 1], from, path, to);
      var last := log[|log| - 1];
      assert forall s :: s in log <==> s == last || s in log[..|log| - 1];
    }
  }

  lemma {:induction false} SentToMember(log: seq<Send>, n: Node, f: SyncFile)
    ensures f in SentTo(log, n) <==> exists s :: s in log && s.to == n && s.file == f
  {
    if log != [] {
      SentToMember(log[..|log| - 1], n, f);
      var last := log[|log| - 1];
      assert forall s :: s in log <==> s == last || s in log[..|log| - 1];
    }
  }

  /** No node is sent a path twice. */
  ghost predicate OncePerPath(log: seq<Send>) {
    forall i, j :: 0 <= i < j < |log| ==> !(log[i].to == log[j].to && log[i].file.path == log[j].file.path)
  }

  lemma {:induction false} SentToDistinct(log: seq<Send>, n: Node)
    requires OncePerPath(log)
    ensures var fs := SentTo(log, n); forall i, j :: 0 <= i < j < |fs| ==> fs[i].path != fs[j].path
  {
    if log != [] {
      var front := log[..|log| - 1];
      SentToDistinct(front, n);
      var last := log[|log| - 1];
      if last.to == n {
        forall i | 0 <= i < |SentTo(front, n)|
          ensures SentTo(front, n)[i].path != last.file.path
        {
          var f := SentTo(front, n)[i];
          SentToMember(front, n, f);
          var s :| s in front && s.to == n && s.file == f;
          var k :| 0 <= k < |front| && front[k] == s;
          assert log[k] == s;
        }
      }
    }
  }

  lemma {:induction false} ReceiversDistinct(log: seq<Send>, from: Node, path: Path)
    requires OncePerPath(log)
    ensures Distinct(Receivers(log, from, path))
  {
    if log != [] {
      var front := log[..|log| - 1];
      ReceiversDistinct(front, from, path);
      var last := log[|log| - 1];
      forall i | 0 <= i < |Receivers(front, from, path)|
        ensures last.file.path == path ==> Receivers(front, from, path)[i] != last.to
      {
        var to := Receivers(front, from, path)[i];
        ReceiversMember(front, from, path, to);
        var s :| s in front && s.from == from && s.file.path == path && s.to == to;
        var k :| 0 <= k < |front| && front[k] == s;
        assert log[k] == s;
      }
    }
  }

  // ---------------------------------------------------------------- nodes in order

  function InsertNode(n: Node, s: seq<Node>): seq<Node> {
    if s == [] || n < s[0] then [n] + s else [s[0]] + InsertNode(n, s[1..])
  }

  predicate Ascending(s: seq<Node>) {
    forall i, j :: 0 <= i < j < |s| ==> s[i] < s[j]
  }

  lemma {:induction false} InsertNodeFacts(n: Node, s: seq<Node>)
    requires Ascending(s) && n !in s
    ensures Ascending(InsertNode(n, s)) && forall m :: m in InsertNode(n, s) <==> m == n || m in s
  {
    if s != [] && !(n < s[0]) {
      InsertNodeFacts(n, s[1..]);
      var t := InsertNode(n, s[1..]);
      forall j | 0 <= j < |t|
        ensures s[0] < t[j]
      {
        assert t[j] in t;
      }
    }
  }

  /** The nodes of a set in ascending order. */
  method SortNodes(s: set<Node>) returns (nodes: seq<Node>)
    ensures Ascending(nodes) && forall n :: n in nodes <==> n in s
  {
    nodes := [];
    var todo := s;
    while todo != {}
      invariant todo <= s && Ascending(nodes) && forall n :: n in nodes <==> n in s - todo
      decreases |todo|
    {
      var n :| n in todo;
      InsertNodeFacts(n, nodes);
      nodes := InsertNode(n, nodes);
      todo := todo - {n};
    }
  }

  function SetOf(s: seq<Node>): set<Node> {
    set n | n in s
  }

  lemma {:induction false} RestShrinks(nodes: seq<Node>, i: nat)
    requires i < |nodes| && Ascending(nodes)
    ensures SetOf(nodes[i..]) - {nodes[i]} == SetOf(nodes[i + 1..]) && nodes[i] in SetOf(nodes[i..])
  {
    assert nodes[i..] == [nodes[i]] + nodes[i + 1..];
  }

  // ---------------------------------------------------------------- listings

  /** A listing by path, without leftover partial files. */
  function Indexed(files: seq<SyncFile>): Holding {
    if files == [] then map[]
    else
      var f := files[|files| - 1];
      var m := Indexed(files[..|files| - 1]);
      if IsPartial(f.path) then m else m[f.path := f]
  }

  /** The leftover partial files of a listing. */
  function Partials(files: seq<SyncFile>): seq<Path> {
    if files == [] then []
    else
      var f := files[|files| - 1];
      var front := Partials(files[..|files| - 1]);
      if IsPartial(f.path) then front + [f.path] else front
  }

  lemma {:induction false} IndexedFacts(files: seq<SyncFile>)
    ensures forall p :: p in Indexed(files) ==>
      !IsPartial(p) && Indexed(files)[p].path == p && Indexed(files)[p] in files
    ensures forall p :: p in Partials(files) ==> IsPartial(p)
    ensures forall f :: f in files ==> if IsPartial(f.path) then f.path in Partials(files) else f.path in Indexed(files)
  {
    if files != [] {
      var front, last := files[..|files| - 1], files[|files| - 1];
      IndexedFacts(front);
      assert forall f :: f in files <==> f == last || f in front;
    }
  }

  /** The listings of all listed nodes, and the same by path. */
  type Lists = map<Node, seq<SyncFile>>
  type Have = map<Node, Holding>

  /** One node's copy of a file. */
  datatype Version = Version(node: Node, file: SyncFile)

  predicate Holds(have: Have, n: Node, p: Path) {
    n in have && p in have[n]
  }

  function Indexing(lists: Lists): Have {
    map n | n in lists :: Indexed(lists[n])
  }

  function PartialsOn(lists: Lists, n: Node): seq<Path> {
    if n in lists then Partials(lists[n]) else []
  }

  ghost predicate WellKeyed(have: Have) {
    forall n, p :: Holds(have, n, p) ==> have[n][p].path == p && !IsPartial(p)
  }

  lemma IndexingKeyed(lists: Lists)
    ensures WellKeyed(Indexing(lists))
  {
    forall n | n in lists {
      IndexedFacts(lists[n]);
    }
  }

  /** Only the partial files of the nodes not in `todo` are in the plan yet. */
  ghost predicate IndexedOnly(v: Planned, lists: Lists, todo: set<Node>) {
    && v == EMPTY.(deletes := v.deletes)
    && forall n :: DeletesOn(v, n) == if n in todo then [] else PartialsOn(lists, n)
  }

  lemma IndexedOnlyStep(v: Planned, lists: Lists, todo: set<Node>, n: Node)
    requires IndexedOnly(v, lists, todo) && n in todo && n in lists
    ensures IndexedOnly(WithDeletes(v, n, Partials(lists[n])), lists, todo - {n})
  {
  }

  /** The plan being built; the planners fill it in place. */
  class Plan {
    var sends: map<Node, map<Path, seq<Node>>>
    var copies: map<Node, nat>
    var bytes: map<Node, nat>
    var deletes: map<Node, seq<Path>>
    var files: map<Path, Sum>
    var deleted: seq<Path>
    var conflicts: seq<Path>
    ghost var log: seq<Send>

    ghost function View(): Planned
      reads this
    {
      Planned(sends, copies, bytes, deletes, files, deleted, conflicts, log)
    }

    constructor ()
      ensures View() == EMPTY
    {
      sends, copies, bytes, deletes := map[], map[], map[], map[];
      files, deleted, conflicts := map[], [], [];
      log := [];
    }

    /** Plans one copy of `f`. */
    method Copy(from: Node, to: Node, f: SyncFile)
      modifies this
      ensures View() == WithCopy(old(View()), from, to, f)
    {
      var paths := if from in sends then sends[from] else map[];
      sends := sends[from := paths[f.path := (if f.path in paths then paths[f.path] else []) + [to]]];
      copies := copies[to := (if to in copies then copies[to] else 0) + 1];
      bytes := bytes[to := (if to in bytes then bytes[to] else 0) + f.size];
      log := log + [Send(from, to, f)];
    }

    method Delete(node: Node, p: Path)
      modifies this
      ensures View() == WithDeletes(old(View()), node, [p])
    {
      deletes := deletes[node := (if node in deletes then deletes[node] else []) + [p]];
    }

    /** One node's files, by path. A partial file among them is put down for deletion instead. */
    method Index(node: Node, fs: seq<SyncFile>) returns (m: Holding)
      modifies this
      ensures m == Indexed(fs) && View() == WithDeletes(old(View()), node, Partials(fs))
    {
      m := map[];
      for i := 0 to |fs|
        invariant m == Indexed(fs[..i]) && View() == WithDeletes(old(View()), node, Partials(fs[..i]))
      {
        var f := fs[i];
        assert fs[..i + 1][..i] == fs[..i];
        WithDeletesAppend(old(View()), node, Partials(fs[..i]), f.path);
        if IsPartial(f.path) {
          Delete(node, f.path);
        } else {
          m := m[f.path := f];
        }
      }
      assert fs[..|fs|] == fs;
    }

    method SortDeletes()
      modifies this
      ensures View() == old(View()).(deletes := map n | n in old(deletes) :: Text.Sort(old(deletes)[n]))
    {
      deletes := map n | n in deletes :: Text.Sort(deletes[n]);
    }
  }
}
