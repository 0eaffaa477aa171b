/** From the plan to the disk: what a receiver's clean finish proves, whatever the network did. */
module EndToEnd {
  import opened Transfer
  import opened Subsequences
  import opened Plans
  import opened Receiver
  import opened CopyPhase
  import Text

  /** A receive at the conductor's end: no failure reported and as many files as were planned. */
  predicate Clean(t: Site, want: nat) {
    t.errors == 0 && t.copied + t.skipped == want
  }

  /**
   * A clean finish after any lossy delivery of `items` means every one of them arrived, and
   * nothing else changed.
   */
  lemma CleanMeansArrived(h: Hash, disk: Folder, es: seq<Event>, items: seq<Item>, closes: bool)
    requires Distinct(Paths(items)) && Sub(Chunks(es), Flow(h, items))
    requires forall i :: 0 <= i < |items| ==> Sendable(items[i])
    requires Clean(Finish(Run(h, Idle(disk), es), closes), |items|)
    ensures var t := Finish(Run(h, Idle(disk), es), closes);
      && (forall i :: 0 <= i < |items| ==> Arrived(items[i].found, items[i].path, t.disk))
      && (forall q :: q !in Paths(items) && !IsPartial(q) ==> SameAt(disk, t.disk, q))
  {
    FilesReceived(h, Idle(disk), es, items);
    FinishSpares(Run(h, Idle(disk), es), closes);
  }

  /** Closing a receive touches no finished file. */
  lemma FinishSpares(s: Site, closes: bool)
    ensures forall q :: !IsPartial(q) ==> SameAt(s.disk, Finish(s, closes).disk, q)
    ensures Good(Finish(s, closes)) == Good(s)
  {
  }

  // ---------------------------------------------------------------- the script is the plan

  lemma SentFrom(v: Planned, from: Node, p: Path, n: Node)
    requires Conserved(v)
    ensures n in To(v.sends, from, p) <==> exists s :: s in v.log && s.from == from && s.file.path == p && s.to == n
  {
    assert To(v.sends, from, p) == Receivers(v.log, from, p);
    ReceiversMember(v.log, from, p, n);
  }

  /** A node gets a path from one sender only. */
  lemma OneSender(v: Planned, p: Path, n: Node, a: Node, b: Node)
    requires Conserved(v) && OncePerPath(v.log) && n in To(v.sends, a, p) && n in To(v.sends, b, p)
    ensures a == b
  {
    SentFrom(v, a, p, n);
    SentFrom(v, b, p, n);
    var s :| s in v.log && s.from == a && s.file.path == p && s.to == n;
    var t :| t in v.log && t.from == b && t.file.path == p && t.to == n;
    var i :| 0 <= i < |v.log| && v.log[i] == s;
    var j :| 0 <= j < |v.log| && v.log[j] == t;
    assert i == j;
  }

  lemma {:induction false} NeededDistinct(sends: Sends, found: Finds, from: Node, paths: seq<Path>, n: Node)
    requires Distinct(paths)
    ensures Distinct(Paths(Needed(sends, found, from, paths, n)))
  {
    if paths != [] {
      var front, p := paths[..|paths| - 1], paths[|paths| - 1];
      NeededDistinct(sends, found, from, front, n);
      NeededFacts(sends, found, from, front, n);
      var a := Needed(sends, found, from, front, n);
      assert forall i :: 0 <= i < |a| ==> a[i] in a;
      assert Paths(a + [Item(p, found(from, p))]) == Paths(a) + [p];
    }
  }

  /** `n` gets `it` from `from`. */
  ghost predicate GetsFrom(sends: Sends, found: Finds, froms: seq<Node>, orders: map<Node, seq<Path>>, n: Node,
                           it: Item, from: Node) {
    from in froms && from in orders && it.path in orders[from] && n in To(sends, from, it.path) &&
      it.found == found(from, it.path)
  }

  /** Which items are in a script. */
  lemma {:induction false} ScriptFacts(sends: Sends, found: Finds, froms: seq<Node>, orders: map<Node, seq<Path>>,
                                       n: Node, it: Item)
    ensures it in Script(sends, found, froms, orders, n) <==>
      exists from :: GetsFrom(sends, found, froms, orders, n, it, from)
  {
    if froms != [] {
      var front, last := froms[..|froms| - 1], froms[|froms| - 1];
      assert froms == front + [last];
      ScriptFacts(sends, found, front, orders, n, it);
      if last in orders {
        NeededFacts(sends, found, last, orders[last], n);
        assert it in Needed(sends, found, last, orders[last], n) <==>
          GetsFrom(sends, found, froms, orders, n, it, last);
      }
      if from :| GetsFrom(sends, found, froms, orders, n, it, from) {
        assert from == last || GetsFrom(sends, found, front, orders, n, it, from);
      }
      if from :| GetsFrom(sends, found, front, orders, n, it, from) {
        assert GetsFrom(sends, found, froms, orders, n, it, from);
      }
    }
  }

  lemma {:induction false} ScriptDistinct(v: Planned, found: Finds, froms: seq<Node>, orders: map<Node, seq<Path>>,
                                          n: Node)
    requires Conserved(v) && OncePerPath(v.log) && Distinct(froms)
    requires forall from :: from in orders ==> Distinct(orders[from])
    ensures Distinct(Paths(Script(v.sends, found, froms, orders, n)))
  {
    if froms != [] {
      var front, from := froms[..|froms| - 1], froms[|froms| - 1];
      ScriptDistinct(v, found, front, orders, n);
      if from in orders {
        var a, b := Script(v.sends, found, front, orders, n), Needed(v.sends, found, from, orders[from], n);
        NeededDistinct(v.sends, found, from, orders[from], n);
        assert Paths(a + b) == Paths(a) + Paths(b);
        forall p, q | p in Paths(a) && q in Paths(b)
          ensures p != q
        {
          PathsMember(a, p);
          PathsMember(b, q);
          var x :| x in a && x.path == p;
          var y :| y in b && y.path == q;
          ScriptFacts(v.sends, found, front, orders, n, x);
          NeededFacts(v.sends, found, from, orders[from], n);
          var other :| GetsFrom(v.sends, found, front, orders, n, x, other);
          if p == q {
            OneSender(v, p, n, other, from);
          }
        }
        DistinctConcat(Paths(a), Paths(b));
      }
    }
  }

  /** The orders of a whole copy phase. */
  ghost predicate Ordered(v: Planned, receiving: set<Node>, last: Path -> bool, froms: seq<Node>,
                          orders: map<Node, seq<Path>>) {
    && Ascending(froms) && (forall n :: n in froms <==> n in v.sends) && orders.Keys == v.sends.Keys
    && forall n :: n in orders ==> OrderOf(v.sends, receiving, last, n, orders[n])
  }

  /** A receiving node's script holds exactly the copies planned for it, each path once. */
  lemma ScriptIsPlan(v: Planned, receiving: set<Node>, last: Path -> bool, found: Finds, froms: seq<Node>,
                     orders: map<Node, seq<Path>>, n: Node)
    requires Conserved(v) && OncePerPath(v.log) && Ordered(v, receiving, last, froms, orders) && n in receiving
    ensures var items := Script(v.sends, found, froms, orders, n);
      && Distinct(Paths(items)) && |items| == CopiesTo(v, n)
      && (forall s :: s in v.log && s.to == n ==> Item(s.file.path, found(s.from, s.file.path)) in items)
      && (forall it :: it in items ==>
          exists s :: s in v.log && s.to == n && s.file.path == it.path && it.found == found(s.from, it.path))
  {
    var items := Script(v.sends, found, froms, orders, n);
    ScriptDistinct(v, found, froms, orders, n);
    forall s | s in v.log && s.to == n
      ensures Item(s.file.path, found(s.from, s.file.path)) in items
    {
      SentFrom(v, s.from, s.file.path, n);
      assert s.from in v.sends;
      assert OrderOf(v.sends, receiving, last, s.from, orders[s.from]);
      var it := Item(s.file.path, found(s.from, s.file.path));
      ScriptFacts(v.sends, found, froms, orders, n, it);
      assert GetsFrom(v.sends, found, froms, orders, n, it, s.from);
    }
    forall it | it in items
      ensures exists s :: s in v.log && s.to == n && s.file.path == it.path && it.found == found(s.from, it.path)
    {
      ScriptFacts(v.sends, found, froms, orders, n, it);
      var from :| GetsFrom(v.sends, found, froms, orders, n, it, from);
      SentFrom(v, from, it.path, n);
    }
    SameCount(v, items, n);
  }

  function FilePaths(fs: seq<SyncFile>): seq<Path> {
    seq(|fs|, i requires 0 <= i < |fs| => fs[i].path)
  }

  lemma PathsMember(items: seq<Item>, p: Path)
    ensures p in Paths(items) <==> exists it :: it in items && it.path == p
  {
    if it :| it in items && it.path == p {
      var i :| 0 <= i < |items| && items[i] == it;
      assert Paths(items)[i] == p;
    }
  }

  lemma FilePathsMember(log: seq<Send>, n: Node, p: Path)
    ensures p in FilePaths(SentTo(log, n)) <==> exists s :: s in log && s.to == n && s.file.path == p
  {
    var fs := SentTo(log, n);
    if p in FilePaths(fs) {
      var k :| 0 <= k < |fs| && fs[k].path == p;
      SentToMember(log, n, fs[k]);
    }
    if s :| s in log && s.to == n && s.file.path == p {
      SentToMember(log, n, s.file);
      var k :| 0 <= k < |fs| && fs[k] == s.file;
      assert FilePaths(fs)[k] == p;
    }
  }

  lemma SameCount(v: Planned, items: seq<Item>, n: Node)
    requires Conserved(v) && OncePerPath(v.log) && Distinct(Paths(items))
    requires forall s :: s in v.log && s.to == n ==> exists it :: it in items && it.path == s.file.path
    requires forall it :: it in items ==> exists s :: s in v.log && s.to == n && s.file.path == it.path
    ensures |items| == CopiesTo(v, n)
  {
    SentToDistinct(v.log, n);
    var a, b := Paths(items), FilePaths(SentTo(v.log, n));
    forall i, j | 0 <= i < j < |b|
      ensures b[i] != b[j]
    {
      assert SentTo(v.log, n)[i].path != SentTo(v.log, n)[j].path;
    }
    forall p
      ensures p in a <==> p in b
    {
      PathsMember(items, p);
      FilePathsMember(v.log, n, p);
    }
    Text.SameCount(a, b);
  }
}
