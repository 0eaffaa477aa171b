/** The copying of one run: every sender in turn, its files in batches, through the relay. */
module CopyPhase {
  import opened Transfer
  import opened Subsequences
  import opened Plans
  import opened Receiver
  import opened Relay
  import opened Batching
  import Sender

  /**
   * What happens to one batch: which chunks the sender's queue takes (by file and chunk number),
   * what of the chunks queued reaches the conductor while the batch runs, and whether the
   * sender's own outcome comes back.
   */
  datatype Transit = Transit(accepts: (nat, nat) -> bool, carried: seq<Chunk> -> seq<Arrival>, answers: bool)

  /** What each sender finds when it reads a file; each file is read once. */
  type Finds = (Node, Path) -> Found

  /** What becomes of each batch. */
  type Transits = (Node, seq<Path>) -> Transit

  function ItemsOf(found: Finds, from: Node, paths: seq<Path>): seq<Item> {
    seq(|paths|, i requires 0 <= i < |paths| => Item(paths[i], found(from, paths[i])))
  }

  /** The chunks `node` itself sent. */
  function Own(node: Node, arrivals: seq<Arrival>): seq<Chunk> {
    if arrivals == [] then []
    else
      var front := Own(node, arrivals[..|arrivals| - 1]);
      var a := arrivals[|arrivals| - 1];
      if a.node == node then front + [a.chunk] else front
  }

  /**
   * Streams the named files. Success means every file's whole stream was queued, in order;
   * otherwise a prefix was.
   */
  method SendSyncFiles(h: Hash, from: Node, paths: seq<Path>, found: Finds, accepts: (nat, nat) -> bool)
    returns (sent: seq<Chunk>, ok: bool)
    ensures ok ==> sent == Flow(h, ItemsOf(found, from, paths)) && forall p :: p in paths ==> LocalPath(p)
    ensures !ok ==> sent <= Flow(h, ItemsOf(found, from, paths))
    ensures (forall i, k :: accepts(i, k)) && (forall p :: p in paths ==> LocalPath(p)) ==> ok
  {
    sent := [];
    for i := 0 to |paths|
      invariant sent == Flow(h, ItemsOf(found, from, paths[..i])) && forall p :: p in paths[..i] ==> LocalPath(p)
    {
      var rel := paths[i];
      FlowGrows(h, found, from, paths, i);
      if !LocalPath(rel) {
        return sent, false;
      }
      var chunks, done := Sender.SendSyncFile(h, rel, found(from, rel), (k: nat) => accepts(i, k));
      sent := sent + chunks;
      if !done {
        return sent, false;
      }
    }
    assert paths[..|paths|] == paths;
    ok := true;
  }

  lemma {:induction false} FlowConcat(h: Hash, a: seq<Item>, b: seq<Item>)
    ensures Flow(h, a + b) == Flow(h, a) + Flow(h, b)
  {
    if a == [] {
      assert a + b == b;
    } else {
      assert (a + b)[1..] == a[1..] + b;
      FlowConcat(h, a[1..], b);
    }
  }

  lemma FlowGrows(h: Hash, found: Finds, from: Node, paths: seq<Path>, i: nat)
    requires i < |paths|
    ensures Flow(h, ItemsOf(found, from, paths[..i + 1])) ==
      Flow(h, ItemsOf(found, from, paths[..i])) + Sender.Stream(h, paths[i], found(from, paths[i]))
    ensures Flow(h, ItemsOf(found, from, paths[..i + 1])) <= Flow(h, ItemsOf(found, from, paths))
  {
    var item := Item(paths[i], found(from, paths[i]));
    var front, all := ItemsOf(found, from, paths[..i]), ItemsOf(found, from, paths);
    assert ItemsOf(found, from, paths[..i + 1]) == front + [item];
    FlowConcat(h, front, [item]);
    assert [item][1..] == [];
    assert all == ItemsOf(found, from, paths[..i + 1]) + all[i + 1..];
    FlowConcat(h, ItemsOf(found, from, paths[..i + 1]), all[i + 1..]);
  }

  /**
   * The one thing assumed of the network: the chunks queued reach the conductor in order and
   * before their batch's outcome does; any of them may be lost. A batch whose outcome doesn't
   * come back promises nothing.
   */
  ghost predicate Honest(transits: Transits) {
    forall from, batch, sent ::
      transits(from, batch).answers ==> Sub(Own(from, transits(from, batch).carried(sent)), sent)
  }

  /** No receiver is ever too slow. */
  predicate Smooth(arrivals: seq<Arrival>) {
    forall a :: a in arrivals ==> a.stuck == {}
  }

  /** Nothing goes wrong: every chunk is queued and arrives, and every outcome comes back. */
  ghost predicate Lossless(transits: Transits) {
    forall from, batch :: LosslessTransit(from, transits(from, batch))
  }

  ghost predicate LosslessTransit(from: Node, t: Transit) {
    && t.answers && (forall i, k :: t.accepts(i, k))
    && forall sent :: Smooth(t.carried(sent)) && Own(from, t.carried(sent)) == sent
  }

  /** Some of a batch's chunks arrived, in order; all of them if nothing is lost. */
  ghost predicate Carried(whole: bool, h: Hash, found: Finds, from: Node, batch: seq<Path>, arrivals: seq<Arrival>) {
    var flow := Flow(h, ItemsOf(found, from, batch));
    Sub(Own(from, arrivals), flow) && (whole ==> Own(from, arrivals) == flow) && forall p :: p in batch ==> LocalPath(p)
  }

  // ---------------------------------------------------------------- one batch

  function Lookup(routes: map<Path, seq<Node>>, p: Path): seq<Node> {
    if p in routes then routes[p] else []
  }

  /** The chunks of files routed to `n`. */
  function Routed(routes: map<Path, seq<Node>>, n: Node): Chunk -> bool {
    (c: Chunk) => n in Lookup(routes, c.path)
  }

  /** `b` is `a` followed by some of `f`, in order; by all of it if nothing is lost (`whole`). */
  predicate Extended(whole: bool, a: seq<Chunk>, b: seq<Chunk>, f: seq<Chunk>) {
    a <= b && Sub(b[|a|..], f) && (whole ==> b == a + f)
  }

  lemma TailInTwo(a: seq<Chunk>, b: seq<Chunk>, c: seq<Chunk>)
    requires a <= b <= c
    ensures a <= c && c[|a|..] == b[|a|..] + c[|b|..]
  {
  }

  lemma ThreeJoined(a: seq<Chunk>, f: seq<Chunk>, g: seq<Chunk>)
    ensures a + f + g == a + (f + g)
  {
  }

  lemma {:induction false} ExtendedStep(whole: bool, a: seq<Chunk>, b: seq<Chunk>, f: seq<Chunk>, b2: seq<Chunk>,
                                        g: seq<Chunk>)
    requires Extended(whole, a, b, f) && Extended(whole, b, b2, g)
    ensures Extended(whole, a, b2, f + g)
  {
    TailInTwo(a, b, b2);
    assert Sub(b2[|a|..], f + g) by {
      SubConcat(b[|a|..], f, b2[|b|..], g);
    }
    ThreeJoined(a, f, g);
  }

  /** While a batch of `from` runs, each node gets some of the chunks routed to it. */
  ghost predicate Relayed(whole: bool, k: Link, m: Link, from: Node, arrivals: seq<Arrival>) {
    && m.source == k.source == from && m.routes == k.routes && k.dropped <= m.dropped && (whole ==> m.dropped == {})
    && forall n :: Extended(whole, WireTo(k, n), WireTo(m, n), Filter(Own(from, arrivals), Routed(k.routes, n)))
  }

  lemma RelayedStep(whole: bool, k: Link, m: Link, x: Link, from: Node, arrivals: seq<Arrival>, a: Arrival)
    requires Relayed(whole, k, m, from, arrivals) && Forwarded(m, a, x) && (whole ==> a.stuck == {})
    ensures Relayed(whole, k, x, from, arrivals + [a])
  {
    assert (arrivals + [a])[..|arrivals|] == arrivals;
    forall n
      ensures Extended(whole, WireTo(k, n), WireTo(x, n), Filter(Own(from, arrivals + [a]), Routed(k.routes, n)))
    {
      RelayedStepAt(whole, k, m, x, from, arrivals, a, n);
    }
  }

  /** One chunk of the node whose turn it is: a node it is routed to gets it, unless that node is cut off. */
  lemma ForwardedAt(whole: bool, m: Link, x: Link, a: Arrival, n: Node, g: seq<Chunk>)
    requires a.node == m.source && Forwarded(m, a, x) && (whole ==> a.stuck == {} && m.dropped == {})
    requires g == if n in RouteOf(m, a.chunk.path) then [a.chunk] else []
    ensures Extended(whole, WireTo(m, n), WireTo(x, n), g)
  {
    if Reaches(m, a, n) {
      SubReflexive([a.chunk]);
      assert WireTo(x, n)[|WireTo(m, n)|..] == [a.chunk];
    } else {
      assert WireTo(x, n)[|WireTo(m, n)|..] == [];
    }
  }

  lemma RelayedStepAt(whole: bool, k: Link, m: Link, x: Link, from: Node, arrivals: seq<Arrival>, a: Arrival, n: Node)
    requires m.source == from && m.routes == k.routes && Forwarded(m, a, x)
    requires (whole ==> a.stuck == {} && m.dropped == {})
    requires Own(from, arrivals + [a]) == if a.node == from then Own(from, arrivals) + [a.chunk]
      else Own(from, arrivals)
    requires Extended(whole, WireTo(k, n), WireTo(m, n), Filter(Own(from, arrivals), Routed(k.routes, n)))
    ensures Extended(whole, WireTo(k, n), WireTo(x, n), Filter(Own(from, arrivals + [a]), Routed(k.routes, n)))
  {
    var own, keep := Own(from, arrivals), Routed(k.routes, n);
    if a.node == from {
      FilterConcat(own, [a.chunk], keep);
      FilterOne(a.chunk, keep);
      var g := if keep(a.chunk) then [a.chunk] else [];
      ForwardedAt(whole, m, x, a, n, g);
      ExtendedStep(whole, WireTo(k, n), WireTo(m, n), Filter(own, keep), WireTo(x, n), g);
    } else {
      assert WireTo(x, n) == WireTo(m, n);
    }
  }

  lemma FilterOne<T>(x: T, keep: T -> bool)
    ensures Filter([x], keep) == if keep(x) then [x] else []
  {
    assert [x][1..] == [];
  }

  method RelayBatch(ghost whole: bool, r: RelayRun, from: Node, routes: map<Path, seq<Node>>, arrivals: seq<Arrival>)
    requires forall p :: p in routes ==> Distinct(routes[p])
    requires whole ==> r.dropped == {} && Smooth(arrivals)
    modifies r
    ensures Relayed(whole, old(r.State()).(source := from, routes := routes), r.State(), from, arrivals)
  {
    r.source, r.routes := from, routes;
    ghost var k := r.State();
    forall n
      ensures Extended(whole, WireTo(k, n), WireTo(k, n), [])
    {
      assert WireTo(k, n)[|WireTo(k, n)|..] == [];
    }
    for i := 0 to |arrivals|
      invariant Relayed(whole, k, r.State(), from, arrivals[..i])
    {
      ghost var m := r.State();
      r.HandleChunk(arrivals[i]);
      assert arrivals[..i + 1] == arrivals[..i] + [arrivals[i]];
      RelayedStep(whole, k, m, r.State(), from, arrivals[..i], arrivals[i]);
    }
    assert arrivals[..|arrivals|] == arrivals;
    assert forall n :: WireTo(k, n) == WireTo(old(r.State()).(source := from, routes := routes), n);
  }

  // ---------------------------------------------------------------- one sender

  /** The sending side of a plan: sending node -> path -> receiving nodes. */
  type Sends = map<Node, map<Path, seq<Node>>>

  /** The files `n` gets from `from`, in the order `paths`. */
  function Needed(sends: Sends, found: Finds, from: Node, paths: seq<Path>, n: Node): seq<Item> {
    if paths == [] then []
    else
      var front := Needed(sends, found, from, paths[..|paths| - 1], n);
      var p := paths[|paths| - 1];
      if n in To(sends, from, p) then front + [Item(p, found(from, p))] else front
  }

  lemma {:induction false} NeededConcat(sends: Sends, found: Finds, from: Node, a: seq<Path>, b: seq<Path>, n: Node)
    ensures Needed(sends, found, from, a + b, n) == Needed(sends, found, from, a, n) + Needed(sends, found, from, b, n)
  {
    if b == [] {
      assert a + b == a;
    } else {
      assert (a + b)[..|a + b| - 1] == a + b[..|b| - 1];
      NeededConcat(sends, found, from, a, b[..|b| - 1], n);
    }
  }

  /** The nodes of `to` that are receiving. */
  function Among(to: seq<Node>, receiving: set<Node>): seq<Node> {
    Filter(to, n => n in receiving)
  }

  /** The routes of the files `paths` of one sender, to the nodes that are receiving. */
  function RoutesOf(sends: Sends, from: Node, receiving: set<Node>, paths: seq<Path>): map<Path, seq<Node>> {
    if paths == [] then map[]
    else
      var p := paths[|paths| - 1];
      RoutesOf(sends, from, receiving, paths[..|paths| - 1])[p := Among(To(sends, from, p), receiving)]
  }

  lemma {:induction false} RoutesFacts(sends: Sends, from: Node, receiving: set<Node>, paths: seq<Path>)
    ensures var routes := RoutesOf(sends, from, receiving, paths);
      && (forall p :: p in routes <==> p in paths)
      && (forall p :: p in routes ==> routes[p] == Among(To(sends, from, p), receiving))
  {
    if paths != [] {
      RoutesFacts(sends, from, receiving, paths[..|paths| - 1]);
      assert paths == paths[..|paths| - 1] + [paths[|paths| - 1]];
    }
  }

  lemma RoutesReach(sends: Sends, from: Node, receiving: set<Node>, paths: seq<Path>, p: Path, n: Node)
    ensures n in Lookup(RoutesOf(sends, from, receiving, paths), p) <==>
      p in paths && n in To(sends, from, p) && n in receiving
  {
    RoutesFacts(sends, from, receiving, paths);
    FilterMember(To(sends, from, p), m => m in receiving, n);
  }

  lemma {:induction false} StreamPaths(h: Hash, path: Path, found: Found, idx: nat, pos: nat)
    requires (found.Contents? || found.Unreadable?) && pos <= |Sender.Readable(found)|
    ensures forall c :: c in Sender.Blocks(h, path, found, idx, pos) ==> c.path == path
    decreases |Sender.Readable(found)| - pos
  {
    if |Sender.Readable(found)| >= pos + CHUNK_SIZE {
      StreamPaths(h, path, found, idx + 1, pos + CHUNK_SIZE);
    }
  }

  lemma {:induction false} FilterSame<T>(s: seq<T>, keep: T -> bool, b: bool)
    requires forall x :: x in s ==> keep(x) == b
    ensures Filter(s, keep) == if b then s else []
  {
    if s != [] {
      FilterSame(s[1..], keep, b);
    }
  }

  /** Relaying a whole file keeps all of it or none of it. */
  lemma FileRouted(h: Hash, path: Path, found: Found, routes: map<Path, seq<Node>>, n: Node)
    ensures var st := Sender.Stream(h, path, found);
      Filter(st, Routed(routes, n)) == if n in Lookup(routes, path) then st else []
  {
    var st := Sender.Stream(h, path, found);
    if found.Contents? || found.Unreadable? {
      StreamPaths(h, path, found, 0, 0);
    }
    assert forall c :: c in st ==> c.path == path;
    FilterSame(st, Routed(routes, n), n in Lookup(routes, path));
  }

  /** What a node is sent of one file: all of it or nothing. */
  function PartFor(h: Hash, sends: Sends, found: Finds, from: Node, p: Path, n: Node): seq<Chunk> {
    if n in To(sends, from, p) then Sender.Stream(h, p, found(from, p)) else []
  }

  lemma PartRouted(h: Hash, sends: Sends, found: Finds, from: Node, receiving: set<Node>, batch: seq<Path>, p: Path,
                   n: Node)
    requires n in receiving && p in batch
    ensures Filter(Sender.Stream(h, p, found(from, p)), Routed(RoutesOf(sends, from, receiving, batch), n)) ==
      PartFor(h, sends, found, from, p, n)
  {
    FileRouted(h, p, found(from, p), RoutesOf(sends, from, receiving, batch), n);
    RoutesReach(sends, from, receiving, batch, p, n);
  }

  lemma PartNeeded(h: Hash, sends: Sends, found: Finds, from: Node, front: seq<Path>, p: Path, n: Node)
    ensures Flow(h, Needed(sends, found, from, front + [p], n)) ==
      Flow(h, Needed(sends, found, from, front, n)) + PartFor(h, sends, found, from, p, n)
  {
    assert (front + [p])[..|front|] == front;
    FlowConcat(h, Needed(sends, found, from, front, n), [Item(p, found(from, p))]);
    FlowOne(h, Item(p, found(from, p)));
  }

  lemma PartSent(h: Hash, found: Finds, from: Node, front: seq<Path>, p: Path)
    ensures Flow(h, ItemsOf(found, from, front + [p])) ==
      Flow(h, ItemsOf(found, from, front)) + Sender.Stream(h, p, found(from, p))
  {
    assert ItemsOf(found, from, front + [p]) == ItemsOf(found, from, front) + [Item(p, found(from, p))];
    FlowConcat(h, ItemsOf(found, from, front), [Item(p, found(from, p))]);
    FlowOne(h, Item(p, found(from, p)));
  }

  lemma FlowOne(h: Hash, item: Item)
    ensures Flow(h, [item]) == Sender.Stream(h, item.path, item.found)
  {
    assert [item][1..] == [];
  }

  /** The files `front` of a batch reach a node just as it needs them. */
  ghost predicate RoutedRight(h: Hash, sends: Sends, found: Finds, from: Node, receiving: set<Node>, batch: seq<Path>,
                              front: seq<Path>, n: Node) {
    Filter(Flow(h, ItemsOf(found, from, front)), Routed(RoutesOf(sends, from, receiving, batch), n)) ==
      Flow(h, Needed(sends, found, from, front, n))
  }

  lemma RoutedMore(h: Hash, sends: Sends, found: Finds, from: Node, receiving: set<Node>, batch: seq<Path>,
                   front: seq<Path>, p: Path, n: Node)
    requires RoutedRight(h, sends, found, from, receiving, batch, front, n) && n in receiving && p in batch
    ensures RoutedRight(h, sends, found, from, receiving, batch, front + [p], n)
  {
    var keep := Routed(RoutesOf(sends, from, receiving, batch), n);
    var before, st := Flow(h, ItemsOf(found, from, front)), Sender.Stream(h, p, found(from, p));
    calc {
      Filter(Flow(h, ItemsOf(found, from, front + [p])), keep);
      { PartSent(h, found, from, front, p); }
      Filter(before + st, keep);
      { FilterConcat(before, st, keep); }
      Filter(before, keep) + Filter(st, keep);
      { PartRouted(h, sends, found, from, receiving, batch, p, n); }
      Flow(h, Needed(sends, found, from, front, n)) + PartFor(h, sends, found, from, p, n);
      { PartNeeded(h, sends, found, from, front, p, n); }
      Flow(h, Needed(sends, found, from, front + [p], n));
    }
  }

  lemma RoutedNone(h: Hash, sends: Sends, found: Finds, from: Node, receiving: set<Node>, batch: seq<Path>, n: Node)
    ensures RoutedRight(h, sends, found, from, receiving, batch, [], n)
  {
    assert ItemsOf(found, from, []) == [];
  }

  /** So relaying a batch gives each node the whole streams of the files it needs. */
  lemma {:induction false} BatchRouted(h: Hash, sends: Sends, found: Finds, from: Node, receiving: set<Node>,
                                       batch: seq<Path>, front: seq<Path>, n: Node)
    requires n in receiving && forall p :: p in front ==> p in batch
    ensures RoutedRight(h, sends, found, from, receiving, batch, front, n)
    decreases |front|
  {
    if |front| == 0 {
      RoutedNone(h, sends, found, from, receiving, batch, n);
    } else {
      var less, p := front[..|front| - 1], front[|front| - 1];
      BatchRouted(h, sends, found, from, receiving, batch, less, n);
      RoutedMore(h, sends, found, from, receiving, batch, less, p, n);
      assert front == less + [p];
    }
  }

  /** Every chunk on a wire belongs to a file some sender is to send there. */
  ghost predicate OnlyNeeded(sends: Sends, receiving: set<Node>, k: Link) {
    forall n, c :: c in WireTo(k, n) ==> n in receiving && exists from :: n in To(sends, from, c.path)
  }

  lemma OnlyNeededStep(whole: bool, sends: Sends, receiving: set<Node>, from: Node, batch: seq<Path>, k: Link, m: Link,
                       arrivals: seq<Arrival>)
    requires OnlyNeeded(sends, receiving, k)
    requires Relayed(whole, k.(source := from, routes := RoutesOf(sends, from, receiving, batch)), m, from, arrivals)
    ensures OnlyNeeded(sends, receiving, m)
  {
    var routes := RoutesOf(sends, from, receiving, batch);
    var kk := k.(source := from, routes := routes);
    forall n, c | c in WireTo(m, n)
      ensures n in receiving && exists f :: n in To(sends, f, c.path)
    {
      assert WireTo(kk, n) == WireTo(k, n);
      NewOnWire(whole, kk, m, from, arrivals, n, c);
      RoutesReach(sends, from, receiving, batch, c.path, n);
    }
  }

  lemma NewOnWire(whole: bool, k: Link, m: Link, from: Node, arrivals: seq<Arrival>, n: Node, c: Chunk)
    requires Relayed(whole, k, m, from, arrivals) && c in WireTo(m, n)
    ensures c in WireTo(k, n) || n in Lookup(k.routes, c.path)
  {
    var f := Filter(Own(from, arrivals), Routed(k.routes, n));
    assert Extended(whole, WireTo(k, n), WireTo(m, n), f);
    var more := WireTo(m, n)[|WireTo(k, n)|..];
    assert WireTo(m, n) == WireTo(k, n) + more;
    if c in more {
      SubMember(more, f, c);
      FilterMember(Own(from, arrivals), Routed(k.routes, n), c);
    }
  }

  /** A batch that was sent whole gives every receiver some of the streams it needs. */
  lemma {:induction false} SentBatch(whole: bool, h: Hash, sends: Sends, found: Finds, from: Node, receiving: set<Node>,
                                     batch: seq<Path>, arrivals: seq<Arrival>, k: Link, m: Link, n: Node)
    requires Carried(whole, h, found, from, batch, arrivals) && n in receiving
    requires Relayed(whole, k.(source := from, routes := RoutesOf(sends, from, receiving, batch)), m, from, arrivals)
    ensures Extended(whole, WireTo(k, n), WireTo(m, n), Flow(h, Needed(sends, found, from, batch, n)))
  {
    var routes := RoutesOf(sends, from, receiving, batch);
    var kk := k.(source := from, routes := routes);
    assert WireTo(kk, n) == WireTo(k, n);
    var own, keep := Own(from, arrivals), Routed(routes, n);
    assert Extended(whole, WireTo(kk, n), WireTo(m, n), Filter(own, keep));
    SubFilter(own, Flow(h, ItemsOf(found, from, batch)), keep);
    BatchRouted(h, sends, found, from, receiving, batch, batch, n);
    SubTransitive(WireTo(m, n)[|WireTo(k, n)|..], Filter(own, keep), Flow(h, Needed(sends, found, from, batch, n)));
  }

  /** `n` needs none of `paths` from `from`. */
  ghost predicate NeedsNone(sends: Sends, from: Node, paths: seq<Path>, n: Node) {
    forall p :: p in paths ==> n !in To(sends, from, p)
  }

  lemma {:induction false} NeededNone(sends: Sends, found: Finds, from: Node, paths: seq<Path>, n: Node)
    requires NeedsNone(sends, from, paths, n)
    ensures Needed(sends, found, from, paths, n) == []
  {
    if paths != [] {
      NeededNone(sends, found, from, paths[..|paths| - 1], n);
    }
  }

  /** A node that needs nothing from this sender gets nothing, whatever goes wrong. */
  lemma UnneededBatch(whole: bool, sends: Sends, from: Node, receiving: set<Node>, batch: seq<Path>, k: Link, m: Link,
                      arrivals: seq<Arrival>, n: Node)
    requires NeedsNone(sends, from, batch, n)
    requires Relayed(whole, k.(source := from, routes := RoutesOf(sends, from, receiving, batch)), m, from, arrivals)
    ensures WireTo(m, n) == WireTo(k, n)
  {
    var routes := RoutesOf(sends, from, receiving, batch);
    var kk := k.(source := from, routes := routes);
    assert WireTo(kk, n) == WireTo(k, n);
    assert Extended(whole, WireTo(kk, n), WireTo(m, n), Filter(Own(from, arrivals), Routed(routes, n)));
    forall c: Chunk
      ensures !Routed(routes, n)(c)
    {
      RoutesReach(sends, from, receiving, batch, c.path, n);
    }
    FilterSame(Own(from, arrivals), Routed(routes, n), false);
  }

  /** What `n` has got from `from`: the streams of `paths`, with losses. */
  ghost predicate Served(whole: bool, h: Hash, sends: Sends, found: Finds, from: Node, paths: seq<Path>, k: Link,
                         m: Link, n: Node) {
    Extended(whole, WireTo(k, n), WireTo(m, n), Flow(h, Needed(sends, found, from, paths, n)))
  }

  lemma ServedBatch(whole: bool, h: Hash, sends: Sends, found: Finds, from: Node, receiving: set<Node>, done: seq<Path>,
                    batch: seq<Path>, arrivals: seq<Arrival>, k: Link, m: Link, x: Link, n: Node)
    requires Carried(whole, h, found, from, batch, arrivals) && n in receiving
    requires Served(whole, h, sends, found, from, done, k, m, n)
    requires Relayed(whole, m.(source := from, routes := RoutesOf(sends, from, receiving, batch)), x, from, arrivals)
    ensures Served(whole, h, sends, found, from, done + batch, k, x, n)
  {
    SentBatch(whole, h, sends, found, from, receiving, batch, arrivals, m, x, n);
    ExtendedStep(whole, WireTo(k, n), WireTo(m, n), Flow(h, Needed(sends, found, from, done, n)),
                 WireTo(x, n), Flow(h, Needed(sends, found, from, batch, n)));
    NeededConcat(sends, found, from, done, batch, n);
    FlowConcat(h, Needed(sends, found, from, done, n), Needed(sends, found, from, batch, n));
  }

  lemma NothingServed(whole: bool, h: Hash, sends: Sends, found: Finds, from: Node, k: Link, n: Node)
    ensures Served(whole, h, sends, found, from, [], k, k, n)
  {
    assert WireTo(k, n)[|WireTo(k, n)|..] == [];
  }

  /** Every batch so far was sent whole. */
  ghost predicate AllServed(whole: bool, h: Hash, sends: Sends, found: Finds, from: Node, receiving: set<Node>,
                            paths: seq<Path>, k: Link, m: Link) {
    && OnlyNeeded(sends, receiving, m) && k.dropped <= m.dropped && (forall p :: p in paths ==> LocalPath(p))
    && (whole ==> m.dropped == {})
    && forall n :: n in receiving ==> Served(whole, h, sends, found, from, paths, k, m, n)
  }

  /** One batch failed: only nodes that need something from this sender may have been affected. */
  ghost predicate OthersServed(whole: bool, h: Hash, sends: Sends, found: Finds, from: Node, receiving: set<Node>,
                               paths: seq<Path>, k: Link, m: Link) {
    && OnlyNeeded(sends, receiving, m) && k.dropped <= m.dropped
    && forall n :: n in receiving && NeedsNone(sends, from, paths, n) ==>
      Served(whole, h, sends, found, from, paths, k, m, n)
  }

  lemma BatchSent(whole: bool, h: Hash, sends: Sends, found: Finds, from: Node, receiving: set<Node>, done: seq<Path>,
                  batch: seq<Path>, arrivals: seq<Arrival>, k: Link, m: Link, x: Link)
    requires Carried(whole, h, found, from, batch, arrivals)
    requires AllServed(whole, h, sends, found, from, receiving, done, k, m)
    requires Relayed(whole, m.(source := from, routes := RoutesOf(sends, from, receiving, batch)), x, from, arrivals)
    ensures AllServed(whole, h, sends, found, from, receiving, done + batch, k, x)
  {
    OnlyNeededStep(whole, sends, receiving, from, batch, m, x, arrivals);
    forall n | n in receiving
      ensures Served(whole, h, sends, found, from, done + batch, k, x, n)
    {
      ServedBatch(whole, h, sends, found, from, receiving, done, batch, arrivals, k, m, x, n);
    }
  }

  lemma BatchFailed(whole: bool, h: Hash, sends: Sends, found: Finds, from: Node, receiving: set<Node>, done: seq<Path>,
                    batch: seq<Path>, all: seq<Path>, k: Link, m: Link, x: Link, arrivals: seq<Arrival>)
    requires AllServed(whole, h, sends, found, from, receiving, done, k, m)
    requires (forall p :: p in done || p in batch ==> p in all)
    requires Relayed(whole, m.(source := from, routes := RoutesOf(sends, from, receiving, batch)), x, from, arrivals)
    ensures OthersServed(whole, h, sends, found, from, receiving, all, k, x)
  {
    OnlyNeededStep(whole, sends, receiving, from, batch, m, x, arrivals);
    forall n | n in receiving && NeedsNone(sends, from, all, n)
      ensures Served(whole, h, sends, found, from, all, k, x, n)
    {
      assert NeedsNone(sends, from, batch, n) && NeedsNone(sends, from, done, n);
      UnneededBatch(whole, sends, from, receiving, batch, m, x, arrivals, n);
      NeededNone(sends, found, from, done, n);
      NeededNone(sends, found, from, all, n);
    }
  }

  ghost predicate NoDoubles(sends: Sends) {
    forall from, p :: Distinct(To(sends, from, p))
  }

  /** One batch, from the sender's queue to the conductor. */
  method SendBatch(ghost whole: bool, h: Hash, from: Node, batch: seq<Path>, found: Finds, t: Transit)
    returns (queued: bool, arrivals: seq<Arrival>)
    requires t.answers ==> forall cs :: Sub(Own(from, t.carried(cs)), cs)
    requires whole ==> LosslessTransit(from, t) && forall p :: p in batch ==> LocalPath(p)
    ensures whole ==> queued && t.answers && Smooth(arrivals)
    ensures queued && t.answers ==> Carried(whole, h, found, from, batch, arrivals)
  {
    var sent;
    sent, queued := SendSyncFiles(h, from, batch, found, t.accepts);
    arrivals := t.carried(sent);
  }

  /** One sender streams its files, batch by batch, until one fails. */
  method SendFrom(ghost whole: bool, h: Hash, r: RelayRun, sends: Sends, found: Finds, transits: Transits, from: Node,
                  receiving: set<Node>, order: seq<Path>)
    returns (ok: bool)
    requires Honest(transits) && NoDoubles(sends) && OnlyNeeded(sends, receiving, r.State())
    requires whole ==> Lossless(transits) && r.dropped == {} && forall p :: p in order ==> LocalPath(p)
    modifies r
    ensures whole ==> ok
    ensures ok ==> AllServed(whole, h, sends, found, from, receiving, order, old(r.State()), r.State())
    ensures !ok ==> OthersServed(whole, h, sends, found, from, receiving, order, old(r.State()), r.State())
  {
    var bs := Batches(order);
    ghost var k := r.State();
    ghost var done: seq<Path> := [];
    forall n {
      NothingServed(whole, h, sends, found, from, k, n);
    }
    for i := 0 to |bs|
      invariant done == Concat(bs[..i]) && AllServed(whole, h, sends, found, from, receiving, done, k, r.State())
    {
      var batch := bs[i];
      ghost var m := r.State();
      ConcatPart(bs, i);
      var routes := RoutesOf(sends, from, receiving, batch);
      RoutesDistinct(sends, from, receiving, batch, routes);
      var queued, arrivals := SendBatch(whole, h, from, batch, found, transits(from, batch));
      RelayBatch(whole, r, from, routes, arrivals);
      if !(queued && transits(from, batch).answers) {
        BatchFailed(whole, h, sends, found, from, receiving, done, batch, order, k, m, r.State(), arrivals);
        return false;
      }
      BatchSent(whole, h, sends, found, from, receiving, done, batch, arrivals, k, m, r.State());
      done := done + batch;
    }
    assert bs[..|bs|] == bs;
    ok := true;
  }

  lemma {:induction false} RoutesDistinct(sends: Sends, from: Node, receiving: set<Node>, batch: seq<Path>,
                                          routes: map<Path, seq<Node>>)
    requires NoDoubles(sends) && routes == RoutesOf(sends, from, receiving, batch)
    ensures forall p :: p in routes ==> Distinct(routes[p])
  {
    RoutesFacts(sends, from, receiving, batch);
    forall p | p in batch
      ensures Distinct(Among(To(sends, from, p), receiving))
    {
      FilterDistinct(To(sends, from, p), m => m in receiving);
    }
  }

  lemma {:induction false} ConcatPrefix(bs: seq<seq<Path>>, i: nat)
    requires i <= |bs|
    ensures Concat(bs[..i]) <= Concat(bs)
    decreases |bs| - i
  {
    if i < |bs| {
      assert bs[..i + 1][..i] == bs[..i];
      ConcatPrefix(bs, i + 1);
    } else {
      assert bs[..i] == bs;
    }
  }

  lemma ConcatPart(bs: seq<seq<Path>>, i: nat)
    requires i < |bs|
    ensures Concat(bs[..i + 1]) == Concat(bs[..i]) + bs[i]
    ensures forall p :: p in Concat(bs[..i]) || p in bs[i] ==> p in Concat(bs)
  {
    assert bs[..i + 1][..i] == bs[..i];
    ConcatPrefix(bs, i + 1);
    PrefixMembers(Concat(bs[..i]), bs[i], Concat(bs));
  }

  lemma PrefixMembers(a: seq<Path>, b: seq<Path>, c: seq<Path>)
    requires a + b <= c
    ensures forall p :: p in a || p in b ==> p in c
  {
    assert c == a + b + c[|a + b|..];
  }

  // ---------------------------------------------------------------- all senders

  /** Everything `n` is to get in a run, in the order it is sent. */
  function Script(sends: Sends, found: Finds, froms: seq<Node>, orders: map<Node, seq<Path>>, n: Node): seq<Item> {
    if froms == [] then []
    else
      var from := froms[|froms| - 1];
      var front := Script(sends, found, froms[..|froms| - 1], orders, n);
      if from in orders then front + Needed(sends, found, from, orders[from], n) else front
  }

  /** `order` lists the files of `from` that some receiving node needs, index files last. */
  ghost predicate OrderOf(sends: Sends, receiving: set<Node>, last: Path -> bool, from: Node, order: seq<Path>) {
    && Distinct(order) && (forall i, j :: 0 <= i < j < |order| ==> SentBefore(last, order[i], order[j]))
    && forall p :: p in order <==> exists n :: n in receiving && n in To(sends, from, p)
  }

  method Keys(m: set<Path>) returns (s: seq<Path>)
    ensures Distinct(s) && forall p :: p in s <==> p in m
  {
    s := [];
    var todo := m;
    while todo != {}
      invariant todo <= m && Distinct(s) && forall p :: p in s <==> p in m - todo
      decreases |todo|
    {
      var p :| p in todo;
      assert p !in s;
      s, todo := s + [p], todo - {p};
    }
  }

  method PlanOrder(sends: Sends, receiving: set<Node>, last: Path -> bool, from: Node) returns (order: seq<Path>)
    requires from in sends
    ensures OrderOf(sends, receiving, last, from, order)
  {
    var routed := set p | p in sends[from] && Among(To(sends, from, p), receiving) != [];
    forall p
      ensures p in routed <==> exists n :: n in receiving && n in To(sends, from, p)
    {
      Nonempty(To(sends, from, p), receiving);
    }
    var keys := Keys(routed);
    order := SendOrder(keys, last);
    SendOrderFacts(keys, last);
  }

  lemma Nonempty(to: seq<Node>, receiving: set<Node>)
    ensures Filter(to, n => n in receiving) != [] <==> exists n :: n in receiving && n in to
  {
    var f := Filter(to, n => n in receiving);
    if f != [] {
      FilterMember(to, n => n in receiving, f[0]);
    }
    if n :| n in receiving && n in to {
      FilterMember(to, m => m in receiving, n);
    }
  }

  /** Every path sent stays under its folder. */
  ghost predicate AllLocal(sends: Sends) {
    forall from, p :: To(sends, from, p) != [] ==> LocalPath(p)
  }

  /** Nodes none of whose senders failed got the streams they need, with losses; nobody got anything else. */
  ghost predicate Copied(whole: bool, h: Hash, sends: Sends, found: Finds, froms: seq<Node>,
                         orders: map<Node, seq<Path>>, receiving: set<Node>, failed: set<Node>, k: Link) {
    && OnlyNeeded(sends, receiving, k) && (whole ==> failed == {} && k.dropped == {})
    && forall n :: n in receiving && n !in failed ==> CopiedTo(whole, h, sends, found, froms, orders, k, n)
  }

  ghost predicate CopiedTo(whole: bool, h: Hash, sends: Sends, found: Finds, froms: seq<Node>,
                           orders: map<Node, seq<Path>>, k: Link, n: Node) {
    var script := Script(sends, found, froms, orders, n);
    && Sub(WireTo(k, n), Flow(h, script)) && (whole ==> WireTo(k, n) == Flow(h, script))
    && forall it :: it in script ==> LocalPath(it.path)
  }

  /** Paths and finds of the items needed from one sender. */
  lemma {:induction false} NeededFacts(sends: Sends, found: Finds, from: Node, paths: seq<Path>, n: Node)
    ensures var s := Needed(sends, found, from, paths, n);
      && (forall it :: it in s ==>
          it.path in paths && n in To(sends, from, it.path) && it.found == found(from, it.path))
      && (forall p :: p in paths && n in To(sends, from, p) ==> Item(p, found(from, p)) in s)
  {
    if paths != [] {
      var front, p := paths[..|paths| - 1], paths[|paths| - 1];
      NeededFacts(sends, found, from, front, n);
      assert paths == front + [p];
    }
  }

  /** One more sender's part on a wire that holds some, or all, of the flow `f`. */
  lemma WireGrows(whole: bool, wire: seq<Chunk>, f: seq<Chunk>, wire2: seq<Chunk>, g: seq<Chunk>)
    requires Sub(wire, f) && (whole ==> wire == f) && Extended(whole, wire, wire2, g)
    ensures Sub(wire2, f + g) && (whole ==> wire2 == f + g)
  {
    SubConcat(wire, f, wire2[|wire|..], g);
    assert wire2 == wire + wire2[|wire|..];
  }

  lemma ScriptMore(sends: Sends, found: Finds, froms: seq<Node>, orders: map<Node, seq<Path>>, from: Node,
                   order: seq<Path>, n: Node)
    requires from !in froms
    ensures Script(sends, found, froms + [from], orders[from := order], n) ==
      Script(sends, found, froms, orders, n) + Needed(sends, found, from, order, n)
  {
    assert (froms + [from])[..|froms|] == froms;
    ScriptStable(sends, found, froms, orders, from, order, n);
  }

  lemma {:induction false} CopiedStep(whole: bool, h: Hash, sends: Sends, found: Finds, froms: seq<Node>,
                                      orders: map<Node, seq<Path>>, k: Link, m: Link, from: Node, order: seq<Path>,
                                      n: Node)
    requires CopiedTo(whole, h, sends, found, froms, orders, k, n) && from !in orders && from !in froms
    requires Served(whole, h, sends, found, from, order, k, m, n)
    requires forall p :: p in order && n in To(sends, from, p) ==> LocalPath(p)
    ensures CopiedTo(whole, h, sends, found, froms + [from], orders[from := order], m, n)
  {
    var a, b := Script(sends, found, froms, orders, n), Needed(sends, found, from, order, n);
    ScriptMore(sends, found, froms, orders, from, order, n);
    FlowConcat(h, a, b);
    WireGrows(whole, WireTo(k, n), Flow(h, a), WireTo(m, n), Flow(h, b));
    NeededFacts(sends, found, from, order, n);
  }

  lemma {:induction false} ScriptStable(sends: Sends, found: Finds, froms: seq<Node>, orders: map<Node, seq<Path>>,
                                        from: Node, order: seq<Path>, n: Node)
    requires from !in froms
    ensures Script(sends, found, froms, orders[from := order], n) == Script(sends, found, froms, orders, n)
  {
    if froms != [] {
      ScriptStable(sends, found, froms[..|froms| - 1], orders, from, order, n);
    }
  }

  /** The receivers of a sender's files. */
  function ReceiversOf(sends: Sends, from: Node, receiving: set<Node>, order: seq<Path>): set<Node> {
    set n | n in receiving && exists p :: p in order && n in To(sends, from, p)
  }

  lemma SenderDone(whole: bool, h: Hash, sends: Sends, found: Finds, froms: seq<Node>, orders: map<Node, seq<Path>>,
                   receiving: set<Node>, failed: set<Node>, k: Link, m: Link, from: Node, order: seq<Path>, ok: bool)
    requires Copied(whole, h, sends, found, froms, orders, receiving, failed, k) && from !in orders && from !in froms
    requires (whole ==> ok) && (ok ==> AllServed(whole, h, sends, found, from, receiving, order, k, m))
    requires !ok ==> OthersServed(whole, h, sends, found, from, receiving, order, k, m)
    ensures Copied(whole, h, sends, found, froms + [from], orders[from := order], receiving,
                   if ok then failed else failed + ReceiversOf(sends, from, receiving, order), m)
  {
    var bad := if ok then failed else failed + ReceiversOf(sends, from, receiving, order);
    forall n | n in receiving && n !in bad
      ensures CopiedTo(whole, h, sends, found, froms + [from], orders[from := order], m, n)
    {
      assert CopiedTo(whole, h, sends, found, froms, orders, k, n);
      if !ok {
        assert n !in ReceiversOf(sends, from, receiving, order);
        assert NeedsNone(sends, from, order, n);
      }
      CopiedStep(whole, h, sends, found, froms, orders, k, m, from, order, n);
    }
  }

  /** All the senders, in ascending order. */
  method CopyAll(ghost whole: bool, h: Hash, r: RelayRun, sends: Sends, receiving: set<Node>, last: Path -> bool,
                 found: Finds, transits: Transits)
    returns (failed: set<Node>, ghost froms: seq<Node>, ghost orders: map<Node, seq<Path>>)
    requires Honest(transits) && NoDoubles(sends) && r.State() == Link(0, map[], {}, map[])
    requires whole ==> Lossless(transits) && AllLocal(sends)
    modifies r
    ensures Ascending(froms) && (forall n :: n in froms <==> n in sends) && orders.Keys == sends.Keys
    ensures forall n :: n in orders ==> OrderOf(sends, receiving, last, n, orders[n])
    ensures Copied(whole, h, sends, found, froms, orders, receiving, failed, r.State())
  {
    var nodes := SortNodes(sends.Keys);
    failed, orders := {}, map[];
    NothingCopied(whole, h, sends, found, receiving, r.State());
    assert nodes[..0] == [];
    for i := 0 to |nodes|
      invariant orders.Keys == SetOf(nodes[..i])
      invariant forall n :: n in orders ==> OrderOf(sends, receiving, last, n, orders[n])
      invariant Copied(whole, h, sends, found, nodes[..i], orders, receiving, failed, r.State())
    {
      var from := nodes[i];
      assert from in nodes && from !in nodes[..i] && nodes[..i + 1] == nodes[..i] + [from];
      ghost var k := r.State();
      var order := PlanOrder(sends, receiving, last, from);
      var ok := SendFrom(whole, h, r, sends, found, transits, from, receiving, order);
      SenderDone(whole, h, sends, found, nodes[..i], orders, receiving, failed, k, r.State(), from, order, ok);
      if !ok {
        failed := failed + ReceiversOf(sends, from, receiving, order);
      }
      orders := orders[from := order];
    }
    assert nodes[..|nodes|] == nodes;
    froms := nodes;
  }

  lemma NothingCopied(whole: bool, h: Hash, sends: Sends, found: Finds, receiving: set<Node>, k: Link)
    requires k.wire == map[] && k.dropped == {}
    ensures Copied(whole, h, sends, found, [], map[], receiving, {}, k)
  {
    assert forall n :: WireTo(k, n) == [];
    assert forall n :: CopiedTo(whole, h, sends, found, [], map[], k, n);
  }
}
