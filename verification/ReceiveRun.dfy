/**
 * What a run depends on but doesn't control, and one node's receive in such a world: from the
 * chunks forwarded to it to what a clean finish means.
 */
module ReceiveRuns {
  import opened Transfer
  import opened Subsequences
  import opened Plans
  import opened Receiver
  import opened Relay
  import opened CopyPhase
  import opened EndToEnd
  import opened SmoothReceive
  import Sender
  import A = SyncReceivers

  /** What one delete batch did: the files removed, and whether it reported success. */
  datatype Removal = Removal(gone: set<Path>, ok: bool)

  /** Everything the run does not control. */
  datatype World = World(
    found: Finds,                                // what senders find when they read a file
    transits: Transits,                          // what becomes of each batch sent
    starts: Node -> bool,                        // the node began receiving
    id: string,                                  // the sync's ID
    roots: Node -> string,                       // where a node keeps the folder
    receives: Node -> A.Syncs,                   // what its agent is receiving for other syncs
    traffic: (Node, seq<Chunk>) -> seq<A.Message>,  // what its agent handles between the sync's start and finish there
    answers: Node -> bool,                       // the result of finishing came back
    closes: Node -> bool,                        // its repository helper, if any, ended well
    removes: (Node, seq<Path>) -> Removal)       // what becomes of each delete batch

  ghost predicate HonestRemoval(removes: (Node, seq<Path>) -> Removal) {
    forall n, batch :: removes(n, batch).ok ==> forall p :: p in batch ==> p in removes(n, batch).gone
  }

  /**
   * Of the sync, an agent handles only chunks forwarded to it, in order. Other syncs and lost
   * connections come as they may.
   */
  ghost predicate FromWire(id: string, ms: seq<A.Message>, wire: seq<Chunk>) {
    Sub(Chunks(A.Own(id, ms)), wire) && forall m :: m in ms ==> !(m.StartMsg? && m.id == id)
  }

  /** The sync's chunks that a node's agent handled before anything stopped the sync there. */
  function Heard(w: World, n: Node, wire: seq<Chunk>): seq<Event> {
    A.Own(w.id, A.Upto(w.id, w.roots(n), w.traffic(n, wire)))
  }

  lemma HeardFromWire(h: Hash, w: World, n: Node, wire: seq<Chunk>)
    requires Plausible(h, w)
    ensures Sub(Chunks(Heard(w, n, wire)), wire)
  {
    var ms := w.traffic(n, wire);
    assert FromWire(w.id, ms, wire);
    A.UptoIsPrefix(w.id, w.roots(n), ms);
    SubPrefix(Chunks(Heard(w, n, wire)), Chunks(A.Own(w.id, ms)));
    SubTransitive(Chunks(Heard(w, n, wire)), Chunks(A.Own(w.id, ms)), wire);
  }

  /** Channels lose chunks but keep their order; a success reported is a success. */
  ghost predicate Plausible(h: Hash, w: World) {
    && Honest(w.transits)
    && (forall from, p :: Sender.Reported(w.found(from, p)))
    && w.id != "" && (forall n :: w.roots(n) != "" && A.Sound(w.receives(n)))
    && (forall n, wire :: FromWire(w.id, w.traffic(n, wire), wire))
    && HonestRemoval(w.removes)
  }

  /** A world in which nothing goes wrong. */
  ghost predicate SmoothWorld(h: Hash, w: World) {
    && Lossless(w.transits) && AllRemove(w.removes)
    && (forall n :: w.starts(n)) && (forall n :: w.answers(n)) && (forall n :: w.closes(n))
    && (forall n, wire :: Whole(w.id, w.roots(n), w.traffic(n, wire), wire))
  }

  /** All that was forwarded is handled, and nothing stops the sync. */
  ghost predicate Whole(id: string, root: string, ms: seq<A.Message>, wire: seq<Chunk>) {
    && Chunks(A.Own(id, ms)) == wire && AllWork(A.Own(id, ms)) && (forall m :: m in ms ==> !A.Stops(m, id, root))
  }

  ghost predicate AllRemove(removes: (Node, seq<Path>) -> Removal) {
    forall n, batch :: removes(n, batch).ok
  }

  /** Every file to copy stays under its folder and can be read, or is gone. */
  ghost predicate Deliverable(v: Planned, found: Finds) {
    forall s :: s in v.log ==> Gettable(Item(s.file.path, found(s.from, s.file.path)))
  }

  lemma DeliverableLocal(v: Planned, found: Finds)
    requires Conserved(v) && Deliverable(v, found)
    ensures AllLocal(v.sends)
  {
    forall from, p | To(v.sends, from, p) != []
      ensures LocalPath(p)
    {
      var n := To(v.sends, from, p)[0];
      SentFrom(v, from, p, n);
    }
  }

  // ---------------------------------------------------------------- a receiver's folder over time

  /** The folder after each chunk, the first entry being the folder at the start. */
  function Disks(h: Hash, s: Site, es: seq<Event>): seq<Folder>
    requires Inv(s)
    decreases |es|
  {
    if es == [] then [s.disk]
    else
      StepKeepsInv(h, s, es[0].chunk, es[0].io);
      [s.disk] + Disks(h, Step(h, s, es[0].chunk, es[0].io), es[1..])
  }

  /** A file no chunk names is the same at every moment. */
  lemma {:induction false} UnnamedUntouched(h: Hash, s: Site, es: seq<Event>, q: Path, a: Folder)
    requires Inv(s) && !IsPartial(q) && SameAt(a, s.disk, q) && forall e :: e in es ==> e.chunk.path != q
    ensures forall d :: d in Disks(h, s, es) ==> SameAt(a, d, q)
    ensures SameAt(a, Run(h, s, es).disk, q)
    decreases |es|
  {
    if es != [] {
      assert es[0] in es;
      StepKeepsInv(h, s, es[0].chunk, es[0].io);
      StepAtomic(h, s, es[0].chunk, es[0].io, q);
      UnnamedUntouched(h, Step(h, s, es[0].chunk, es[0].io), es[1..], q, a);
    }
  }

  /** A partial file present at the end was there at the start, or is the one being written. */
  lemma {:induction false} PartialsOld(h: Hash, s: Site, es: seq<Event>, q: Path)
    requires Inv(s) && IsPartial(q) && OnlyOpenPartial(s, q) && forall e :: e in es ==> e.chunk.path != q
    ensures OnlyOpenPartial(Run(h, s, es), q)
    decreases |es|
  {
    if es != [] {
      assert es[0] in es;
      StepKeepsInv(h, s, es[0].chunk, es[0].io);
      StepLeavesNoPartial(h, s, es[0].chunk, es[0].io, q);
      PartialsOld(h, Step(h, s, es[0].chunk, es[0].io), es[1..], q);
    }
  }

  // ---------------------------------------------------------------- one node's receive, among others

  /** The agent's receives once the sync has started there. */
  function Begun(h: Hash, w: World, n: Node, before: Folder): A.Syncs
    requires Plausible(h, w)
  {
    A.Deliver(h, w.receives(n), A.StartMsg(w.id, w.roots(n), before))
  }

  /** The receive an agent still has of the sync, if it does, was never stopped and handled just what was heard. */
  lemma StillOurs(h: Hash, w: World, n: Node, wire: seq<Chunk>, before: Folder)
    requires Plausible(h, w)
    ensures var a := A.DeliverAll(h, Begun(h, w, n, before), w.traffic(n, wire));
      && (w.id in a <==> forall m :: m in w.traffic(n, wire) ==> !A.Stops(m, w.id, w.roots(n)))
      && (w.id in a ==> a[w.id].site == Run(h, Idle(before), Heard(w, n, wire)))
  {
    var ms := w.traffic(n, wire);
    assert FromWire(w.id, ms, wire);
    A.KnownUnlessStopped(h, Begun(h, w, n, before), ms, w.id);
    A.UptoIsPrefix(w.id, w.roots(n), ms);
    if w.id in A.DeliverAll(h, Begun(h, w, n, before), ms) {
      A.StillReceiving(h, Begun(h, w, n, before), ms, w.id);
    }
  }

  /**
   * Runs a node's receive on its agent: the sync starts, the agent's queue is handled, and the
   * sync is finished. None if it was stopped before that. Also the folder it leaves.
   */
  method ReceiveAt(h: Hash, w: World, n: Node, wire: seq<Chunk>, before: Folder)
    returns (result: Option<Site>, mid: Folder)
    requires Plausible(h, w)
    ensures var end := Finish(Run(h, Idle(before), Heard(w, n, wire)), w.closes(n));
      mid == end.disk && (result.Some? ==> result.value == end)
    ensures result.Some? <==> forall m :: m in w.traffic(n, wire) ==> !A.Stops(m, w.id, w.roots(n))
  {
    var agent := A.AgentWith(w.receives(n));
    var _ := agent.Start(h, w.id, w.roots(n), before);
    A.HandleQueue(h, agent, w.traffic(n, wire));
    StillOurs(h, w, n, wire, before);
    result := agent.FinishSync(h, w.id, w.closes(n));
    mid := if result.Some? then result.value.disk else Discard(Run(h, Idle(before), Heard(w, n, wire))).disk;
  }

  // ---------------------------------------------------------------- one node's copies

  /** The plan has `n` receive `q`. */
  ghost predicate SentThere(v: Planned, n: Node, q: Path) {
    exists s :: s in v.log && s.to == n && s.file.path == q
  }

  /** `mid` is a folder `n` may have while it receives: only files sent there differ from `before`. */
  ghost predicate Spared(v: Planned, n: Node, before: Folder, mid: Folder) {
    && (forall q :: !IsPartial(q) && !SentThere(v, n, q) ==> SameAt(before, mid, q))
  }

  /** Every copy planned for `n` arrived, and no partial file was added. */
  ghost predicate AllArrived(v: Planned, n: Node, found: Finds, before: Folder, mid: Folder) {
    && (forall s :: s in v.log && s.to == n ==> Arrived(found(s.from, s.file.path), s.file.path, mid))
    && (forall q :: IsPartial(q) && q in mid ==> q in before)
  }

  lemma DeliveredNamesSent(v: Planned, receiving: set<Node>, k: Link, n: Node, es: seq<Event>)
    requires Conserved(v) && OnlyNeeded(v.sends, receiving, k) && Sub(Chunks(es), WireTo(k, n))
    ensures forall e :: e in es ==> SentThere(v, n, e.chunk.path)
  {
    forall e | e in es
      ensures SentThere(v, n, e.chunk.path)
    {
      var i :| 0 <= i < |es| && es[i] == e;
      assert Chunks(es)[i] == e.chunk;
      SubMember(Chunks(es), WireTo(k, n), e.chunk);
      var from :| n in To(v.sends, from, e.chunk.path);
      SentFrom(v, from, e.chunk.path, n);
    }
  }

  lemma NamesNoPartial(v: Planned, n: Node, es: seq<Event>)
    requires forall e :: e in es ==> SentThere(v, n, e.chunk.path)
    requires forall s :: s in v.log ==> !IsPartial(s.file.path)
    ensures forall e :: e in es ==> !IsPartial(e.chunk.path)
  {
  }

  /** Whatever was delivered, at every moment only files sent to `n` differ. */
  lemma AlwaysSpared(h: Hash, v: Planned, n: Node, before: Folder, es: seq<Event>, closes: bool)
    requires forall e :: e in es ==> SentThere(v, n, e.chunk.path)
    ensures forall d :: d in Disks(h, Idle(before), es) ==> Spared(v, n, before, d)
    ensures Spared(v, n, before, Finish(Run(h, Idle(before), es), closes).disk)
  {
    var s := Idle(before);
    forall q | !IsPartial(q) && !SentThere(v, n, q)
      ensures forall d :: d in Disks(h, s, es) ==> SameAt(before, d, q)
      ensures SameAt(before, Finish(Run(h, s, es), closes).disk, q)
    {
      UnnamedUntouched(h, s, es, q, before);
      FinishSpares(Run(h, s, es), closes);
    }
  }

  /** Finished, failed or stopped: a receive leaves no partial file of its own. */
  lemma NoPartialAdded(h: Hash, before: Folder, es: seq<Event>, closes: bool)
    requires forall e :: e in es ==> !IsPartial(e.chunk.path)
    ensures forall q :: IsPartial(q) && q in Finish(Run(h, Idle(before), es), closes).disk ==> q in before
  {
    forall q | IsPartial(q) && q in Finish(Run(h, Idle(before), es), closes).disk
      ensures q in before
    {
      if q !in before {
        PartialsOld(h, Idle(before), es, q);
      }
    }
  }

  /** End-to-end integrity: a clean finish means everything planned for `n` arrived. */
  lemma CleanFinish(whole: bool, h: Hash, v: Planned, receiving: set<Node>, last: Path -> bool, w: World,
                    froms: seq<Node>, orders: map<Node, seq<Path>>, failed: set<Node>, k: Link, n: Node, before: Folder,
                    es: seq<Event>, closes: bool)
    requires Conserved(v) && OncePerPath(v.log) && (forall s :: s in v.log ==> !IsPartial(s.file.path))
    requires Plausible(h, w) && Ordered(v, receiving, last, froms, orders) && n in receiving && n !in failed
    requires Copied(whole, h, v.sends, w.found, froms, orders, receiving, failed, k) && Sub(Chunks(es), WireTo(k, n))
    requires Clean(Finish(Run(h, Idle(before), es), closes), CopiesTo(v, n))
    ensures AllArrived(v, n, w.found, before, Finish(Run(h, Idle(before), es), closes).disk)
  {
    var items := Script(v.sends, w.found, froms, orders, n);
    ScriptIsPlan(v, receiving, last, w.found, froms, orders, n);
    assert CopiedTo(whole, h, v.sends, w.found, froms, orders, k, n);
    SubTransitive(Chunks(es), WireTo(k, n), Flow(h, items));
    forall i | 0 <= i < |items|
      ensures Sendable(items[i])
    {
      assert items[i] in items;
    }
    CleanMeansArrived(h, before, es, items, closes);
    var t := Finish(Run(h, Idle(before), es), closes);
    forall s | s in v.log && s.to == n
      ensures Arrived(w.found(s.from, s.file.path), s.file.path, t.disk)
    {
      var i :| 0 <= i < |items| && items[i] == Item(s.file.path, w.found(s.from, s.file.path));
    }
    DeliveredNamesSent(v, receiving, k, n, es);
    NamesNoPartial(v, n, es);
    NoPartialAdded(h, before, es, closes);
  }

  /** With nothing lost and no file that can't be read, the finish is clean. */
  lemma SmoothFinish(h: Hash, v: Planned, receiving: set<Node>, last: Path -> bool, w: World, froms: seq<Node>,
                     orders: map<Node, seq<Path>>, failed: set<Node>, k: Link, n: Node, before: Folder)
    requires Conserved(v) && OncePerPath(v.log) && SmoothWorld(h, w) && Deliverable(v, w.found)
    requires Ordered(v, receiving, last, froms, orders) && n in receiving
    requires Copied(true, h, v.sends, w.found, froms, orders, receiving, failed, k)
    ensures Clean(Finish(Run(h, Idle(before), Heard(w, n, WireTo(k, n))), w.closes(n)), CopiesTo(v, n))
  {
    var items := Script(v.sends, w.found, froms, orders, n);
    ScriptIsPlan(v, receiving, last, w.found, froms, orders, n);
    assert CopiedTo(true, h, v.sends, w.found, froms, orders, k, n);
    var es := Heard(w, n, WireTo(k, n));
    assert Whole(w.id, w.roots(n), w.traffic(n, WireTo(k, n)), WireTo(k, n));
    A.UptoIsPrefix(w.id, w.roots(n), w.traffic(n, WireTo(k, n)));
    assert Chunks(es) == Flow(h, items) && AllWork(es);
    forall i | 0 <= i < |items|
      ensures Gettable(items[i])
    {
      assert items[i] in items;
    }
    AllGot(h, Idle(before), es, items);
  }
}
