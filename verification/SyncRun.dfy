/**
 * One whole run on the conductor, after planning: copy through the relay, finish every
 * receive, delete only where every copy arrived. The environment decides all that can go
 * wrong.
 */
module SyncRuns {
  import opened Transfer
  import opened Plans
  import opened Receiver
  import opened Relay
  import opened Batching
  import opened CopyPhase
  import opened EndToEnd
  import opened ReceiveRuns

  // ---------------------------------------------------------------- the run

  /** Every sender's part is over: what each node in `receiving` was to get went through the relay, in this order. */
  ghost predicate SendingOver(whole: bool, h: Hash, v: Planned, w: World, last: Path -> bool, receiving: set<Node>,
                              froms: seq<Node>, orders: map<Node, seq<Path>>, failed: set<Node>, k: Link) {
    && Conserved(v) && OncePerPath(v.log) && (forall s :: s in v.log ==> !IsPartial(s.file.path))
    && Plausible(h, w) && Ordered(v, receiving, last, froms, orders)
    && Copied(whole, h, v.sends, w.found, froms, orders, receiving, failed, k)
    && (whole ==> SmoothWorld(h, w) && Deliverable(v, w.found))
  }

  /** The conductor's check when it closes a node's receive. */
  predicate Passes(w: World, n: Node, failed: set<Node>, dropped: set<Node>, result: Option<Site>, want: nat) {
    n !in failed && n !in dropped && result.Some? && w.answers(n) && Clean(result.value, want)
  }

  /**
   * A node's copies as the run sees them: on success all arrived; at every moment, success or
   * not, files the plan doesn't send there are as they were, and no partial file is left behind.
   */
  ghost predicate CopyResult(v: Planned, n: Node, found: Finds, before: Folder, mid: Folder, ok: bool,
                             moments: seq<Folder>) {
    && Spared(v, n, before, mid) && (forall d :: d in moments ==> Spared(v, n, before, d))
    && (forall q :: IsPartial(q) && q in mid ==> q in before)
    && (ok ==> AllArrived(v, n, found, before, mid))
  }

  /** A node that needs no copies is done. */
  lemma NothingToCopy(v: Planned, n: Node, found: Finds, before: Folder)
    requires Conserved(v) && CopiesTo(v, n) == 0
    ensures CopyResult(v, n, found, before, before, true, [])
  {
    forall s | s in v.log
      ensures s.to != n
    {
      SentToMember(v.log, s.to, s.file);
    }
  }

  /** One node's receive, from the chunks forwarded to it to the conductor's check. */
  method ReceiveOne(ghost whole: bool, h: Hash, ghost v: Planned, n: Node, want: nat, before: Folder, k: Link,
                    failed: set<Node>, w: World, ghost receiving: set<Node>, ghost last: Path -> bool,
                    ghost froms: seq<Node>, ghost orders: map<Node, seq<Path>>)
    returns (mid: Folder, ok: bool, ghost moments: seq<Folder>)
    requires SendingOver(whole, h, v, w, last, receiving, froms, orders, failed, k)
    requires n in receiving && want == CopiesTo(v, n)
    ensures CopyResult(v, n, w.found, before, mid, ok, moments)
    ensures ok ==> n !in failed && n !in k.dropped && w.answers(n)
    ensures whole ==> ok
  {
    ghost var es := Heard(w, n, WireTo(k, n));
    var result;
    result, mid := ReceiveAt(h, w, n, WireTo(k, n), before);
    moments := Disks(h, Idle(before), es);
    ok := Passes(w, n, failed, k.dropped, result, want);
    HeardFromWire(h, w, n, WireTo(k, n));
    if whole {
      assert Whole(w.id, w.roots(n), w.traffic(n, WireTo(k, n)), WireTo(k, n));
      SmoothFinish(h, v, receiving, last, w, froms, orders, failed, k, n, before);
    }
    DeliveredNamesSent(v, receiving, k, n, es);
    AlwaysSpared(h, v, n, before, es, w.closes(n));
    NamesNoPartial(v, n, es);
    NoPartialAdded(h, before, es, w.closes(n));
    if ok {
      CleanFinish(whole, h, v, receiving, last, w, froms, orders, failed, k, n, before, es, w.closes(n));
    }
  }

  /** The copies of the nodes in `mids` are settled. */
  ghost predicate Settled(whole: bool, v: Planned, found: Finds, folders: map<Node, Folder>, able: set<Node>,
                          mids: map<Node, Folder>, failed: set<Node>, moments: map<Node, seq<Folder>>) {
    && mids.Keys == moments.Keys <= folders.Keys && failed <= mids.Keys && mids.Keys - able <= failed
    && (whole ==> failed == mids.Keys - able)
    && forall n :: n in mids ==> CopyResult(v, n, found, folders[n], mids[n], n !in failed, moments[n])
  }

  lemma SettledStep(whole: bool, v: Planned, found: Finds, folders: map<Node, Folder>, able: set<Node>,
                    mids: map<Node, Folder>, failed: set<Node>, moments: map<Node, seq<Folder>>, n: Node, mid: Folder,
                    ok: bool, ms: seq<Folder>)
    requires Settled(whole, v, found, folders, able, mids, failed, moments) && n in folders && n !in mids
    requires CopyResult(v, n, found, folders[n], mid, ok, ms) && (ok ==> n in able) && (whole && n in able ==> ok)
    ensures Settled(whole, v, found, folders, able, mids[n := mid], if ok then failed else failed + {n},
                    moments[n := ms])
  {
  }

  /** A node that was to receive began, and its result came back. */
  predicate Contacted(w: World, v: Planned, n: Node) {
    CopiesTo(v, n) > 0 ==> w.starts(n) && w.answers(n)
  }

  ghost predicate AllContacted(w: World, v: Planned, mids: map<Node, Folder>, failed: set<Node>) {
    forall n :: n in mids && n !in failed ==> Contacted(w, v, n)
  }

  /** One node's turn: it receives, or needs nothing, or couldn't start. */
  method CopyOne(ghost whole: bool, h: Hash, ghost v: Planned, n: Node, want: nat, before: Folder, able: set<Node>,
                 receiving: set<Node>, k: Link, sendFailed: set<Node>, w: World, ghost last: Path -> bool,
                 ghost froms: seq<Node>, ghost orders: map<Node, seq<Path>>)
    returns (mid: Folder, ok: bool, ghost moments: seq<Folder>)
    requires SendingOver(whole, h, v, w, last, receiving, froms, orders, sendFailed, k) && receiving <= able
    requires want == CopiesTo(v, n)
    requires whole && n in able && want > 0 ==> n in receiving
    requires n in receiving ==> w.starts(n)
    ensures CopyResult(v, n, w.found, before, mid, ok, moments) && (ok ==> n in able && Contacted(w, v, n))
    ensures whole && n in able ==> ok
  {
    if n in receiving {
      mid, ok, moments := ReceiveOne(whole, h, v, n, want, before, k, sendFailed, w, receiving, last, froms, orders);
    } else {
      mid, moments := before, [];
      ok := n in able && want == 0;
      if ok {
        NothingToCopy(v, n, w.found, before);
      }
    }
  }

  /** Every node's turn, in any order. */
  method FinishAll(ghost whole: bool, h: Hash, ghost v: Planned, copies: map<Node, nat>, folders: map<Node, Folder>,
                   able: set<Node>, receiving: set<Node>, k: Link, sendFailed: set<Node>, w: World,
                   ghost last: Path -> bool, ghost froms: seq<Node>, ghost orders: map<Node, seq<Path>>)
    returns (mids: map<Node, Folder>, failed: set<Node>, ghost moments: map<Node, seq<Folder>>)
    requires SendingOver(whole, h, v, w, last, receiving, froms, orders, sendFailed, k) && receiving <= able
    requires copies == v.copies
    requires whole ==> forall n :: n in able && CopiesTo(v, n) > 0 ==> n in receiving
    requires forall n :: n in receiving ==> w.starts(n)
    ensures mids.Keys == folders.Keys && Settled(whole, v, w.found, folders, able, mids, failed, moments)
    ensures AllContacted(w, v, mids, failed)
  {
    mids, failed, moments := map[], {}, map[];
    var todo := folders.Keys;
    while todo != {}
      invariant forall m :: m in todo <==> m in folders && m !in mids
      invariant Settled(whole, v, w.found, folders, able, mids, failed, moments)
      invariant AllContacted(w, v, mids, failed)
      decreases |todo|
    {
      var n :| n in todo;
      var mid, ok, ms := CopyOne(whole, h, v, n, if n in copies then copies[n] else 0, folders[n], able, receiving, k,
                                 sendFailed, w, last, froms, orders);
      SettledStep(whole, v, w.found, folders, able, mids, failed, moments, n, mid, ok, ms);
      mids, moments := mids[n := mid], moments[n := ms];
      if !ok {
        failed := failed + {n};
      }
      todo := todo - {n};
    }
    assert forall m :: m in folders <==> m in mids;
  }

  /** Every sender's files, in the order it streamed them: those marked `last` after all others. */
  ghost predicate SentInOrder(last: Path -> bool, orders: map<Node, seq<Path>>) {
    forall n, i, j :: n in orders && 0 <= i < j < |orders[n]| && last(orders[n][i]) ==> last(orders[n][j])
  }

  /** The copying part of the run: every node's folder afterwards and the nodes that failed. */
  method CopyPhaseRun(ghost whole: bool, h: Hash, p: Plan, folders: map<Node, Folder>, able: set<Node>,
                      last: Path -> bool, w: World)
    returns (mids: map<Node, Folder>, failed: set<Node>, ghost moments: map<Node, seq<Folder>>,
             ghost orders: map<Node, seq<Path>>)
    requires Conserved(p.View()) && OncePerPath(p.log) && NoDoubles(p.sends)
    requires (forall s :: s in p.log ==> !IsPartial(s.file.path)) && Plausible(h, w)
    requires whole ==> SmoothWorld(h, w) && Deliverable(p.View(), w.found)
    ensures mids.Keys == folders.Keys && Settled(whole, p.View(), w.found, folders, able, mids, failed, moments)
    ensures AllContacted(w, p.View(), mids, failed) && SentInOrder(last, orders)
  {
    var receiving := set n | n in able && n in p.copies && p.copies[n] > 0 && w.starts(n);
    var r := new RelayRun();
    if whole {
      DeliverableLocal(p.View(), w.found);
    }
    var sendFailed;
    ghost var froms;
    sendFailed, froms, orders := CopyAll(whole, h, r, p.sends, receiving, last, w.found, w.transits);
    mids, failed, moments := FinishAll(whole, h, p.View(), p.copies, folders, able, receiving, r.State(), sendFailed,
                                       w, last, froms, orders);
  }

  // ---------------------------------------------------------------- deletes

  /** `b` is `a` with some of `paths` removed. */
  ghost predicate RemovedFrom(a: Folder, b: Folder, paths: seq<Path>) {
    forall q :: if q in paths then (q in b ==> q in a && a[q] == b[q]) else SameAt(a, b, q)
  }

  function LastOf(disk: Folder, moments: seq<Folder>): Folder {
    if moments == [] then disk else moments[|moments| - 1]
  }

  /** Each of `moments` comes of the one before by removing some of a batch. */
  ghost predicate Stepwise(disk: Folder, moments: seq<Folder>, bs: seq<seq<Path>>)
    requires |moments| <= |bs|
  {
    forall i :: 0 <= i < |moments| ==> RemovedFrom(LastOf(disk, moments[..i]), moments[i], bs[i])
  }

  lemma StepAdded(disk: Folder, moments: seq<Folder>, bs: seq<seq<Path>>, out: Folder)
    requires |moments| < |bs| && Stepwise(disk, moments, bs)
    requires RemovedFrom(LastOf(disk, moments), out, bs[|moments|])
    ensures Stepwise(disk, moments + [out], bs) && LastOf(disk, moments + [out]) == out
  {
    var ms := moments + [out];
    forall i | 0 <= i < |ms|
      ensures RemovedFrom(LastOf(disk, ms[..i]), ms[i], bs[i])
    {
      assert ms[..i] == moments[..i] && (i == |moments| ==> moments[..i] == moments);
    }
  }

  /** Batches of `paths` are being deleted. */
  ghost predicate Deleting(disk: Folder, paths: seq<Path>, moments: seq<Folder>, bs: seq<seq<Path>>, out: Folder) {
    && Concat(bs) == paths && |moments| <= |bs| && out == LastOf(disk, moments) && Stepwise(disk, moments, bs)
    && RemovedFrom(disk, out, paths) && forall d :: d in moments ==> RemovedFrom(disk, d, paths)
  }

  /** Some of the next batch is gone. */
  lemma BatchDeleted(disk: Folder, paths: seq<Path>, moments: seq<Folder>, bs: seq<seq<Path>>, out: Folder,
                     gone: set<Path>, next: Folder)
    requires Deleting(disk, paths, moments, bs, out) && |moments| < |bs|
    requires next == out - (gone * set q | q in bs[|moments|])
    ensures Deleting(disk, paths, moments + [next], bs, next)
  {
    var b := bs[|moments|];
    ConcatPart(bs, |moments|);
    assert RemovedFrom(out, next, b);
    assert RemovedFrom(disk, next, paths);
    StepAdded(disk, moments, bs, next);
  }

  /** All of it is. */
  lemma BatchDeletedWhole(disk: Folder, bs: seq<seq<Path>>, i: nat, j: nat, out: Folder, gone: set<Path>, next: Folder)
    requires i < |bs| && j == i + 1 && forall q :: q in bs[i] ==> q in gone
    requires out == disk - (set q | q in Concat(bs[..i]))
    requires next == out - (gone * set q | q in bs[i])
    ensures next == disk - (set q | q in Concat(bs[..j]))
  {
    ConcatPart(bs, i);
  }

  /** `moments` are the folder after each batch of deletes, up to the one that failed, if one did. */
  ghost predicate Batchwise(disk: Folder, paths: seq<Path>, moments: seq<Folder>, out: Folder, ok: bool) {
    out == LastOf(disk, moments) && (!ok ==> moments != []) && exists bs ::
      Concat(bs) == paths && |moments| <= |bs| && (ok ==> |moments| == |bs|) && Stepwise(disk, moments, bs)
  }

  /** Deletes a node's files in batches, until one fails. */
  method DeleteFiles(n: Node, disk: Folder, paths: seq<Path>, removes: (Node, seq<Path>) -> Removal)
    returns (out: Folder, ok: bool, ghost moments: seq<Folder>)
    requires HonestRemoval(removes)
    ensures RemovedFrom(disk, out, paths) && forall d :: d in moments ==> RemovedFrom(disk, d, paths)
    ensures Batchwise(disk, paths, moments, out, ok)
    ensures ok ==> out == disk - (set q | q in paths)
    ensures AllRemove(removes) ==> ok
  {
    var bs := Batches(paths);
    out, moments := disk, [];
    for i := 0 to |bs|
      invariant Deleting(disk, paths, moments, bs, out) && |moments| == i
      invariant out == disk - (set q | q in Concat(bs[..i]))
    {
      var res := removes(n, bs[i]);
      var next := out - (res.gone * set q | q in bs[i]);
      BatchDeleted(disk, paths, moments, bs, out, res.gone, next);
      moments := moments + [next];
      if !res.ok {
        return next, false, moments;
      }
      BatchDeletedWhole(disk, bs, i, i + 1, out, res.gone, next);
      out := next;
    }
    assert bs[..|bs|] == bs;
    ok := true;
  }

  /** One node through the whole run. */
  ghost predicate NodeResult(v: Planned, n: Node, found: Finds, before: Folder, moments: seq<Folder>, mid: Folder,
                             deleting: seq<Folder>, after: Folder, copied: bool, ok: bool) {
    CopyResult(v, n, found, before, mid, copied, moments) &&
      DeleteResult(DeletesOn(v, n), mid, deleting, after, copied, ok)
  }

  /** Deletes run only on a node whose copies all arrived. */
  ghost predicate DeleteResult(deletes: seq<Path>, mid: Folder, deleting: seq<Folder>, after: Folder, copied: bool,
                               ok: bool) {
    && (if copied then RemovedFrom(mid, after, deletes) else after == mid && !ok && deleting == [])
    && (forall d :: d in deleting ==> RemovedFrom(mid, d, deletes))
    && (copied ==> Batchwise(mid, deletes, deleting, after, ok))
    && (ok ==> after == mid - (set q | q in deletes))
  }

  /**
   * What a run did: per node, its folder after each chunk, between its copies and deletes, and
   * after each delete batch; who failed; and per sender, what it sent, in order.
   */
  datatype Outcome = Outcome(after: map<Node, Folder>, failed: set<Node>, mids: map<Node, Folder>,
                             copyFailed: set<Node>, moments: map<Node, seq<Folder>>, deleting: map<Node, seq<Folder>>,
                             orders: map<Node, seq<Path>>)

  ghost predicate RunResult(v: Planned, found: Finds, folders: map<Node, Folder>, able: set<Node>, o: Outcome) {
    && o.after.Keys == o.mids.Keys == o.moments.Keys == o.deleting.Keys == folders.Keys
    && folders.Keys - able <= o.copyFailed
    && forall n :: n in folders ==>
      NodeResult(v, n, found, folders[n], o.moments[n], o.mids[n], o.deleting[n], o.after[n], n !in o.copyFailed,
                 n !in o.failed)
  }

  method DeleteOne(p: Plan, n: Node, mid: Folder, copied: bool, w: World)
    returns (after: Folder, ok: bool, ghost deleting: seq<Folder>)
    requires HonestRemoval(w.removes)
    ensures DeleteResult(DeletesOn(p.View(), n), mid, deleting, after, copied, ok)
    ensures AllRemove(w.removes) && copied ==> ok
  {
    if copied {
      after, ok, deleting := DeleteFiles(n, mid, if n in p.deletes then p.deletes[n] else [], w.removes);
    } else {
      after, ok, deleting := mid, false, [];
    }
  }

  /** The deletes of the nodes in `after` are settled. */
  ghost predicate Deleted(whole: bool, v: Planned, mids: map<Node, Folder>, copyFailed: set<Node>,
                          deleting: map<Node, seq<Folder>>, after: map<Node, Folder>, failed: set<Node>) {
    && deleting.Keys == after.Keys <= mids.Keys && failed <= after.Keys && (whole ==> failed <= copyFailed)
    && forall n :: n in after ==>
      DeleteResult(DeletesOn(v, n), mids[n], deleting[n], after[n], n !in copyFailed, n !in failed)
  }

  lemma DeletedStep(whole: bool, v: Planned, mids: map<Node, Folder>, copyFailed: set<Node>,
                    deleting: map<Node, seq<Folder>>, after: map<Node, Folder>, failed: set<Node>, n: Node,
                    ds: seq<Folder>, out: Folder, ok: bool)
    requires Deleted(whole, v, mids, copyFailed, deleting, after, failed) && n in mids && n !in after
    requires DeleteResult(DeletesOn(v, n), mids[n], ds, out, n !in copyFailed, ok) && (whole && n !in copyFailed ==> ok)
    ensures Deleted(whole, v, mids, copyFailed, deleting[n := ds], after[n := out], if ok then failed else failed + {n})
  {
  }

  /** Every node's deletes, in any order. */
  method DeleteAll(ghost whole: bool, p: Plan, mids: map<Node, Folder>, copyFailed: set<Node>, w: World)
    returns (after: map<Node, Folder>, failed: set<Node>, ghost deleting: map<Node, seq<Folder>>)
    requires HonestRemoval(w.removes) && (whole ==> AllRemove(w.removes))
    ensures after.Keys == mids.Keys && Deleted(whole, p.View(), mids, copyFailed, deleting, after, failed)
  {
    after, failed, deleting := map[], {}, map[];
    ghost var v := p.View();
    var todo := mids.Keys;
    while todo != {}
      invariant forall m :: m in todo <==> m in mids && m !in after
      invariant Deleted(whole, v, mids, copyFailed, deleting, after, failed)
      decreases |todo|
    {
      var n :| n in todo;
      var out, ok, ds := DeleteOne(p, n, mids[n], n !in copyFailed, w);
      DeletedStep(whole, v, mids, copyFailed, deleting, after, failed, n, ds, out, ok);
      after, deleting := after[n := out], deleting[n := ds];
      if !ok {
        failed := failed + {n};
      }
      todo := todo - {n};
    }
    assert forall m :: m in mids <==> m in after;
  }

  /**
   * Carries a plan out: copies, then deletes on just the nodes whose copies all arrived.
   */
  method CarryOut(h: Hash, p: Plan, folders: map<Node, Folder>, able: set<Node>, last: Path -> bool, w: World)
    returns (after: map<Node, Folder>, failed: set<Node>, ghost o: Outcome)
    requires Conserved(p.View()) && OncePerPath(p.log) && NoDoubles(p.sends)
    requires (forall s :: s in p.log ==> !IsPartial(s.file.path)) && Plausible(h, w)
    ensures o.after == after && o.failed == failed && failed <= folders.Keys
    ensures RunResult(p.View(), w.found, folders, able, o)
    ensures AllContacted(w, p.View(), o.mids, o.copyFailed) && SentInOrder(last, o.orders)
    ensures SmoothWorld(h, w) && Deliverable(p.View(), w.found) ==> failed == folders.Keys - able
  {
    ghost var whole := SmoothWorld(h, w) && Deliverable(p.View(), w.found);
    var mids, copyFailed;
    ghost var moments, deleting, orders;
    mids, copyFailed, moments, orders := CopyPhaseRun(whole, h, p, folders, able, last, w);
    after, failed, deleting := DeleteAll(whole, p, mids, copyFailed, w);
    o := Outcome(after, failed, mids, copyFailed, moments, deleting, orders);
  }

  /**
   * No loss: a file a node is neither sent nor told to delete is the same there at every
   * moment of the run, whatever fails.
   */
  lemma KeptThroughout(v: Planned, found: Finds, folders: map<Node, Folder>, able: set<Node>, o: Outcome, n: Node,
                       q: Path)
    requires RunResult(v, found, folders, able, o) && n in folders
    requires !IsPartial(q) && !SentThere(v, n, q) && q !in DeletesOn(v, n)
    ensures forall d :: d in o.moments[n] || d in o.deleting[n] ==> SameAt(folders[n], d, q)
    ensures SameAt(folders[n], o.mids[n], q) && SameAt(folders[n], o.after[n], q)
  {
    assert NodeResult(v, n, found, folders[n], o.moments[n], o.mids[n], o.deleting[n], o.after[n], n !in o.copyFailed,
                      n !in o.failed);
  }

  /** Whatever fails, a run adds no partial file to any node's folder. */
  lemma NoPartialLeft(v: Planned, found: Finds, folders: map<Node, Folder>, able: set<Node>, o: Outcome, n: Node,
                      q: Path)
    requires RunResult(v, found, folders, able, o) && n in folders && IsPartial(q)
    ensures q in o.mids[n] || q in o.after[n] ==> q in folders[n]
    ensures forall d :: d in o.deleting[n] && q in d ==> q in folders[n]
  {
    assert NodeResult(v, n, found, folders[n], o.moments[n], o.mids[n], o.deleting[n], o.after[n], n !in o.copyFailed,
                      n !in o.failed);
  }

  /** A node whose copies failed is never sent a delete: every file it held and isn't sent stays. */
  lemma FailedCopyDeletesNothing(v: Planned, found: Finds, folders: map<Node, Folder>, able: set<Node>, o: Outcome,
                                 n: Node, q: Path)
    requires RunResult(v, found, folders, able, o) && n in o.copyFailed && n in folders
    requires !IsPartial(q) && !SentThere(v, n, q)
    ensures n in o.failed && SameAt(folders[n], o.after[n], q)
  {
    assert NodeResult(v, n, found, folders[n], o.moments[n], o.mids[n], o.deleting[n], o.after[n], n !in o.copyFailed,
                      n !in o.failed);
  }
}
