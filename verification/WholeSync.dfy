/**
 * Whole syncs from the folders up: every node lists its folder, pieces of the listings travel
 * and may be lost, and what the conductor accepted is planned, carried out and recorded.
 */
module WholeSyncs {
  import opened Transfer
  import opened Subsequences
  import opened Plans
  import opened Listing
  import opened ReceiveRuns
  import opened SyncRuns
  import opened SyncTheorems
  import opened Folders
  import opened TwoWayPlanner
  import CopyPhase
  import Paths
  import T = TwoWayTheorems
  import M = BackupPlanner

  // ---------------------------------------------------------------- listing every node

  /** A piece of a node's listing, at the conductor. */
  datatype Listed = Listed(node: Node, piece: Piece)

  /** How listings travel: what of the pieces sent arrives, all nodes' together, and whose count comes back. */
  datatype Net = Net(arrivals: map<Node, seq<Piece>> -> seq<Listed>, answers: Node -> bool)

  /** The pieces of `n` among them. */
  function PiecesOf(n: Node, arrivals: seq<Listed>): seq<Piece> {
    if arrivals == [] then []
    else
      var front := PiecesOf(n, arrivals[..|arrivals| - 1]);
      var a := arrivals[|arrivals| - 1];
      if a.node == n then front + [a.piece] else front
  }

  /** A node's pieces arrive in order, and before its count; any of them may be lost. */
  ghost predicate HonestNet(net: Net) {
    forall sent, n :: n in sent && net.answers(n) ==> Sub(PiecesOf(n, net.arrivals(sent)), sent[n])
  }

  ghost predicate LosslessNet(net: Net) {
    (forall n :: net.answers(n)) && forall sent, n :: n in sent ==> PiecesOf(n, net.arrivals(sent)) == sent[n]
  }

  /** What a node sent lists its folder. */
  ghost predicate SentAll(walks: Node -> seq<SyncFile>, sent: map<Node, seq<Piece>>) {
    forall n :: n in sent ==> Joined(sent[n]) == walks(n) && forall p :: p in sent[n] ==> Listing.Fits(p)
  }

  lemma SentOneMore(walks: Node -> seq<SyncFile>, sent: map<Node, seq<Piece>>, n: Node, pieces: seq<Piece>)
    requires SentAll(walks, sent) && Joined(pieces) == walks(n) && forall p :: p in pieces ==> Listing.Fits(p)
    ensures SentAll(walks, sent[n := pieces])
  {
  }

  /** Every node lists its folder. */
  method SendListings(nodes: set<Node>, walks: Node -> seq<SyncFile>)
    returns (sent: map<Node, seq<Piece>>, totals: map<Node, nat>)
    ensures sent.Keys == totals.Keys == nodes && SentAll(walks, sent)
    ensures forall n :: n in totals ==> totals[n] == |walks(n)|
  {
    sent, totals := map[], map[];
    var todo := nodes;
    while todo != {}
      invariant todo <= nodes && sent.Keys == totals.Keys == nodes - todo && SentAll(walks, sent)
      invariant forall n :: n in totals ==> totals[n] == |walks(n)|
      decreases |todo|
    {
      var n :| n in todo;
      todo := todo - {n};
      var pieces, total := ListFiles(walks(n));
      SentOneMore(walks, sent, n, pieces);
      sent, totals := sent[n := pieces], totals[n := total];
    }
  }

  lemma JoinedOneMore(a: seq<Piece>, p: Piece)
    ensures Joined(a + [p]) == Joined(a) + p
  {
    assert (a + [p])[..|a|] == a;
  }

  /** Puts the pieces together as they arrive. */
  method Collect(run: Run, arrivals: seq<Listed>)
    requires forall n :: n in run.lists ==> run.lists[n] == []
    modifies run
    ensures run.lists.Keys == old(run.lists).Keys
    ensures forall n :: n in run.lists ==> run.lists[n] == Joined(PiecesOf(n, arrivals))
  {
    for i := 0 to |arrivals|
      invariant run.lists.Keys == old(run.lists).Keys
      invariant forall n :: n in run.lists ==> run.lists[n] == Joined(PiecesOf(n, arrivals[..i]))
    {
      var a := arrivals[i];
      assert arrivals[..i + 1][..i] == arrivals[..i];
      JoinedOneMore(PiecesOf(a.node, arrivals[..i]), a.piece);
      run.HandleListing(a.node, a.piece);
    }
    assert arrivals[..|arrivals|] == arrivals;
  }

  /** A listing the sync can use: not empty where that could wipe folders. */
  predicate Usable(files: seq<SyncFile>, refused: bool) {
    !(files == [] && refused)
  }

  /** The listings of the nodes in `done` that were accepted: each is exactly what its node listed. */
  ghost predicate Exact(walks: Node -> seq<SyncFile>, refuses: Node -> bool, done: set<Node>, lists: Lists) {
    && lists.Keys <= done
    && forall n :: n in lists ==> lists[n] == walks(n) && Usable(walks(n), refuses(n))
  }

  /** What the count of `n` tells about what arrived. */
  lemma CountTells(walks: Node -> seq<SyncFile>, net: Net, sent: map<Node, seq<Piece>>, n: Node, refused: bool)
    requires SentAll(walks, sent) && HonestNet(net) && n in sent && net.answers(n)
    ensures var got := Joined(PiecesOf(n, net.arrivals(sent)));
      && (Accepted(got, |walks(n)|, refused) ==> got == walks(n) && Usable(walks(n), refused))
      && (LosslessNet(net) && Usable(walks(n), refused) ==> Accepted(got, |walks(n)|, refused))
  {
    AcceptedIsWhole(walks(n), sent[n], PiecesOf(n, net.arrivals(sent)), refused);
  }

  /** One node's listing, if it is accepted. */
  function Taken(net: Net, n: Node, got: seq<SyncFile>, total: nat, refused: bool): Option<seq<SyncFile>> {
    if net.answers(n) && Accepted(got, total, refused) then Some(got) else None
  }

  /** Keeps the listings that are accepted. */
  method AcceptAll(nodes: set<Node>, ghost walks: Node -> seq<SyncFile>, refuses: Node -> bool, net: Net,
                   ghost sent: map<Node, seq<Piece>>, totals: map<Node, nat>, got: Lists) returns (lists: Lists)
    requires SentAll(walks, sent) && HonestNet(net) && sent.Keys == totals.Keys == got.Keys == nodes
    requires forall n :: n in nodes ==>
      totals[n] == |walks(n)| && got[n] == Joined(PiecesOf(n, net.arrivals(sent)))
    ensures Exact(walks, refuses, nodes, lists)
    ensures LosslessNet(net) ==> forall n :: n in nodes && Usable(walks(n), refuses(n)) ==> n in lists
  {
    lists := map[];
    var todo := nodes;
    while todo != {}
      invariant todo <= nodes && Exact(walks, refuses, nodes, lists)
      invariant LosslessNet(net) ==>
        forall n :: n in nodes && n !in todo && Usable(walks(n), refuses(n)) ==> n in lists
      decreases |todo|
    {
      var n :| n in todo;
      todo := todo - {n};
      var taken := Taken(net, n, got[n], totals[n], refuses(n));
      if net.answers(n) {
        CountTells(walks, net, sent, n, refuses(n));
      }
      if taken.Some? {
        lists := lists[n := taken.value];
      }
    }
  }

  /**
   * Lists every node. Whatever is lost, a listing accepted is exactly the node's own; with
   * nothing lost, every node's is accepted, but for empty ones where they are refused.
   */
  method ListAll(nodes: set<Node>, walks: Node -> seq<SyncFile>, refuses: Node -> bool, net: Net) returns (lists: Lists)
    requires HonestNet(net)
    ensures Exact(walks, refuses, nodes, lists)
    ensures LosslessNet(net) ==> forall n :: n in nodes && Usable(walks(n), refuses(n)) ==> n in lists
  {
    var sent, totals := SendListings(nodes, walks);
    var run := new Run(nodes);
    Collect(run, net.arrivals(sent));
    lists := AcceptAll(nodes, walks, refuses, net, sent, totals, run.lists);
  }

  // ---------------------------------------------------------------- two-way

  /** Every node's walk lists just its folder, and no folder changes but by the run: senders read what is there. */
  ghost predicate Quiet(h: Hash, walks: Node -> seq<SyncFile>, folders: map<Node, Folder>, found: CopyPhase.Finds) {
    && (forall b :: IsSum(h(b))) && (forall n :: n in folders ==> IsListing(walks(n), SumsOf(h, folders[n])))
    && (forall n, p :: n in folders && p in folders[n] ==> found(n, p) == Contents(folders[n][p]))
  }

  lemma QuietIsSteady(h: Hash, walks: Node -> seq<SyncFile>, refuses: Node -> bool, folders: map<Node, Folder>,
                      found: CopyPhase.Finds, lists: Lists)
    requires Quiet(h, walks, folders, found) && Exact(walks, refuses, lists.Keys, lists) && lists.Keys <= folders.Keys
    ensures Steady(h, lists, folders, found)
  {
  }

  /** Walks list ordinary paths, as walking a folder does. */
  ghost predicate OrdinaryWalks(walks: Node -> seq<SyncFile>, nodes: set<Node>) {
    forall n, f :: n in nodes && f in walks(n) ==> Paths.Ordinary(f.path)
  }

  /** Nothing is lost and nothing breaks, from the listings to the last delete. */
  ghost predicate AllWell(h: Hash, walks: Node -> seq<SyncFile>, net: Net, folders: map<Node, Folder>, w: World) {
    && LosslessNet(net) && SmoothWorld(h, w) && Quiet(h, walks, folders, w.found) && OrdinaryWalks(walks, folders.Keys)
  }

  lemma OrdinaryDelivers(h: Hash, walks: Node -> seq<SyncFile>, refuses: Node -> bool, folders: map<Node, Folder>,
                         found: CopyPhase.Finds, lists: Lists, v: Planned)
    requires Quiet(h, walks, folders, found) && OrdinaryWalks(walks, folders.Keys)
    requires Exact(walks, refuses, lists.Keys, lists) && lists.Keys <= folders.Keys && Grounded(v, lists)
    ensures Deliverable(v, found)
  {
    QuietIsSteady(h, walks, refuses, folders, found, lists);
    forall n, f | n in lists && f in lists[n]
      ensures LocalPath(f.path)
    {
      Paths.OrdinaryIsLocal(f.path);
    }
    SteadyDeliverable(h, v, lists, folders, found);
  }

  /** Just the nodes without a usable listing, or without room, fail. */
  ghost predicate OnlyThese(v: Planned, folders: map<Node, Folder>, walks: Node -> seq<SyncFile>, refuses: Node -> bool,
                            taking: set<Node>, free: map<Node, nat>, failed: set<Node>) {
    forall n :: n in folders ==>
      (n in failed <==> n !in taking || !Usable(walks(n), refuses(n)) || !HasRoom(v, free, n))
  }

  lemma AbleAre(v: Planned, folders: map<Node, Folder>, walks: Node -> seq<SyncFile>, refuses: Node -> bool,
                taking: set<Node>, free: map<Node, nat>, lists: Lists, failed: set<Node>)
    requires Conserved(v) && taking <= folders.Keys && Exact(walks, refuses, taking, lists)
    requires forall n :: n in taking && Usable(walks(n), refuses(n)) ==> n in lists
    requires failed == folders.Keys - Able(lists, v.bytes, free)
    ensures OnlyThese(v, folders, walks, refuses, taking, free, failed)
  {
    forall n | n in folders
      ensures n in failed <==> n !in taking || !Usable(walks(n), refuses(n)) || !HasRoom(v, free, n)
    {
      AbleExactly(v, lists, free, n);
    }
  }

  /** All nodes the sync succeeded on hold exactly `files`. */
  ghost predicate AllHold(h: Hash, after: map<Node, Folder>, failed: set<Node>, files: map<Path, Sum>)
    requires forall b :: IsSum(h(b))
  {
    forall n :: n in after && n !in failed ==> SumsOf(h, after[n]) == files
  }

  lemma AllConverge(h: Hash, v: Planned, lists: Lists, st: T.Stored, folders: map<Node, Folder>, found: CopyPhase.Finds,
                    able: set<Node>, o: Outcome)
    requires TwoWayPlanner.IsMerge(v, lists, T.Load(st)) && Steady(h, lists, folders, found) && able <= lists.Keys
    requires RunResult(v, found, folders, able, o)
    ensures AllHold(h, o.after, o.failed, v.files)
  {
    forall n | n in o.after && n !in o.failed
      ensures SumsOf(h, o.after[n]) == v.files
    {
      assert NodeResult(v, n, found, folders[n], o.moments[n], o.mids[n], o.deleting[n], o.after[n], n !in o.copyFailed,
                        n !in o.failed);
      RunConverges(h, v, lists, T.Load(st), folders, found, able, o, n);
    }
  }

  /**
   * A whole two-way sync. Whatever is lost of the listings and of the files on their way, and
   * whatever else fails, every node it doesn't report as failed ends with exactly the merge of
   * the folders listed, and nobody's copy of a file that isn't sent or deleted there changes.
   */
  method TwoWayFromFolders(h: Hash, folders: map<Node, Folder>, walks: Node -> seq<SyncFile>, net: Net, st: T.Stored,
                           free: map<Node, nat>, w: World, storage: Storage, wanted: bool, cluster: set<Node>, now: int)
    returns (lists: Lists, after: map<Node, Folder>, failed: set<Node>, t: T.Stored, ghost v: Planned, ghost o: Outcome)
    requires Plausible(h, w) && HonestNet(net)
    ensures Exact(walks, _ => true, folders.Keys, lists)
    ensures lists == map[] || !storage.loads ==> after == folders && failed == folders.Keys && t == st
    ensures lists != map[] && storage.loads ==>
      && IsMerge(v, lists, T.Load(st)) && o.after == after && o.failed <= failed
      && RunResult(v, w.found, folders, Able(lists, v.bytes, free), o)
      && (Quiet(h, walks, folders, w.found) ==> AllHold(h, after, failed, v.files))
      && t == (if storage.saves then T.Save(st, wanted, folders.Keys - failed, v.files, v.deleted, cluster, now)
        else st)
      && (AllWell(h, walks, net, folders, w) ==>
            OnlyThese(v, folders, walks, _ => true, folders.Keys, free, o.failed))
  {
    lists := ListAll(folders.Keys, walks, _ => true, net);
    after, failed, t, v, o := TwoWaySync(h, lists, st, folders, free, w, storage, wanted, cluster, now);
    if lists != map[] && storage.loads && Quiet(h, walks, folders, w.found) {
      QuietIsSteady(h, walks, _ => true, folders, w.found, lists);
      AllConverge(h, v, lists, st, folders, w.found, Able(lists, v.bytes, free), o);
      if AllWell(h, walks, net, folders, w) {
        MergeGrounded(v, lists, T.Load(st));
        OrdinaryDelivers(h, walks, _ => true, folders, w.found, lists, v);
        AbleAre(v, folders, walks, _ => true, folders.Keys, free, lists, o.failed);
      }
    }
  }

  // ---------------------------------------------------------------- backup

  /** The main server's folder afterwards: its own files, untouched, and the WAL gathered. */
  ghost predicate Gathers(h: Hash, lists: Lists, source: Node, keep: Path -> bool, before: Folder, after: Folder)
    requires forall b :: IsSum(h(b))
  {
    forall p ::
      && (p in SumsOf(h, after) <==>
          (p in before && !IsPartial(p)) || M.Gathered(M.REPOSITORY, Indexing(lists), source, keep, p))
      && (p in before && !IsPartial(p) ==> p in after && h(after[p]) == h(before[p]))
  }

  /** A node's folder afterwards: the main server's, but for the conflicted segments it held. */
  ghost predicate MirrorsMain(h: Hash, lists: Lists, n: Node, before: Folder, after: Folder, main: Folder)
    requires forall b :: IsSum(h(b))
  {
    forall p ::
      if M.Frozen(M.REPOSITORY, Indexing(lists), n, p) && !IsPartial(p)
        then SameEntry(SumsOf(h, after), SumsOf(h, before), p)
      else SameEntry(SumsOf(h, after), SumsOf(h, main), p)
  }

  /** What a backup sync that succeeded on the main server leaves there, and on every other node it succeeded on. */
  ghost predicate BackedUp(h: Hash, lists: Lists, source: Node, keep: Path -> bool, folders: map<Node, Folder>,
                           after: map<Node, Folder>, failed: set<Node>)
    requires (forall b :: IsSum(h(b))) && source in folders && source in after && after.Keys <= folders.Keys
  {
    && Gathers(h, lists, source, keep, folders[source], after[source])
    && forall n :: n in after && n !in failed ==> MirrorsMain(h, lists, n, folders[n], after[n], after[source])
  }

  lemma AllMirror(h: Hash, v: Planned, lists: Lists, source: Node, keep: Path -> bool, folders: map<Node, Folder>,
                  found: CopyPhase.Finds, able: set<Node>, o: Outcome)
    requires M.IsMirror(M.REPOSITORY, v, lists, source, keep) && Steady(h, lists, folders, found) && source in lists
    requires able <= lists.Keys && RunResult(v, found, folders, able, o) && source !in o.failed
    ensures BackedUp(h, lists, source, keep, folders, o.after, o.failed)
  {
    forall p
      ensures p in SumsOf(h, o.after[source]) <==>
        (p in folders[source] && !IsPartial(p)) || M.Gathered(M.REPOSITORY, Indexing(lists), source, keep, p)
      ensures p in folders[source] && !IsPartial(p) ==>
        p in o.after[source] && h(o.after[source][p]) == h(folders[source][p])
    {
      RunGathers(h, M.REPOSITORY, v, lists, source, keep, folders, found, able, o, p);
    }
    forall n | n in o.after && n !in o.failed
      ensures MirrorsMain(h, lists, n, folders[n], o.after[n], o.after[source])
    {
      assert NodeResult(v, n, found, folders[n], o.moments[n], o.mids[n], o.deleting[n], o.after[n], n !in o.copyFailed,
                        n !in o.failed);
      forall p
        ensures if M.Frozen(M.REPOSITORY, Indexing(lists), n, p) && !IsPartial(p)
                then SameEntry(SumsOf(h, o.after[n]), SumsOf(h, folders[n]), p)
                else SameEntry(SumsOf(h, o.after[n]), SumsOf(h, o.after[source]), p)
      {
        RunMirrors(h, M.REPOSITORY, v, lists, source, keep, folders, found, able, o, n, p);
      }
    }
  }

  /**
   * A whole backup sync, the same way: if it succeeds on the main server, that one ends with its
   * own files and the WAL gathered, and every other node it doesn't report as failed equals it,
   * but for conflicted segments that node held.
   */
  method BackupFromFolders(h: Hash, folders: map<Node, Folder>, walks: Node -> seq<SyncFile>, net: Net,
                           passing: set<Node>, source: Node, retention: Option<Path -> bool>, free: map<Node, nat>,
                           w: World)
    returns (lists: Lists, after: map<Node, Folder>, failed: set<Node>, ghost v: Planned, ghost o: Outcome)
    requires Plausible(h, w) && HonestNet(net)
    ensures Exact(walks, n => n == source, folders.Keys * passing, lists)
    ensures source !in lists || retention.None? ==> after == folders && failed == folders.Keys
    ensures source in lists && retention.Some? ==>
      && M.IsMirror(M.REPOSITORY, v, lists, source, retention.value) && o.after == after && o.failed == failed
      && RunResult(v, w.found, folders, Able(lists, v.bytes, free), o)
      && (Quiet(h, walks, folders, w.found) && source !in failed ==>
            BackedUp(h, lists, source, retention.value, folders, after, failed))
      && (AllWell(h, walks, net, folders, w) ==>
            OnlyThese(v, folders, walks, n => n == source, folders.Keys * passing, free, failed))
  {
    lists := ListAll(folders.Keys * passing, walks, n => n == source, net);
    after, failed, v, o := BackupSync(h, lists, passing, source, retention, folders, free, w);
    if source in lists && retention.Some? {
      AllEnter(lists, passing, source, retention);
      if AllWell(h, walks, net, folders, w) {
        MirrorGrounded(M.REPOSITORY, v, lists, source, retention.value);
        OrdinaryDelivers(h, walks, n => n == source, folders, w.found, lists, v);
        AbleAre(v, folders, walks, n => n == source, folders.Keys * passing, free, lists, failed);
      }
      if Quiet(h, walks, folders, w.found) && source !in failed {
        assert Steady(h, lists, folders, w.found) by {
          QuietIsSteady(h, walks, n => n == source, folders, w.found, lists);
        }
        AllMirror(h, v, lists, source, retention.value, folders, w.found, Able(lists, v.bytes, free), o);
      }
    }
  }

  lemma AllEnter(lists: Lists, passing: set<Node>, source: Node, retention: Option<Path -> bool>)
    requires lists.Keys <= passing && retention.Some?
    ensures Entrants(lists, passing, source, retention) == lists
  {
  }
}
