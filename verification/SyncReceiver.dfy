/** The agent's receiver objects: every sync it is accepting chunks for, updated in place. */
module SyncReceivers {
  import opened Transfer
  import opened Receiver

  /** One sync being received. Its methods compute the transitions of module Receiver. */
  class SyncRecv {
    const root: string
    var skip: Path
    var path: Path
    var tmp: Option<Path>
    var next: nat
    var hashed: Bytes
    var copied: nat
    var skipped: nat
    var errors: nat
    var disk: Folder           // the folder at `root`
    var ledger: seq<Path>      // the file behind each count

    function State(): Site
      reads this
    {
      Site(skip, path, tmp, next, hashed, copied, skipped, errors, disk, ledger)
    }

    constructor (root: string, disk: Folder)
      ensures this.root == root && State() == Idle(disk)
    {
      this.root, this.disk := root, disk;
      skip, path, tmp, next, hashed := "", "", None, 0, [];
      copied, skipped, errors := 0, 0, 0;
      ledger := [];
    }

    /** A receive in the middle of its sync. */
    constructor At(root: string, site: Site)
      ensures this.root == root && State() == site
    {
      this.root, disk := root, site.disk;
      skip, path, tmp, next, hashed := site.skip, site.path, site.tmp, site.next, site.hashed;
      copied, skipped, errors := site.copied, site.skipped, site.errors;
      ledger := site.ledger;
    }

    /** Gives up the open file; `reason` names the file that failed, if one did. */
    method Abort(reason: Option<Path>)
      modifies this
      ensures State() == if reason.Some? then Fail(old(State()), reason.value) else Discard(old(State()))
    {
      if tmp.Some? {
        disk := disk - {PartialName(tmp.value)};
        tmp := None;
      }
      path, next := "", 0;
      if reason.Some? {
        errors := errors + 1;
        ledger := ledger + [reason.value];
      }
    }

    method OpenPartial(dest: Path)
      modifies this
      ensures State() == Open(old(State()), dest)
    {
      disk := disk[PartialName(dest) := []];
      tmp, hashed, next := Some(dest), [], 0;
      path := dest;
    }

    method AppendPartial(data: Bytes)
      requires tmp.Some? && PartialName(tmp.value) in disk
      modifies this
      ensures State() == Append(old(State()), data)
    {
      var name := PartialName(tmp.value);
      disk := disk[name := disk[name] + data];
      hashed := hashed + data;
      next := next + 1;
    }

    /** Renames the partial file into place, or removes it if that fails. */
    method Commit(io: Io)
      requires tmp.Some? && PartialName(tmp.value) in disk
      modifies this
      ensures State() == if io.commits then Install(old(State())) else Discard(old(State()))
    {
      var dest := tmp.value;
      var name := PartialName(dest);
      tmp := None;
      path, next := "", 0;
      if io.commits {
        disk := (disk - {name})[dest := disk[name]];
        copied := copied + 1;
        ledger := ledger + [dest];
      } else {
        disk := disk - {name};
      }
    }

    /** Writes a chunk to the open partial file; the last one is checked and renamed into place. */
    method Write(h: Hash, c: Chunk, io: Io) returns (failed: bool)
      requires tmp.Some? && PartialName(tmp.value) in disk
      modifies this
      ensures (State(), failed) == Written(h, old(State()), c, io)
    {
      if !io.writes {
        return true;
      }
      AppendPartial(c.data);
      if !c.eof {
        return false;
      }
      if h(hashed) != c.sha {
        return true;
      }
      Commit(io);
      failed := !io.commits;
    }

    /** Handles a chunk that isn't skipped. */
    method Accept(h: Hash, c: Chunk, io: Io) returns (failed: bool)
      requires Inv(State()) && (tmp.Some? ==> c.index != 0)
      modifies this
      ensures (State(), failed) == Handle(h, old(State()), c, io)
    {
      if c.gone {
        skipped := skipped + 1;
        ledger := ledger + [c.path];
        return false;
      }
      if c.err != "" || c.index != next || (c.index > 0 && tmp.None?) {
        return true;
      }
      if c.index == 0 {
        if !(LocalPath(c.path) && io.opens) {
          return true;
        }
        OpenPartial(c.path);
      }
      failed := Write(h, c, io);
    }

    /** One chunk; a failure is recorded against its file, whose other chunks are then ignored. */
    method Chunk(h: Hash, c: Chunk, io: Io)
      requires Inv(State())
      modifies this
      ensures State() == Step(h, old(State()), c, io) && Inv(State())
    {
      StepKeepsInv(h, State(), c, io);
      if skip != "" && c.path == skip {
        if c.eof {
          skip := "";
        }
        return;
      }
      FailKeepsInv(State(), path);
      if tmp.Some? && (c.index == 0 || c.path != path) {
        Abort(Some(path));
      }
      var failed := Accept(h, c, io);
      if failed {
        Abort(Some(c.path));
        if !c.eof {
          skip := c.path;
        }
      }
    }
  }

  // ---------------------------------------------------------------- all syncs of an agent

  datatype Receive = Receive(root: string, site: Site)

  type Syncs = map<string, Receive>

  /** What reaches the agent's chunk queue, in arrival order. */
  datatype Message =
    | StartMsg(id: string, root: string, disk: Folder)  // `disk` is the folder as it is then
    | ChunkMsg(id: string, event: Event)
    | FinishMsg(id: string)
    | DisconnectMsg

  ghost predicate Sound(a: Syncs) {
    forall i :: i in a ==> Inv(a[i].site)
  }

  function SameRoot(a: Syncs, root: string): set<string> {
    set i | i in a && a[i].root == root
  }

  function Others(a: Syncs, root: string): Syncs {
    a - SameRoot(a, root)
  }

  function Deliver(h: Hash, a: Syncs, m: Message): (r: Syncs)
    requires Sound(a)
    ensures Sound(r)
  {
    match m
    case StartMsg(id, root, disk) =>
      if id == "" || root == "" then a else Others(a, root)[id := Receive(root, Idle(disk))]
    case ChunkMsg(id, e) =>
      if id !in a then a
      else
        StepKeepsInv(h, a[id].site, e.chunk, e.io);
        a[id := a[id].(site := Step(h, a[id].site, e.chunk, e.io))]
    case FinishMsg(id) => a - {id}
    case DisconnectMsg => map[]
  }

  function DeliverAll(h: Hash, a: Syncs, ms: seq<Message>): (r: Syncs)
    requires Sound(a)
    ensures Sound(r)
    decreases |ms|
  {
    if ms == [] then a else DeliverAll(h, Deliver(h, a, ms[0]), ms[1..])
  }

  /** The chunks of sync `id` among `ms`. */
  function Own(id: string, ms: seq<Message>): seq<Event> {
    if ms == [] then []
    else if ms[0].ChunkMsg? && ms[0].id == id then [ms[0].event] + Own(id, ms[1..])
    else Own(id, ms[1..])
  }

  lemma StillThere(h: Hash, a: Syncs, m: Message, id: string)
    requires Sound(a) && !(m.StartMsg? && m.id == id) && id in Deliver(h, a, m)
    ensures id in a && Inv(a[id].site)
    ensures Deliver(h, a, m)[id] ==
      if m.ChunkMsg? && m.id == id then Receive(a[id].root, Step(h, a[id].site, m.event.chunk, m.event.io)) else a[id]
  {
  }

  /**
   * A sync still known after any traffic (other syncs starting and finishing, their chunks,
   * dropped connections) was never stopped and has handled exactly its own chunks, in order.
   */
  lemma {:induction false} StillReceiving(h: Hash, a: Syncs, ms: seq<Message>, id: string)
    requires Sound(a)
    requires forall k :: 0 <= k < |ms| ==> !(ms[k].StartMsg? && ms[k].id == id)
    requires id in DeliverAll(h, a, ms)
    ensures id in a && Inv(a[id].site)
    ensures DeliverAll(h, a, ms)[id] == Receive(a[id].root, Run(h, a[id].site, Own(id, ms)))
    decreases |ms|
  {
    if ms != [] {
      StillReceiving(h, Deliver(h, a, ms[0]), ms[1..], id);
      StillThere(h, a, ms[0], id);
      if ms[0].ChunkMsg? && ms[0].id == id {
        OwnFirst(id, ms);
      }
    }
  }

  /** A message that stops sync `id` of the folder `root`. */
  predicate Stops(m: Message, id: string, root: string) {
    m.DisconnectMsg? || m == FinishMsg(id) || (m.StartMsg? && m.id != "" && m.root == root)
  }

  /** The messages before the first that stops the sync. */
  function Upto(id: string, root: string, ms: seq<Message>): seq<Message> {
    if ms == [] || Stops(ms[0], id, root) then [] else [ms[0]] + Upto(id, root, ms[1..])
  }

  lemma {:induction false} UptoIsPrefix(id: string, root: string, ms: seq<Message>)
    ensures Upto(id, root, ms) <= ms && Own(id, Upto(id, root, ms)) <= Own(id, ms)
    ensures (forall m :: m in ms ==> !Stops(m, id, root)) ==> Upto(id, root, ms) == ms
  {
    if ms != [] && !Stops(ms[0], id, root) {
      UptoIsPrefix(id, root, ms[1..]);
      assert Upto(id, root, ms)[1..] == Upto(id, root, ms[1..]);
    }
  }

  /** A sync is still known exactly when no message stopped it. */
  lemma {:induction false} KnownUnlessStopped(h: Hash, a: Syncs, ms: seq<Message>, id: string)
    requires Sound(a) && id in a && a[id].root != ""
    requires forall m :: m in ms ==> !(m.StartMsg? && m.id == id)
    ensures id in DeliverAll(h, a, ms) <==> forall m :: m in ms ==> !Stops(m, id, a[id].root)
    decreases |ms|
  {
    if ms != [] {
      var b := Deliver(h, a, ms[0]);
      assert ms[0] in ms && (id in b <==> !Stops(ms[0], id, a[id].root));
      if id in b {
        StillThere(h, a, ms[0], id);
        KnownUnlessStopped(h, b, ms[1..], id);
      } else {
        NeverAgain(h, b, ms[1..], id);
      }
    }
  }

  lemma {:induction false} NeverAgain(h: Hash, a: Syncs, ms: seq<Message>, id: string)
    requires Sound(a) && id !in a && forall m :: m in ms ==> !(m.StartMsg? && m.id == id)
    ensures id !in DeliverAll(h, a, ms)
    decreases |ms|
  {
    if ms != [] {
      assert ms[0] in ms;
      NeverAgain(h, Deliver(h, a, ms[0]), ms[1..], id);
    }
  }

  lemma OwnFirst(id: string, ms: seq<Message>)
    requires ms != [] && ms[0].ChunkMsg? && ms[0].id == id
    ensures Own(id, ms) != [] && Own(id, ms)[0] == ms[0].event && Own(id, ms)[1..] == Own(id, ms[1..])
  {
  }

  /** After StopAll, or the Finish of a sync, none of its partial files is open. */
  lemma DiscardedLeavesNoPartial(s: Site, q: Path)
    requires Inv(s) && OnlyOpenPartial(s, q)
    ensures q !in Discard(s).disk
  {
  }

  /** The syncs of `a` whose folder is `root` and that aren't in `todo` are gone from `b`. */
  ghost predicate KeptOthers(a: Syncs, b: Syncs, root: string, todo: set<string>) {
    && (forall i :: i in b <==> i in a && (i in todo || a[i].root != root))
    && (forall i :: i in b ==> b[i] == a[i])
  }

  lemma KeptOthersStep(a: Syncs, b: Syncs, root: string, todo: set<string>, i: string)
    requires KeptOthers(a, b, root, todo) && i in todo && todo <= b.Keys
    ensures var c := if b[i].root == root then b - {i} else b;
      KeptOthers(a, c, root, todo - {i}) && todo - {i} <= c.Keys
  {
  }

  lemma KeptOthersDone(a: Syncs, b: Syncs, root: string)
    requires KeptOthers(a, b, root, {})
    ensures b == Others(a, root)
  {
    assert forall i :: i in SameRoot(a, root) <==> i in a && a[i].root == root;
  }

  /** The syncs of `a` not in `b` are stopped. */
  ghost predicate StoppedSome(a: Syncs, b: Syncs, stopped: map<string, Site>) {
    && b.Keys <= a.Keys && (forall i :: i in b ==> b[i] == a[i])
    && (forall i :: i in stopped <==> i in a && i !in b)
    && (forall i :: i in stopped ==> stopped[i] == Discard(a[i].site))
  }

  lemma StopOne(a: Syncs, b: Syncs, stopped: map<string, Site>, i: string)
    requires StoppedSome(a, b, stopped) && i in b
    ensures StoppedSome(a, b - {i}, stopped[i := Discard(b[i].site)]) && (b - {i}).Keys == b.Keys - {i}
  {
  }

  /** Every sync of `a` was stopped, its open file discarded. */
  ghost predicate AllStopped(a: Syncs, stopped: map<string, Site>) {
    stopped.Keys == a.Keys && forall i :: i in stopped ==> stopped[i] == Discard(a[i].site)
  }

  lemma StoppedAtEnd(a: Syncs, b: Syncs, stopped: map<string, Site>)
    requires StoppedSome(a, b, stopped) && b.Keys == {}
    ensures b == map[] && AllStopped(a, stopped)
  {
  }

  /** Every sync the agent is receiving, by sync ID; `contents` is what its objects hold. */
  class SyncReceiver {
    var syncs: map<string, SyncRecv>
    ghost var contents: Syncs
    ghost var repr: set<SyncRecv>

    /** The object under `i` holds what `contents` says. */
    ghost predicate Tied(i: string)
      reads this, repr
    {
      i in syncs && i in contents ==>
        syncs[i] in repr && contents[i] == Receive(syncs[i].root, syncs[i].State()) && Inv(contents[i].site)
    }

    /** Different syncs have different objects. */
    ghost predicate Apart(i: string, j: string)
      reads this
    {
      i in syncs && j in syncs && i != j ==> syncs[i] != syncs[j]
    }

    ghost predicate Valid()
      reads this, repr
    {
      && syncs.Keys == contents.Keys && Sound(contents)
      && (forall i :: Tied(i)) && (forall i, j :: Apart(i, j))
    }

    constructor ()
      ensures Valid() && contents == map[] && repr == {}
    {
      syncs, contents, repr := map[], map[], {};
    }

    /** Takes a receive in, in place of any under the same ID. */
    method Put(id: string, s: SyncRecv)
      requires Valid() && s !in repr && Inv(s.State())
      modifies this
      ensures Valid() && repr == old(repr) + {s}
      ensures contents == old(contents)[id := Receive(s.root, s.State())]
    {
      syncs, contents, repr := syncs[id := s], contents[id := Receive(s.root, s.State())], repr + {s};
      forall i
        ensures Tied(i)
      {
        assert old(Tied(i));
      }
      forall i, j
        ensures Apart(i, j)
      {
        assert old(Apart(i, j)) && old(Tied(i)) && old(Tied(j));
      }
    }

    /** Stops a receive: its open file is discarded, and it is forgotten. */
    method Stop(id: string) returns (end: Site)
      requires Valid() && id in contents
      modifies this, repr
      ensures Valid() && contents == old(contents) - {id} && repr == old(repr)
      ensures end == Discard(old(contents)[id].site)
    {
      assert Tied(id);
      var s := syncs[id];
      s.Abort(None);
      end := s.State();
      syncs, contents := syncs - {id}, contents - {id};
      forall i
        ensures Tied(i)
      {
        assert old(Tied(i)) && old(Apart(i, id));
      }
      forall i, j
        ensures Apart(i, j)
      {
        assert old(Apart(i, j));
      }
    }

    method StopSameFolder(root: string)
      requires Valid()
      modifies this, repr
      ensures Valid() && contents == Others(old(contents), root) && repr == old(repr)
    {
      ghost var were := contents;
      var todo := syncs.Keys;
      while todo != {}
        invariant Valid() && repr == old(repr) && todo <= contents.Keys && KeptOthers(were, contents, root, todo)
        decreases |todo|
      {
        var i :| i in todo;
        KeptOthersStep(were, contents, root, todo, i);
        assert Tied(i);
        if syncs[i].root == root {
          var _ := Stop(i);
        }
        todo := todo - {i};
      }
      KeptOthersDone(were, contents, root);
    }

    /** Begins a sync, and stops any other of its folder. */
    method Start(h: Hash, id: string, root: string, disk: Folder) returns (ok: bool)
      requires Valid()
      modifies this, repr
      ensures Valid() && contents == Deliver(h, old(contents), StartMsg(id, root, disk))
      ensures ok == (id != "" && root != "") && fresh(repr - old(repr))
    {
      if id == "" || root == "" {
        return false;
      }
      StopSameFolder(root);
      var s := new SyncRecv(root, disk);
      Put(id, s);
      ok := true;
    }

    /** One chunk, for the object of its sync; false if the sync is unknown. */
    method Chunk(h: Hash, id: string, e: Event) returns (known: bool)
      requires Valid()
      modifies this, repr
      ensures Valid() && contents == Deliver(h, old(contents), ChunkMsg(id, e)) && repr == old(repr)
      ensures known == (id in old(contents))
    {
      known := id in syncs;
      if known {
        assert Tied(id);
        var s := syncs[id];
        s.Chunk(h, e.chunk, e.io);
        contents := contents[id := contents[id].(site := s.State())];
        forall i
          ensures Tied(i)
        {
          assert old(Tied(i)) && old(Apart(i, id));
        }
        forall i, j
          ensures Apart(i, j)
        {
          assert old(Apart(i, j));
        }
      }
    }

    /** Ends sync `id` and reports what arrived; None if it was stopped before (or never known). */
    method FinishSync(h: Hash, id: string, closes: bool) returns (result: Option<Site>)
      requires Valid()
      modifies this, repr
      ensures Valid() && contents == Deliver(h, old(contents), FinishMsg(id)) && repr == old(repr)
      ensures result == if id in old(contents) then Some(Finish(old(contents)[id].site, closes)) else None
    {
      if id !in syncs {
        return None;
      }
      var end := Stop(id);
      result := Some(if closes then end else Fail(end, ""));
    }

    method StopNext(ghost were: Syncs, stopped: map<string, Site>, i: string) returns (more: map<string, Site>)
      requires Valid() && i in contents && StoppedSome(were, contents, stopped)
      modifies this, repr
      ensures Valid() && repr == old(repr) && contents.Keys == old(contents).Keys - {i}
      ensures StoppedSome(were, contents, more)
    {
      StopOne(were, contents, stopped, i);
      var end := Stop(i);
      more := stopped[i := end];
    }

    /** The connection dropped: every sync is stopped, its unfinished file discarded. */
    method StopAll() returns (stopped: map<string, Site>)
      requires Valid()
      modifies this, repr
      ensures Valid() && contents == map[] && repr == old(repr)
      ensures AllStopped(old(contents), stopped)
    {
      ghost var were := contents;
      stopped := map[];
      var todo := syncs.Keys;
      while todo != {}
        invariant Valid() && repr == old(repr) && todo == contents.Keys && StoppedSome(were, contents, stopped)
        decreases |todo|
      {
        var i :| i in todo;
        ghost var left := |todo|;
        todo := todo - {i};
        assert |todo| < left;
        stopped := StopNext(were, stopped, i);
      }
      StoppedAtEnd(were, contents, stopped);
    }
  }

  /** `b` has the syncs of `a` that aren't in `todo`. */
  ghost predicate AllBut(a: Syncs, b: Syncs, todo: set<string>) {
    && todo <= a.Keys && (forall i :: i in b <==> i in a && i !in todo)
    && (forall i :: i in b ==> b[i] == a[i])
  }

  lemma AllButStep(a: Syncs, b: Syncs, todo: set<string>, i: string)
    requires AllBut(a, b, todo) && i in todo
    ensures AllBut(a, b[i := a[i]], todo - {i})
  {
  }

  lemma AllButNone(a: Syncs, b: Syncs)
    requires AllBut(a, b, {})
    ensures a == b
  {
  }

  /** An agent in the middle of receiving these syncs. */
  method AgentWith(contents: Syncs) returns (r: SyncReceiver)
    requires Sound(contents)
    ensures fresh(r) && r.Valid() && r.contents == contents && fresh(r.repr)
  {
    r := new SyncReceiver();
    var todo := contents.Keys;
    while todo != {}
      invariant fresh(r) && fresh(r.repr)
      invariant r.Valid() && AllBut(contents, r.contents, todo)
      decreases |todo|
    {
      var i :| i in todo;
      AllButStep(contents, r.contents, todo, i);
      var s := new SyncRecv.At(contents[i].root, contents[i].site);
      r.Put(i, s);
      todo := todo - {i};
    }
    AllButNone(contents, r.contents);
  }

  /** The agent's chunk queue: messages handled one at a time, in arrival order. */
  method HandleQueue(h: Hash, r: SyncReceiver, ms: seq<Message>)
    requires r.Valid()
    modifies r, r.repr
    ensures r.Valid() && r.contents == DeliverAll(h, old(r.contents), ms) && fresh(r.repr - old(r.repr))
  {
    for i := 0 to |ms|
      invariant r.Valid() && fresh(r.repr - old(r.repr))
      invariant DeliverAll(h, r.contents, ms[i..]) == DeliverAll(h, old(r.contents), ms)
    {
      assert ms[i..][0] == ms[i] && ms[i..][1..] == ms[i + 1..];
      match ms[i] {
        case StartMsg(id, root, disk) => var _ := r.Start(h, id, root, disk);
        case ChunkMsg(id, e) => var _ := r.Chunk(h, id, e);
        case FinishMsg(id) => var _ := r.FinishSync(h, id, true);
        case DisconnectMsg => var _ := r.StopAll();
      }
    }
  }
}
