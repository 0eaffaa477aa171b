/**
 * The receiving side of one sync on an agent: chunks arrive in order, with any of them lost,
 * and files appear under their own name only once complete.
 */
module Receiver {
  import opened Transfer
  import opened Subsequences
  import Sender

  /** How the file system answers while one chunk is handled. */
  datatype Io = Io(opens: bool, writes: bool, commits: bool)

  datatype Event = Event(chunk: Chunk, io: Io)

  /**
   * A receive and the folder it writes to: the file being written, the file being skipped
   * and the result so far. `ledger` names the file behind each count.
   */
  datatype Site = Site(
    skip: Path,          // failed before its end came: its chunks have no effect any more
    path: Path,          // file being written, "" for none
    tmp: Option<Path>,   // destination of the open partial file
    next: nat,           // index of the chunk expected next
    hashed: Bytes,       // what the running checksum has seen
    copied: nat,
    skipped: nat,
    errors: nat,
    disk: Folder,
    ledger: seq<Path>)

  function Idle(disk: Folder): Site {
    Site("", "", None, 0, [], 0, 0, 0, disk, [])
  }

  function Good(s: Site): nat {
    s.copied + s.skipped
  }

  /** Gives up the open file. */
  function Discard(s: Site): Site {
    s.(path := "", tmp := None, next := 0,
       disk := if s.tmp.Some? then s.disk - {PartialName(s.tmp.value)} else s.disk)
  }

  /** Gives up the open file and counts a failure of `p`. */
  function Fail(s: Site, p: Path): Site {
    Discard(s).(errors := s.errors + 1, ledger := s.ledger + [p])
  }

  /** Opens the partial file of chunk 0. */
  function Open(s: Site, p: Path): Site {
    s.(path := p, tmp := Some(p), next := 0, hashed := [], disk := s.disk[PartialName(p) := []])
  }

  /** Appends a chunk's data to the open partial file. */
  function Append(s: Site, data: Bytes): Site
    requires s.tmp.Some? && PartialName(s.tmp.value) in s.disk
  {
    var name := PartialName(s.tmp.value);
    s.(hashed := s.hashed + data, next := s.next + 1, disk := s.disk[name := s.disk[name] + data])
  }

  /** Renames the open partial file into place. */
  function Install(s: Site): Site
    requires s.tmp.Some? && PartialName(s.tmp.value) in s.disk
  {
    var p := s.tmp.value;
    s.(path := "", tmp := None, next := 0, copied := s.copied + 1, ledger := s.ledger + [p],
       disk := (s.disk - {PartialName(p)})[p := s.disk[PartialName(p)]])
  }

  /** The last part of a chunk: its data is written; the last chunk is checked and installed. */
  function Written(h: Hash, s: Site, c: Chunk, io: Io): (Site, bool)
    requires s.tmp.Some? && PartialName(s.tmp.value) in s.disk
  {
    if !io.writes then (s, true)
    else
      var w := Append(s, c.data);
      if !c.eof then (w, false)
      else if h(w.hashed) != c.sha then (w, true)
      else if !io.commits then (Discard(w), true)
      else (Install(w), false)
  }

  /** Handles a chunk that isn't skipped; true means it failed. */
  function Handle(h: Hash, s: Site, c: Chunk, io: Io): (Site, bool)
    requires Inv(s)
    requires s.tmp.Some? ==> c.index != 0
  {
    if c.gone then
      (s.(skipped := s.skipped + 1, ledger := s.ledger + [c.path]), false)
    else if c.err != "" then (s, true)
    else if c.index != s.next || (c.index > 0 && s.tmp.None?) then (s, true)
    else if c.index == 0 && !(LocalPath(c.path) && io.opens) then (s, true)
    else Written(h, if c.index == 0 then Open(s, c.path) else s, c, io)
  }

  /** A chunk of a new file ends the file being written, unfinished. */
  function Ready(s: Site, c: Chunk): Site {
    if s.tmp.Some? && (c.index == 0 || c.path != s.path) then Fail(s, s.path) else s
  }

  /** One chunk. */
  function Step(h: Hash, s: Site, c: Chunk, io: Io): Site
    requires Inv(s)
  {
    if s.skip != "" && c.path == s.skip then
      if c.eof then s.(skip := "") else s
    else
      var (s1, failed) := Handle(h, Ready(s, c), c, io);
      if !failed then s1
      else
        var f := Fail(s1, c.path);
        if c.eof then f else f.(skip := c.path)
  }

  /**
   * Between chunks: no open partial file means nothing is expected; an open one holds
   * exactly the bytes the checksum has seen; every count has its file.
   */
  ghost predicate Inv(s: Site) {
    && (s.tmp.None? ==> s.path == "" && s.next == 0)
    && (s.tmp.Some? ==>
          && s.path == s.tmp.value && s.next > 0
          && PartialName(s.path) in s.disk && s.disk[PartialName(s.path)] == s.hashed)
    && Balanced(s)
  }

  ghost predicate Balanced(s: Site) {
    |s.ledger| == s.copied + s.skipped + s.errors
  }

  lemma FailKeepsInv(s: Site, p: Path)
    requires Balanced(s)
    ensures Inv(Fail(s, p))
  {
  }

  lemma WrittenKeepsInv(h: Hash, s: Site, c: Chunk, io: Io)
    requires Balanced(s) && s.tmp == Some(s.path)
    requires PartialName(s.path) in s.disk && s.disk[PartialName(s.path)] == s.hashed
    ensures var (t, failed) := Written(h, s, c, io); Balanced(t) && (failed || Inv(t))
  {
  }

  lemma HandleKeepsInv(h: Hash, s: Site, c: Chunk, io: Io)
    requires Inv(s)
    requires s.tmp.Some? ==> c.index != 0
    ensures var (t, failed) := Handle(h, s, c, io); Balanced(t) && (failed || Inv(t))
  {
    if c.index == s.next && (c.index > 0 ==> s.tmp.Some?) {
      WrittenKeepsInv(h, if c.index == 0 then Open(s, c.path) else s, c, io);
    }
  }

  lemma StepKeepsInv(h: Hash, s: Site, c: Chunk, io: Io)
    requires Inv(s)
    ensures Inv(Step(h, s, c, io))
  {
    var s0 := Ready(s, c);
    FailKeepsInv(s, s.path);
    HandleKeepsInv(h, s0, c, io);
    FailKeepsInv(Handle(h, s0, c, io).0, c.path);
  }

  /** Chunks handled one after another. */
  function Run(h: Hash, s: Site, es: seq<Event>): (r: Site)
    requires Inv(s)
    ensures Inv(r)
    decreases |es|
  {
    if es == [] then s
    else
      StepKeepsInv(h, s, es[0].chunk, es[0].io);
      Run(h, Step(h, s, es[0].chunk, es[0].io), es[1..])
  }

  function Chunks(es: seq<Event>): seq<Chunk> {
    seq(|es|, i requires 0 <= i < |es| => es[i].chunk)
  }

  lemma ChunksTail(es: seq<Event>)
    requires es != []
    ensures Chunks(es) != [] && Chunks(es)[0] == es[0].chunk && Chunks(es)[1..] == Chunks(es[1..])
  {
  }

  // ---------------------------------------------------------------- one step

  /** `q` became a complete file: what was written plus the data of `c`, as checked by `c`. */
  predicate Completed(h: Hash, s: Site, c: Chunk, t: Site, q: Path) {
    && q in t.disk && t.disk[q] == (if c.index == 0 then [] else s.hashed) + c.data
    && c.eof && h(t.disk[q]) == c.sha && t.copied == s.copied + 1
  }

  lemma HandleAtomic(h: Hash, s: Site, c: Chunk, io: Io, q: Path)
    requires Inv(s) && !IsPartial(q)
    requires s.tmp.Some? ==> c.index != 0 && c.path == s.path
    ensures var (t, failed) := Handle(h, s, c, io);
      SameAt(s.disk, t.disk, q) || (!failed && q == c.path && Completed(h, s, c, t, q))
  {
  }

  /**
   * Atomic replacement: whatever the chunk and the file system do, a file is untouched or
   * becomes, in one step, a complete received file with the checksum its sender gave.
   */
  lemma StepAtomic(h: Hash, s: Site, c: Chunk, io: Io, q: Path)
    requires Inv(s) && !IsPartial(q)
    ensures var t := Step(h, s, c, io);
      SameAt(s.disk, t.disk, q) || (q == c.path && Completed(h, s, c, t, q))
  {
    FailKeepsInv(s, s.path);
    assert SameAt(s.disk, Ready(s, c).disk, q);
    HandleAtomic(h, Ready(s, c), c, io, q);
  }

  /** What a chunk may count: a file completed, or one gone, or failures; nothing else, and no count goes down. */
  lemma StepCounts(h: Hash, s: Site, c: Chunk, io: Io)
    requires Inv(s)
    ensures var t := Step(h, s, c, io);
      && (t.copied == s.copied || (t.copied == s.copied + 1 && Completed(h, s, c, t, c.path) && !c.gone))
      && (t.skipped == s.skipped || (t.skipped == s.skipped + 1 && c.gone)) && t.errors >= s.errors
  {
    FailKeepsInv(s, s.path);
    assert Ready(s, c).copied == s.copied && Ready(s, c).skipped == s.skipped;
  }

  /** Every partial file on disk is the open one. */
  ghost predicate OnlyOpenPartial(s: Site, q: Path) {
    q in s.disk ==> s.tmp.Some? && q == PartialName(s.tmp.value)
  }

  lemma HandleLeavesNoPartial(h: Hash, s: Site, c: Chunk, io: Io, q: Path)
    requires Inv(s) && IsPartial(q) && q != c.path && OnlyOpenPartial(s, q)
    requires s.tmp.Some? ==> c.index != 0 && c.path == s.path
    ensures OnlyOpenPartial(Handle(h, s, c, io).0, q)
  {
  }

  /** No partial file but the open one is ever left behind. */
  lemma StepLeavesNoPartial(h: Hash, s: Site, c: Chunk, io: Io, q: Path)
    requires Inv(s) && IsPartial(q) && q != c.path && OnlyOpenPartial(s, q)
    ensures OnlyOpenPartial(Step(h, s, c, io), q)
  {
    FailKeepsInv(s, s.path);
    HandleLeavesNoPartial(h, Ready(s, c), c, io, q);
  }

  // ---------------------------------------------------------------- one file

  /** The ledger, with the file being written already booked. */
  function Owed(s: Site): seq<Path> {
    s.ledger + if s.tmp.Some? then [s.path] else []
  }

  /** `path` arrived: installed with exactly the bytes its sender streamed, or reported gone. */
  predicate Arrived(found: Found, path: Path, disk: Folder) {
    found.Missing? || (found.Contents? && path in disk && disk[path] == found.data)
  }

  /** `t` follows `s` once no more chunks of `path` count. */
  ghost predicate Closed(s: Site, t: Site, path: Path) {
    && Good(t) == Good(s) && Owed(t) == Owed(s) && t.disk == s.disk
    && (t.skip == s.skip || t.skip == "")
  }

  /** `t` follows `s` in which `path` is booked but may still arrive. */
  ghost predicate Resolved(s: Site, t: Site, path: Path, found: Found) {
    && Owed(t) == Owed(s)
    && (Good(t) == Good(s) || (Good(t) == Good(s) + 1 && Arrived(found, path, t.disk)))
    && (forall q :: q != path && !IsPartial(q) ==> SameAt(s.disk, t.disk, q))
    && (t.skip == s.skip || t.skip == path || t.skip == "")
  }

  /** The file has failed: what is left of it is ignored. */
  lemma {:induction false} RestIgnored(h: Hash, s: Site, es: seq<Event>, path: Path, st: seq<Chunk>, k: nat)
    requires Inv(s) && path != "" && k <= |st| && Sub(Chunks(es), st[k..])
    requires s.skip == path || k == |st|
    requires forall i :: 0 <= i < |st| ==> st[i].path == path && (st[i].eof <==> i == |st| - 1)
    ensures Closed(s, Run(h, s, es), path)
    decreases |st| - k
  {
    if es == [] {
      assert Run(h, s, es) == s;
    } else {
      ChunksTail(es);
      assert st[k..][1..] == st[k + 1..];
      if es[0].chunk == st[k] && Sub(Chunks(es[1..]), st[k + 1..]) {
        RestIgnored(h, Step(h, s, es[0].chunk, es[0].io), es[1..], path, st, k + 1);
      } else {
        RestIgnored(h, s, es, path, st, k + 1);
      }
    }
  }

  /** `path` is open with its first chunks, all of them, written. */
  ghost predicate Writing(s: Site, path: Path, st: seq<Chunk>, k: nat) {
    && Inv(s) && s.tmp == Some(path) && s.skip != path
    && s.next <= k <= |st| && s.hashed == Sender.Joined(st[..s.next])
  }

  /** Handling chunk k of `path` failed, left the file open, or finished it. */
  ghost predicate Outcome(s: Site, t: Site, failed: bool, path: Path, found: Found, st: seq<Chunk>, k: nat)
    requires k < |st|
  {
    if failed then
      Good(t) == Good(s) && t.skip == s.skip && t.ledger == s.ledger
    else if t.tmp.Some? then
      Writing(t, path, st, k + 1) && Good(t) == Good(s) && t.ledger == s.ledger && t.skip == s.skip
    else
      st[k].eof && Good(t) == Good(s) + 1 && t.ledger == s.ledger + [path] && Arrived(found, path, t.disk) &&
        t.skip == s.skip
  }

  /** The state after chunk k of `path`, seen from the state `r` it was handled in. */
  lemma StepOutcome(h: Hash, s: Site, io: Io, path: Path, found: Found, st: seq<Chunk>, k: nat)
    requires path != "" && k < |st| && Inv(s) && s.skip != path
    requires Sender.WellFormed(h, path, found, st)
    requires Inv(Ready(s, st[k])) && (Ready(s, st[k]).tmp.Some? ==> st[k].index != 0)
    requires var (t, failed) := Handle(h, Ready(s, st[k]), st[k], io);
      Outcome(Ready(s, st[k]), t, failed, path, found, st, k)
    ensures var t := Step(h, s, st[k], io);
      && Owed(t) == Ready(s, st[k]).ledger + [path]
      && (Good(t) == Good(s) || (Good(t) == Good(s) + 1 && Arrived(found, path, t.disk)))
      && (t.skip == s.skip || t.skip == path)
      && ((Writing(t, path, st, k + 1) && Good(t) == Good(s)) || (t.tmp.None? && (t.skip == path || k + 1 == |st|)))
  {
  }

  lemma StepSparesOthers(h: Hash, s: Site, c: Chunk, io: Io, path: Path)
    requires Inv(s) && c.path == path
    ensures forall q :: q != path && !IsPartial(q) ==> SameAt(s.disk, Step(h, s, c, io).disk, q)
  {
    forall q | q != path && !IsPartial(q)
      ensures SameAt(s.disk, Step(h, s, c, io).disk, q)
    {
      StepAtomic(h, s, c, io, q);
    }
  }

  /** The next chunk of an open file extends it, completes it or fails it. */
  lemma WritingStep(h: Hash, s: Site, io: Io, path: Path, found: Found, st: seq<Chunk>, k: nat)
    requires path != "" && !IsPartial(path) && Writing(s, path, st, k) && k < |st|
    requires Sender.WellFormed(h, path, found, st)
    ensures var t := Step(h, s, st[k], io);
      && Inv(t) && Resolved(s, t, path, found)
      && ((Writing(t, path, st, k + 1) && Good(t) == Good(s)) || (t.tmp.None? && (t.skip == path || k + 1 == |st|)))
  {
    StepKeepsInv(h, s, st[k], io);
    StepSparesOthers(h, s, st[k], io, path);
    assert Ready(s, st[k]) == s;
    WritingOutcome(h, s, io, path, found, st, k);
    StepOutcome(h, s, io, path, found, st, k);
  }

  lemma WritingOutcome(h: Hash, s: Site, io: Io, path: Path, found: Found, st: seq<Chunk>, k: nat)
    requires path != "" && !IsPartial(path) && Writing(s, path, st, k) && k < |st|
    requires Sender.WellFormed(h, path, found, st)
    ensures var (t, failed) := Handle(h, s, st[k], io); Outcome(s, t, failed, path, found, st, k)
  {
    assert !st[k].gone;
    assert st[..k + 1][..k] == st[..k];
    assert s.next == k ==> s.hashed + st[k].data == Sender.Joined(st[..k + 1]);
    assert k + 1 == |st| ==> st[..k + 1] == st;
  }

  lemma {:induction false} RestWritten(h: Hash, s: Site, es: seq<Event>, path: Path, found: Found, st: seq<Chunk>,
                                       k: nat)
    requires path != "" && !IsPartial(path) && Writing(s, path, st, k)
    requires Sender.WellFormed(h, path, found, st) && Sub(Chunks(es), st[k..])
    ensures Resolved(s, Run(h, s, es), path, found)
    decreases |st| - k
  {
    if es != [] {
      ChunksTail(es);
      assert st[k..][1..] == st[k + 1..];
      if es[0].chunk == st[k] && Sub(Chunks(es[1..]), st[k + 1..]) {
        WritingStep(h, s, es[0].io, path, found, st, k);
        var t := Step(h, s, st[k], es[0].io);
        if t.tmp.None? {
          RestIgnored(h, t, es[1..], path, st, k + 1);
        } else {
          RestWritten(h, t, es[1..], path, found, st, k + 1);
        }
      } else {
        RestWritten(h, s, es, path, found, st, k + 1);
      }
    }
  }

  /** `t` follows `s` after some chunk of `path`, seen for the first time, was handled. */
  ghost predicate Booked(s: Site, t: Site, path: Path, found: Found) {
    && Owed(t) == Owed(s) + [path]
    && (Good(t) == Good(s) || (Good(t) == Good(s) + 1 && Arrived(found, path, t.disk)))
    && (forall q :: q != path && !IsPartial(q) ==> SameAt(s.disk, t.disk, q))
    && (t.skip == s.skip || t.skip == path || t.skip == "")
  }

  lemma {:induction false} FirstOutcome(h: Hash, s: Site, io: Io, path: Path, found: Found, st: seq<Chunk>, k: nat)
    requires path != "" && !IsPartial(path) && k < |st| && Inv(s) && s.tmp.None? && s.skip != path
    requires Sender.WellFormed(h, path, found, st)
    ensures var (t, failed) := Handle(h, s, st[k], io); Outcome(s, t, failed, path, found, st, k)
  {
    HandleKeepsInv(h, s, st[k], io);
    assert st[..1][..0] == [];
    assert Sender.Joined(st[..1]) == [] + st[0].data;
    assert |st| == 1 ==> st[..1] == st;
  }

  /** The first chunk that arrives of a file books it, whatever was being written before. */
  lemma FirstStep(h: Hash, s: Site, io: Io, path: Path, found: Found, st: seq<Chunk>, k: nat)
    requires path != "" && !IsPartial(path) && k < |st| && Inv(s) && s.tmp != Some(path) && s.skip != path
    requires Sender.WellFormed(h, path, found, st)
    ensures var t := Step(h, s, st[k], io);
      && Inv(t) && Booked(s, t, path, found)
      && ((Writing(t, path, st, k + 1) && Good(t) == Good(s)) || (t.tmp.None? && (t.skip == path || k + 1 == |st|)))
  {
    StepKeepsInv(h, s, st[k], io);
    StepSparesOthers(h, s, st[k], io, path);
    FailKeepsInv(s, s.path);
    var r := Ready(s, st[k]);
    assert r.ledger == Owed(s) && Good(r) == Good(s) && r.skip == s.skip;
    FirstOutcome(h, r, io, path, found, st, k);
    StepOutcome(h, s, io, path, found, st, k);
  }

  /**
   * One file through the lossy channel, starting from any state that hasn't met it: the file
   * is booked at most once, counts as good at most once, and counts as good only if it arrived;
   * no other file changes.
   */
  lemma {:induction false} FileReceived(h: Hash, s: Site, es: seq<Event>, path: Path, found: Found, st: seq<Chunk>,
                                        k: nat)
    requires path != "" && !IsPartial(path) && k <= |st| && Inv(s) && s.tmp != Some(path) && s.skip != path
    requires Sender.WellFormed(h, path, found, st) && Sub(Chunks(es), st[k..])
    ensures Run(h, s, es) == s || Booked(s, Run(h, s, es), path, found)
    decreases |st| - k
  {
    if es != [] {
      ChunksTail(es);
      assert st[k..][1..] == st[k + 1..];
      if es[0].chunk == st[k] && Sub(Chunks(es[1..]), st[k + 1..]) {
        FirstStep(h, s, es[0].io, path, found, st, k);
        var t := Step(h, s, st[k], es[0].io);
        if t.tmp.None? {
          RestIgnored(h, t, es[1..], path, st, k + 1);
        } else {
          RestWritten(h, t, es[1..], path, found, st, k + 1);
        }
      } else {
        FileReceived(h, s, es, path, found, st, k + 1);
      }
    }
  }

  // ---------------------------------------------------------------- many files

  /** One file a receiver needs: its path and what its sender found there. */
  datatype Item = Item(path: Path, found: Found)

  predicate Sendable(i: Item) {
    i.path != "" && !IsPartial(i.path) && Sender.Reported(i.found)
  }

  /** Everything sent for `items`, in order. */
  function Flow(h: Hash, items: seq<Item>): seq<Chunk> {
    if items == [] then [] else Sender.Stream(h, items[0].path, items[0].found) + Flow(h, items[1..])
  }

  function Paths(items: seq<Item>): seq<Path> {
    seq(|items|, i requires 0 <= i < |items| => items[i].path)
  }

  lemma {:induction false} RunSplit(h: Hash, s: Site, es: seq<Event>, k: nat)
    requires Inv(s) && k <= |es|
    ensures Run(h, s, es) == Run(h, Run(h, s, es[..k]), es[k..])
    decreases k
  {
    if k == 0 {
      assert es[0..] == es;
    } else {
      StepKeepsInv(h, s, es[0].chunk, es[0].io);
      RunSplit(h, Step(h, s, es[0].chunk, es[0].io), es[1..], k - 1);
      assert es[1..][..k - 1] == es[..k][1..] && es[1..][k - 1..] == es[k..];
    }
  }

  lemma ChunksSplit(es: seq<Event>, k: nat)
    requires k <= |es|
    ensures Chunks(es[..k]) == Chunks(es)[..k] && Chunks(es[k..]) == Chunks(es)[k..]
  {
  }

  /** `s` has not met `p`: it is neither being written nor being skipped. */
  predicate Unmet(s: Site, p: Path) {
    s.tmp != Some(p) && s.skip != p
  }

  /**
   * What any lossy, in-order delivery of `items` does to a receive: files are booked at most
   * once each and in order, the good count grows by at most one per file, a full good count
   * means every file arrived, and no other file changes.
   */
  ghost predicate Received(s: Site, t: Site, items: seq<Item>) {
    && Owed(s) <= Owed(t) && Sub(Owed(t)[|Owed(s)|..], Paths(items))
    && Good(t) <= Good(s) + |items|
    && (Good(t) == Good(s) + |items| ==> forall i :: 0 <= i < |items| ==>
        Arrived(items[i].found, items[i].path, t.disk))
    && (forall q :: q !in Paths(items) && !IsPartial(q) ==> SameAt(s.disk, t.disk, q))
  }

  /** The part of the delivery that belongs to the first file. */
  lemma FirstFile(h: Hash, s: Site, es: seq<Event>, items: seq<Item>) returns (k: nat)
    requires Inv(s) && items != [] && Sub(Chunks(es), Flow(h, items)) && Sendable(items[0]) && Unmet(s, items[0].path)
    ensures k <= |es| && Sub(Chunks(es[k..]), Flow(h, items[1..]))
    ensures var m := Run(h, s, es[..k]);
      Run(h, s, es) == Run(h, m, es[k..]) && (m == s || Booked(s, m, items[0].path, items[0].found))
  {
    var st := Sender.Stream(h, items[0].path, items[0].found);
    k := SubSplit(Chunks(es), st, Flow(h, items[1..]));
    ChunksSplit(es, k);
    RunSplit(h, s, es, k);
    Sender.StreamWellFormed(h, items[0].path, items[0].found);
    assert st[0..] == st;
    FileReceived(h, s, es[..k], items[0].path, items[0].found, st, 0);
  }

  lemma {:induction false} FilesReceived(h: Hash, s: Site, es: seq<Event>, items: seq<Item>)
    requires Inv(s) && Distinct(Paths(items)) && Sub(Chunks(es), Flow(h, items))
    requires forall i :: 0 <= i < |items| ==> Sendable(items[i]) && Unmet(s, items[i].path)
    ensures Received(s, Run(h, s, es), items)
    decreases |items|
  {
    if items == [] {
      assert es == [];
    } else {
      var k := FirstFile(h, s, es, items);
      var m := Run(h, s, es[..k]);
      assert Paths(items)[1..] == Paths(items[1..]);
      OthersUnmet(s, m, items);
      FilesReceived(h, m, es[k..], items[1..]);
      FirstThenRest(s, m, Run(h, m, es[k..]), items);
    }
  }

  lemma OthersUnmet(s: Site, m: Site, items: seq<Item>)
    requires items != [] && Distinct(Paths(items)) && Inv(s)
    requires forall i :: 0 <= i < |items| ==> Sendable(items[i]) && Unmet(s, items[i].path)
    requires m == s || (Inv(m) && Booked(s, m, items[0].path, items[0].found))
    ensures forall i :: 0 <= i < |items[1..]| ==> Sendable(items[1..][i]) && Unmet(m, items[1..][i].path)
  {
    forall i | 0 <= i < |items[1..]|
      ensures Sendable(items[1..][i]) && Unmet(m, items[1..][i].path)
    {
      assert items[1..][i] == items[i + 1];
      assert Paths(items)[i + 1] != Paths(items)[0];
      if m != s && m.tmp.Some? {
        assert Owed(m)[|Owed(m)| - 1] == m.path == items[0].path;
      }
    }
  }

  lemma FirstThenRest(s: Site, m: Site, t: Site, items: seq<Item>)
    requires items != [] && Distinct(Paths(items)) && Sendable(items[0])
    requires m == s || Booked(s, m, items[0].path, items[0].found)
    requires Received(m, t, items[1..])
    ensures Received(s, t, items)
  {
    var ps, p := Paths(items), items[0].path;
    assert ps[1..] == Paths(items[1..]) && ps[0] == p;
    assert p !in ps[1..];
    assert SameAt(m.disk, t.disk, p);
    var more := Owed(t)[|Owed(m)|..];
    if m == s {
      assert Sub(more, ps);
    } else {
      assert Owed(t)[|Owed(s)|..] == [p] + more;
      assert ([p] + more)[1..] == more;
    }
    if Good(t) == Good(s) + |items| {
      forall i | 0 <= i < |items|
        ensures Arrived(items[i].found, items[i].path, t.disk)
      {
        if i > 0 {
          assert items[i] == items[1..][i - 1];
        }
      }
    }
  }

  /** Closing a receive: an unfinished file is discarded; a helper that failed is an error. */
  function Finish(s: Site, closes: bool): Site {
    if closes then Discard(s) else Fail(Discard(s), "")
  }

  /**
   * Receiver accounting: in one sync of distinct files, whatever is lost, each file adds at
   * most one in total to Copied, Skipped and Errors.
   */
  lemma {:induction false} EachFileCountsOnce(h: Hash, disk: Folder, es: seq<Event>, items: seq<Item>)
    requires Distinct(Paths(items)) && Sub(Chunks(es), Flow(h, items))
    requires forall i :: 0 <= i < |items| ==> Sendable(items[i])
    ensures var t := Finish(Run(h, Idle(disk), es), true);
      && Distinct(t.ledger) && (forall p :: p in t.ledger ==> p in Paths(items))
      && t.copied + t.skipped + t.errors == |t.ledger| <= |items|
  {
    var s := Idle(disk);
    FilesReceived(h, s, es, items);
    var t := Run(h, s, es);
    assert Owed(t)[|Owed(s)|..] == Owed(t);
    SubDistinct(Owed(t), Paths(items));
    SubLength(Owed(t), Paths(items));
    assert t.ledger == Owed(t)[..|t.ledger|];
    forall p | p in t.ledger
      ensures p in Paths(items)
    {
      SubMember(Owed(t), Paths(items), p);
    }
  }
}
