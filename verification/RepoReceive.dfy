/**
 * A receive into a repository: what it asks of the helper for each chunk, and that the helper
 * then does to the repository what the receive does to a folder of its own.
 */
module RepoReceives {
  import opened Transfer
  import opened Subsequences
  import opened PartialFiles
  import opened RepoHelpers
  import R = Receiver
  import Sender

  // ---------------------------------------------------------------- what a chunk asks for

  /** Discards the open file, if any. */
  function AbortOps(s: R.Site): seq<Op> {
    if s.tmp.Some? then [Abort] else []
  }

  /** Writes a chunk to the open file; the last one completes it if its checksum is right. */
  function WriteOps(h: Hash, hashed: Bytes, c: Chunk): seq<Op> {
    [Write(c.data)] + if !c.eof then [] else if h(hashed + c.data) != c.sha then [Abort] else [Commit]
  }

  /** A path the helper can be told of. */
  predicate Openable(p: Path) {
    LocalPath(p) && '\n' !in p
  }

  function HandleOps(h: Hash, s: R.Site, c: Chunk): seq<Op> {
    if c.gone then []
    else if c.err != "" || c.index != s.next || (c.index > 0 && s.tmp.None?) then AbortOps(s)
    else if c.index > 0 then WriteOps(h, s.hashed, c)
    else if Openable(c.path) then [Open(c.path)] + WriteOps(h, [], c)
    else []
  }

  function ReadyOps(s: R.Site, c: Chunk): seq<Op> {
    if s.tmp.Some? && (c.index == 0 || c.path != s.path) then [Abort] else []
  }

  /** All that one chunk asks for. */
  function ChunkOps(h: Hash, s: R.Site, c: Chunk): seq<Op> {
    if s.skip != "" && c.path == s.skip then [] else ReadyOps(s, c) + HandleOps(h, R.Ready(s, c), c)
  }

  /** Whether the chunk ends by waiting for the helper's reply. */
  predicate Asks(h: Hash, s: R.Site, c: Chunk) {
    var ops := ChunkOps(h, s, c);
    ops != [] && ops[|ops| - 1].Commit?
  }

  /** All that a run of chunks asks for. */
  function RunOps(h: Hash, s: R.Site, es: seq<R.Event>): seq<Op>
    requires R.Inv(s)
    decreases |es|
  {
    if es == [] then []
    else
      R.StepKeepsInv(h, s, es[0].chunk, es[0].io);
      ChunkOps(h, s, es[0].chunk) + RunOps(h, R.Step(h, s, es[0].chunk, es[0].io), es[1..])
  }

  /** The replies a run of chunks got. */
  function Replies(h: Hash, s: R.Site, es: seq<R.Event>): seq<bool>
    requires R.Inv(s)
    decreases |es|
  {
    if es == [] then []
    else
      R.StepKeepsInv(h, s, es[0].chunk, es[0].io);
      (if Asks(h, s, es[0].chunk) then [es[0].io.commits] else [])
      + Replies(h, R.Step(h, s, es[0].chunk, es[0].io), es[1..])
  }

  /** What the receive sees: opening asks nothing, writing into the stream works, completing gets the reply. */
  function Answer(c: Chunk, reply: bool): R.Io {
    R.Io('\n' !in c.path, true, reply)
  }

  /** Every file committed was written to. */
  predicate Written(part: Option<Part>, ops: seq<Op>)
    requires LegalAll(part, ops)
    decreases |ops|
  {
    ops != [] ==> (ops[0].Commit? ==> part.value.writes > 0) && Written(NextPart(part, ops[0]), ops[1..])
  }

  // ---------------------------------------------------------------- operations in turn

  /** `ops` take the helper's work from `r` to `r1`, in order and never completing an unwritten file. */
  ghost predicate Takes(fates: Fates, r: Site, ops: seq<Op>, r1: Site) {
    LegalAll(r.part, ops) && Written(r.part, ops) && ApplyAll(fates, r, ops) == r1
  }

  lemma {:induction false} TakesTwo(fates: Fates, r: Site, a: seq<Op>, m: Site, b: seq<Op>, r1: Site)
    requires Takes(fates, r, a, m) && Takes(fates, m, b, r1)
    ensures Takes(fates, r, a + b, r1)
    decreases |a|
  {
    if a == [] {
      assert a + b == b;
    } else {
      assert (a + b)[0] == a[0] && (a + b)[1..] == a[1..] + b;
      TakesTwo(fates, Apply(fates, r, a[0]), a[1..], m, b, r1);
    }
  }

  lemma TakesOne(fates: Fates, r: Site, op: Op)
    requires Legal(r.part, op) && (op.Commit? ==> r.part.value.writes > 0)
    ensures Takes(fates, r, [op], Apply(fates, r, op))
  {
    assert [op][1..] == [];
  }

  // ---------------------------------------------------------------- one chunk

  /** The part the helper is told of. */
  function OpenPart(s: R.Site): Option<Part> {
    if s.tmp.Some? then Some(Part(s.path, s.hashed, s.next)) else None
  }

  /** The receive, and the repository it is for. */
  ghost predicate Mirrors(s: R.Site, r: Site) {
    && r.part == OpenPart(s) && SameFiles(s.disk, r.disk)
    && (s.tmp.Some? ==> s.path == s.tmp.value && GoodPath(s.path))
    && (s.tmp.Some? ==> PartialName(s.path) in s.disk && s.disk[PartialName(s.path)] == s.hashed)
  }

  lemma AbortMirrors(fates: Fates, s: R.Site, r: Site, p: Path) returns (r1: Site)
    requires Mirrors(s, r)
    ensures Takes(fates, r, AbortOps(s), r1) && Mirrors(R.Fail(s, p), r1) && r1.outcomes == r.outcomes
  {
    r1 := r;
    if s.tmp.Some? {
      TakesOne(fates, r, Abort);
      r1 := Apply(fates, r, Abort);
      forall q | !IsPartial(q)
        ensures SameAt(R.Fail(s, p).disk, r1.disk, q)
      {
        assert SameAt(s.disk, r.disk, q);
      }
    }
  }

  lemma OpenMirrors(fates: Fates, s: R.Site, r: Site, p: Path) returns (r1: Site)
    requires Mirrors(s, r) && s.tmp.None? && GoodPath(p)
    ensures Takes(fates, r, [Open(p)], r1) && Mirrors(R.Open(s, p), r1) && r1.outcomes == r.outcomes
  {
    TakesOne(fates, r, Open(p));
    r1 := Apply(fates, r, Open(p));
    forall q | !IsPartial(q)
      ensures SameAt(R.Open(s, p).disk, r1.disk, q)
    {
      assert SameAt(s.disk, r.disk, q);
    }
  }

  lemma AppendMirrors(fates: Fates, s: R.Site, r: Site, data: Bytes) returns (r1: Site)
    requires Mirrors(s, r) && s.tmp.Some? && |data| <= MAX_WRITE
    ensures Takes(fates, r, [Write(data)], r1) && Mirrors(R.Append(s, data), r1) && r1.outcomes == r.outcomes
  {
    TakesOne(fates, r, Write(data));
    r1 := Apply(fates, r, Write(data));
    forall q | !IsPartial(q)
      ensures SameAt(R.Append(s, data).disk, r1.disk, q)
    {
      assert SameAt(s.disk, r.disk, q);
    }
  }

  lemma CommitMirrors(fates: Fates, s: R.Site, r: Site) returns (r1: Site, reply: bool)
    requires Mirrors(s, r) && s.tmp.Some? && s.next > 0
    ensures Takes(fates, r, [Commit], r1) && r1.outcomes == r.outcomes + [reply]
    ensures Mirrors(if reply then R.Install(s) else R.Discard(s), r1)
  {
    TakesOne(fates, r, Commit);
    r1 := Apply(fates, r, Commit);
    reply := r1.outcomes[|r.outcomes|];
    var t := if reply then R.Install(s) else R.Discard(s);
    forall q | !IsPartial(q)
      ensures SameAt(t.disk, r1.disk, q)
    {
      assert SameAt(s.disk, r.disk, q);
    }
  }

  /** A chunk's data, from the open file on: the state it leads to, a failure included. */
  function Ended(h: Hash, s: R.Site, c: Chunk, io: R.Io): R.Site
    requires s.tmp.Some? && PartialName(s.tmp.value) in s.disk
  {
    var (t, failed) := R.Written(h, s, c, io);
    if failed then R.Fail(t, c.path) else t
  }

  /** The replies to the last of `ops`. */
  function ReplyTo(ops: seq<Op>, reply: bool): seq<bool> {
    if ops != [] && ops[|ops| - 1].Commit? then [reply] else []
  }

  lemma WriteMirrors(h: Hash, fates: Fates, s: R.Site, r: Site, c: Chunk) returns (r1: Site, reply: bool)
    requires Mirrors(s, r) && s.tmp.Some? && |c.data| <= MAX_WRITE
    ensures var ops := WriteOps(h, s.hashed, c);
      Takes(fates, r, ops, r1) && r1.outcomes == r.outcomes + ReplyTo(ops, reply)
    ensures Mirrors(Ended(h, s, c, Answer(c, reply)), r1)
  {
    var w := R.Append(s, c.data);
    var m := AppendMirrors(fates, s, r, c.data);
    reply := false;
    if !c.eof {
      r1 := m;
      assert WriteOps(h, s.hashed, c) == [Write(c.data)];
    } else if h(w.hashed) != c.sha {
      r1 := AbortMirrors(fates, w, m, c.path);
      TakesTwo(fates, r, [Write(c.data)], m, [Abort], r1);
    } else {
      r1, reply := CommitMirrors(fates, w, m);
      TakesTwo(fates, r, [Write(c.data)], m, [Commit], r1);
    }
  }

  /** A chunk that isn't skipped, from the state it is handled in. */
  function Handled(h: Hash, s: R.Site, c: Chunk, io: R.Io): R.Site
    requires R.Inv(s) && (s.tmp.Some? ==> c.index != 0)
  {
    var (t, failed) := R.Handle(h, s, c, io);
    if failed then R.Fail(t, c.path) else t
  }

  lemma HandleMirrors(h: Hash, fates: Fates, s: R.Site, r: Site, c: Chunk) returns (r1: Site, reply: bool)
    requires R.Inv(s) && (s.tmp.Some? ==> c.index != 0) && Mirrors(s, r) && |c.data| <= MAX_WRITE && !IsPartial(c.path)
    ensures var ops := HandleOps(h, s, c); Takes(fates, r, ops, r1) && r1.outcomes == r.outcomes + ReplyTo(ops, reply)
    ensures Mirrors(Handled(h, s, c, Answer(c, reply)), r1)
  {
    r1, reply := r, false;
    if c.gone {
    } else if c.err != "" || c.index != s.next || (c.index > 0 && s.tmp.None?) {
      r1 := AbortMirrors(fates, s, r, c.path);
    } else if c.index > 0 {
      r1, reply := WriteMirrors(h, fates, s, r, c);
    } else if Openable(c.path) {
      var m := OpenMirrors(fates, s, r, c.path);
      r1, reply := WriteMirrors(h, fates, R.Open(s, c.path), m, c);
      TakesTwo(fates, r, [Open(c.path)], m, WriteOps(h, [], c), r1);
    } else {
      r1 := AbortMirrors(fates, s, r, c.path);
    }
  }

  lemma ReadyMirrors(fates: Fates, s: R.Site, r: Site, c: Chunk) returns (m: Site)
    requires R.Inv(s) && Mirrors(s, r)
    ensures Takes(fates, r, ReadyOps(s, c), m) && Mirrors(R.Ready(s, c), m) && m.outcomes == r.outcomes
    ensures R.Inv(R.Ready(s, c)) && (R.Ready(s, c).tmp.Some? ==> c.index != 0)
  {
    R.FailKeepsInv(s, s.path);
    if s.tmp.Some? && (c.index == 0 || c.path != s.path) {
      m := AbortMirrors(fates, s, r, s.path);
    } else {
      m := r;
    }
  }

  lemma ChunkMirrors(h: Hash, fates: Fates, s: R.Site, r: Site, c: Chunk) returns (r1: Site, reply: bool)
    requires R.Inv(s) && Mirrors(s, r) && |c.data| <= MAX_WRITE && !IsPartial(c.path)
    ensures Takes(fates, r, ChunkOps(h, s, c), r1)
    ensures r1.outcomes == r.outcomes + if Asks(h, s, c) then [reply] else []
    ensures Mirrors(R.Step(h, s, c, Answer(c, reply)), r1)
  {
    if s.skip != "" && c.path == s.skip {
      r1, reply := r, false;
    } else {
      var m := ReadyMirrors(fates, s, r, c);
      r1, reply := HandleMirrors(h, fates, R.Ready(s, c), m, c);
      TakesTwo(fates, r, ReadyOps(s, c), m, HandleOps(h, R.Ready(s, c), c), r1);
    }
  }

  // ---------------------------------------------------------------- a whole receive

  predicate Told(c: Chunk) {
    |c.data| <= MAX_WRITE && !IsPartial(c.path)
  }

  /** `es` delivers `cs`, with the helper's replies. */
  predicate Delivers(cs: seq<Chunk>, es: seq<R.Event>) {
    |es| == |cs| && forall i :: 0 <= i < |es| ==> es[i] == R.Event(cs[i], Answer(cs[i], es[i].io.commits))
  }

  lemma FirstOfRun(h: Hash, s: R.Site, e: R.Event, rest: seq<R.Event>)
    requires R.Inv(s) && R.Inv(R.Step(h, s, e.chunk, e.io))
    ensures RunOps(h, s, [e] + rest) == ChunkOps(h, s, e.chunk) + RunOps(h, R.Step(h, s, e.chunk, e.io), rest)
    ensures R.Run(h, s, [e] + rest) == R.Run(h, R.Step(h, s, e.chunk, e.io), rest)
  {
    assert ([e] + rest)[1..] == rest;
  }

  lemma FirstReply(h: Hash, s: R.Site, e: R.Event, rest: seq<R.Event>)
    requires R.Inv(s) && R.Inv(R.Step(h, s, e.chunk, e.io))
    ensures Replies(h, s, [e] + rest)
      == (if Asks(h, s, e.chunk) then [e.io.commits] else []) + Replies(h, R.Step(h, s, e.chunk, e.io), rest)
  {
    assert ([e] + rest)[1..] == rest;
  }

  /** What a run of chunks is: what it asks for, the replies, and the state it ends in. */
  ghost predicate RunIs(h: Hash, s: R.Site, es: seq<R.Event>, ops: seq<Op>, replies: seq<bool>, t: R.Site)
    requires R.Inv(s)
  {
    ops == RunOps(h, s, es) && replies == Replies(h, s, es) && t == R.Run(h, s, es)
  }

  lemma RunFirst(h: Hash, s: R.Site, e: R.Event, rest: seq<R.Event>, ops: seq<Op>, replies: seq<bool>, t: R.Site)
    requires R.Inv(s) && R.Inv(R.Step(h, s, e.chunk, e.io))
    requires RunIs(h, R.Step(h, s, e.chunk, e.io), rest, ops, replies, t)
    ensures RunIs(h, s, [e] + rest, ChunkOps(h, s, e.chunk) + ops,
      (if Asks(h, s, e.chunk) then [e.io.commits] else []) + replies, t)
  {
    FirstOfRun(h, s, e, rest);
    FirstReply(h, s, e, rest);
  }

  lemma InTurn(a: seq<bool>, b: seq<bool>, c: seq<bool>)
    ensures a + b + c == a + (b + c)
  {
  }

  lemma {:induction false} RunMirrors(h: Hash, fates: Fates, s: R.Site, r: Site, cs: seq<Chunk>)
    returns (es: seq<R.Event>, ops: seq<Op>, replies: seq<bool>, t: R.Site, r1: Site)
    requires R.Inv(s) && Mirrors(s, r) && forall i :: 0 <= i < |cs| ==> Told(cs[i])
    ensures Delivers(cs, es) && RunIs(h, s, es, ops, replies, t)
    ensures Takes(fates, r, ops, r1) && Mirrors(t, r1) && r1.outcomes == r.outcomes + replies
    decreases |cs|
  {
    if cs == [] {
      es, ops, replies, t, r1 := [], [], [], s, r;
    } else {
      var c := cs[0];
      var m, reply := ChunkMirrors(h, fates, s, r, c);
      var e := R.Event(c, Answer(c, reply));
      R.StepKeepsInv(h, s, c, e.io);
      var more, after, rest;
      rest, after, more, t, r1 := RunMirrors(h, fates, R.Step(h, s, c, e.io), m, cs[1..]);
      RunFirst(h, s, e, rest, after, more, t);
      TakesTwo(fates, r, ChunkOps(h, s, c), m, after, r1);
      var first := if Asks(h, s, c) then [reply] else [];
      es, ops, replies := [e] + rest, ChunkOps(h, s, c) + after, first + more;
      InTurn(r.outcomes, first, more);
    }
  }

  /** Then the agent would have fared no better writing the files itself (`RepoHelpers.SameAsLocal`). */
  lemma {:induction false} WrittenMeansSame(own: Fates, count: nat, part: Option<Part>, ops: seq<Op>)
    requires LegalAll(part, ops) && Written(part, ops)
    ensures NoBareFile(own, count, part, ops)
    decreases |ops|
  {
    if ops != [] {
      WrittenMeansSame(own, if ops[0].Open? then count + 1 else count, NextPart(part, ops[0]), ops[1..]);
    }
  }

  /** Everything a receive asks of its helper: its chunks' operations, and at the end the open file is given up. */
  function ReceiveOps(h: Hash, disk: Folder, es: seq<R.Event>): seq<Op> {
    RunOps(h, R.Idle(disk), es) + AbortOps(R.Run(h, R.Idle(disk), es))
  }

  /**
   * A receive into a repository is a receive: for any chunks and any failures of the helper's
   * file system there is a run of the receiver in which completing succeeds where the helper
   * says so, and the finished files in the repository are those of that run. What it asks for
   * is in order, and no file is completed without a write.
   */
  lemma RepoReceive(h: Hash, fates: Fates, disk: Folder, cs: seq<Chunk>) returns (es: seq<R.Event>)
    requires OneWord(h) && forall i :: 0 <= i < |cs| ==> Told(cs[i])
    ensures Delivers(cs, es)
    ensures LegalAll(None, ReceiveOps(h, disk, es)) && Written(None, ReceiveOps(h, disk, es))
    ensures var (t, end) := Receive(h, fates, Fresh(disk), PrintAll(h, None, ReceiveOps(h, disk, es)));
      && end == AtEnd && t.replies == Replies(h, R.Idle(disk), es)
      && SameFiles(R.Finish(R.Run(h, R.Idle(disk), es), true).disk, t.disk)
      && (forall q :: IsPartial(q) && q in t.disk ==> q in disk)
  {
    var r, r1 := At(disk), At(disk);
    var ops, replies, s;
    es, ops, replies, s, r1 := RunMirrors(h, fates, R.Idle(disk), r, cs);
    var r2 := AbortMirrors(fates, s, r1, "");
    TakesTwo(fates, r, ops, r1, AbortOps(s), r2);
    HelperRefines(h, fates, disk, ReceiveOps(h, disk, es));
    var t := Receive(h, fates, Fresh(disk), PrintAll(h, None, ReceiveOps(h, disk, es))).0;
    assert SameFiles(R.Finish(s, true).disk, r2.disk);
    SameTurned(t.disk, r2.disk);
    SameTwice(R.Finish(s, true).disk, r2.disk, t.disk);
  }

  lemma SameTurned(a: Folder, b: Folder)
    requires SameFiles(a, b)
    ensures SameFiles(b, a)
  {
    forall q | !IsPartial(q)
      ensures SameAt(b, a, q)
    {
      assert SameAt(a, b, q);
    }
  }

  // ---------------------------------------------------------------- a sync into a repository

  lemma {:induction false} BlocksSmall(h: Hash, path: Path, found: Found, idx: nat, pos: nat)
    requires (found.Contents? || found.Unreadable?) && pos <= |Sender.Readable(found)|
    ensures forall c :: c in Sender.Blocks(h, path, found, idx, pos) ==> |c.data| <= CHUNK_SIZE
    decreases |Sender.Readable(found)| - pos
  {
    if |Sender.Readable(found)| >= pos + CHUNK_SIZE {
      BlocksSmall(h, path, found, idx + 1, pos + CHUNK_SIZE);
    }
  }

  /** Whatever a sync streams, the helper can be told. */
  lemma {:induction false} FlowTold(h: Hash, items: seq<R.Item>)
    requires forall i :: 0 <= i < |items| ==> R.Sendable(items[i])
    ensures forall c :: c in R.Flow(h, items) ==> Told(c)
  {
    if items != [] {
      var found := items[0].found;
      if found.Contents? || found.Unreadable? {
        BlocksSmall(h, items[0].path, found, 0, 0);
      }
      Sender.StreamWellFormed(h, items[0].path, found);
      FlowTold(h, items[1..]);
    }
  }

  /** What a receive's folder shows of `items`. */
  ghost predicate Shows(before: Folder, s: R.Site, after: Folder, items: seq<R.Item>) {
    && R.Good(s) <= |items|
    && (R.Good(s) == |items| ==> forall i :: 0 <= i < |items| ==> R.Arrived(items[i].found, items[i].path, after))
    && (forall q :: q !in R.Paths(items) && !IsPartial(q) ==> SameAt(before, after, q))
  }

  lemma SameThere(before: Folder, s: R.Site, after: Folder, items: seq<R.Item>)
    requires R.Received(R.Idle(before), s, items) && SameFiles(R.Finish(s, true).disk, after)
    requires forall i :: 0 <= i < |items| ==> R.Sendable(items[i])
    ensures Shows(before, s, after, items)
  {
    forall i | 0 <= i < |items| && R.Good(s) == |items|
      ensures R.Arrived(items[i].found, items[i].path, after)
    {
      assert SameAt(R.Finish(s, true).disk, after, items[i].path);
    }
    forall q | q !in R.Paths(items) && !IsPartial(q)
      ensures SameAt(before, after, q)
    {
      assert SameAt(R.Finish(s, true).disk, after, q);
    }
  }

  /**
   * A sync into a repository, end to end: whatever the channel loses and the helper's file
   * system refuses, a full count means that every file arrived in the repository, and no other
   * file of it changed.
   */
  lemma RepoArrives(h: Hash, fates: Fates, disk: Folder, cs: seq<Chunk>, items: seq<R.Item>) returns (es: seq<R.Event>)
    requires OneWord(h) && Distinct(R.Paths(items)) && Sub(cs, R.Flow(h, items))
    requires forall i :: 0 <= i < |items| ==> R.Sendable(items[i])
    ensures Delivers(cs, es) && LegalAll(None, ReceiveOps(h, disk, es))
    ensures var (t, end) := Receive(h, fates, Fresh(disk), PrintAll(h, None, ReceiveOps(h, disk, es)));
      end == AtEnd && t.replies == Replies(h, R.Idle(disk), es) &&
        Shows(disk, R.Run(h, R.Idle(disk), es), t.disk, items)
  {
    FlowTold(h, items);
    forall i | 0 <= i < |cs|
      ensures Told(cs[i])
    {
      SubMember(cs, R.Flow(h, items), cs[i]);
    }
    es := RepoReceive(h, fates, disk, cs);
    assert R.Chunks(es) == cs;
    R.FilesReceived(h, R.Idle(disk), es, items);
    SameThere(disk, R.Run(h, R.Idle(disk), es),
              Receive(h, fates, Fresh(disk), PrintAll(h, None, ReceiveOps(h, disk, es))).0.disk, items);
  }
}
