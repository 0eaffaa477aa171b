/**
 * The helper that writes a repository's files as its owner: what the agent streams to it, how
 * it reads that stream, and that files end up as if the agent had written them itself.
 */
module RepoHelpers {
  import opened Transfer
  import opened Parsing
  import opened PartialFiles
  import WalFiles

  // ---------------------------------------------------------------- bytes as text

  /** Bytes on the stream, one character each. */
  function Encode(data: Bytes): string {
    seq(|data|, i requires 0 <= i < |data| => (data[i] as int) as char)
  }

  function Decode(s: string): Bytes {
    seq(|s|, i requires 0 <= i < |s| => ((s[i] as int) % 256) as byte)
  }

  lemma DecodeEncode(data: Bytes)
    ensures |Encode(data)| == |data| && Decode(Encode(data)) == data
  {
  }

  // ---------------------------------------------------------------- the helper

  /**
   * The helper between two commands; `failed` is set once the current file can't be written,
   * `hashing` once any file was begun.
   */
  datatype Helper = Helper(cur: Path, file: Option<Path>, failed: bool, hashing: bool, hashed: Bytes, writes: nat,
                           started: nat, disk: Folder, replies: seq<bool>)

  /** An open file has its partial file on disk, which holds what the checksum has seen. */
  predicate Sane(s: Helper) {
    && (s.file.Some? ==> s.file.value == s.cur && PartialName(s.cur) in s.disk && s.started > 0)
    && (s.file.Some? && !s.failed ==> s.disk[PartialName(s.cur)] == s.hashed)
  }

  /** Gives the current file up. */
  function Discard(s: Helper): (r: Helper)
    ensures Sane(r)
  {
    s.(cur := "", file := None, failed := false,
       disk := if s.file.Some? then s.disk - {PartialName(s.file.value)} else s.disk)
  }

  /** Data for another file: the current one is given up, and that one's partial file created. */
  function Select(fates: Fates, s: Helper, rel: Path): (r: Helper)
    requires Sane(s)
    ensures Sane(r)
  {
    if rel == s.cur then s
    else
      var d := Discard(s);
      if LocalPath(rel) && fates(d.started).opens then
        d.(cur := rel, file := Some(rel), hashing := true, hashed := [], writes := 0, started := d.started + 1,
           disk := d.disk[PartialName(rel) := []])
      else d.(cur := rel, failed := true, hashing := d.hashing || LocalPath(rel), started := d.started + 1)
  }

  /** Data written to the current file. */
  function Append(fates: Fates, s: Helper, data: Bytes): (r: Helper)
    requires Sane(s)
    ensures Sane(r)
  {
    if s.failed then s
    else if s.file.None? then s.(failed := true)
    else if fates(s.started - 1).fails == Some(s.writes) then s.(failed := true, hashed := s.hashed + data)
    else
      var name := PartialName(s.cur);
      s.(hashed := s.hashed + data, writes := s.writes + 1, disk := s.disk[name := s.disk[name] + data])
  }

  /** Completes a file, if it is the current one and all went well. */
  function Complete(h: Hash, fates: Fates, s: Helper, sum: string, rel: Path): (r: Helper)
    requires Sane(s)
    ensures Sane(r)
  {
    var ok := rel == s.cur && !s.failed && s.file.Some? && h(s.hashed) == sum && fates(s.started - 1).commits;
    if !ok then Discard(s).(replies := s.replies + [false])
    else
      var name := PartialName(rel);
      Discard(s).(disk := (s.disk - {name})[rel := s.disk[name]], replies := s.replies + [true])
  }

  /** How reading the stream ended. */
  datatype End = AtEnd | BadInput | Crashed

  /** What one command makes of the helper and the stream. */
  datatype Turn = Going(s: Helper, rest: string) | Over(s: Helper, end: End)

  /** One command: its name, the rest of its line, and the stream after it. */
  function Command(h: Hash, fates: Fates, s: Helper, op: string, arg: string, rest: string): (r: Turn)
    requires Sane(s)
    ensures Sane(r.s) && (r.Going? ==> |r.rest| <= |rest|)
  {
    if op == "d" then
      var (size, rel) := Cut(arg, ' ');
      var n := ParseInt(size);
      if n.None? then Over(Discard(s), BadInput)
      else
        var t := Select(fates, s, rel);
        if n.value < 0 || n.value > MAX_WRITE || |rest| < n.value then Over(Discard(t), BadInput)
        else if !t.failed && t.file.None? && !t.hashing then Over(t, Crashed)
        else Going(Append(fates, t, Decode(rest[..n.value])), rest[n.value..])
    else if op == "e" then
      var (sum, rel) := Cut(arg, ' ');
      if rel == s.cur && !s.failed && s.file.None? && !s.hashing then Over(s, Crashed)
      else Going(Complete(h, fates, s, sum, rel), rest)
    else if op == "a" then Going(Discard(s), rest)
    else Over(Discard(s), BadInput)
  }

  /** The rest of the stream, from the state `s`. */
  function Receive(h: Hash, fates: Fates, s: Helper, input: string): (Helper, End)
    requires Sane(s)
    decreases |input|
  {
    var line := WalFiles.Before(input, '\n');
    if input == "" then (Discard(s), AtEnd)
    else if |line| == |input| then (Discard(s), BadInput)
    else
      var (op, arg) := Cut(line, ' ');
      match Command(h, fates, s, op, arg, input[|line| + 1..])
      case Going(t, rest) => Receive(h, fates, t, rest)
      case Over(t, end) => (t, end)
  }

  /** The helper's loop. */
  method RepoReceive(h: Hash, fates: Fates, disk: Folder, input: string) returns (s: Helper, end: End)
    ensures (s, end) == Receive(h, fates, Fresh(disk), input)
  {
    s := Fresh(disk);
    var left := input;
    while left != ""
      invariant Sane(s) && Receive(h, fates, s, left) == Receive(h, fates, Fresh(disk), input)
      decreases |left|
    {
      var line := WalFiles.Before(left, '\n');
      if |line| == |left| {
        return Discard(s), BadInput;
      }
      var rest := left[|line| + 1..];
      var (op, arg) := Cut(line, ' ');
      if op == "d" {
        var (size, rel) := Cut(arg, ' ');
        var n := ParseInt(size);
        if n.None? {
          return Discard(s), BadInput;
        }
        var t := Select(fates, s, rel);
        if n.value < 0 || n.value > MAX_WRITE || |rest| < n.value {
          return Discard(t), BadInput;
        }
        if !t.failed && t.file.None? && !t.hashing {
          return t, Crashed;
        }
        s, left := Append(fates, t, Decode(rest[..n.value])), rest[n.value..];
      } else if op == "e" {
        var (sum, rel) := Cut(arg, ' ');
        if rel == s.cur && !s.failed && s.file.None? && !s.hashing {
          return s, Crashed;
        }
        s, left := Complete(h, fates, s, sum, rel), rest;
      } else if op == "a" {
        s, left := Discard(s), rest;
      } else {
        return Discard(s), BadInput;
      }
    }
    return Discard(s), AtEnd;
  }

  function Fresh(disk: Folder): (r: Helper)
    ensures Sane(r)
  {
    Helper("", None, false, false, [], 0, 0, disk, [])
  }

  // ---------------------------------------------------------------- the agent's end

  function Words(a: string, b: string): string {
    a + " " + b
  }

  function Line(op: string, arg: string): string {
    Words(op, arg) + "\n"
  }

  /** What an operation puts on the stream. Opening puts nothing there. */
  function Printed(h: Hash, part: Option<Part>, op: Op): string
    requires Legal(part, op)
  {
    match op
    case Open(_) => ""
    case Write(data) => Line("d", Words(Digits(|data|), part.value.rel)) + Encode(data)
    case Commit => Line("e", Words(h(part.value.data), part.value.rel))
    case Abort => Line("a", part.value.rel)
  }

  /** Everything the agent streams. */
  function PrintAll(h: Hash, part: Option<Part>, ops: seq<Op>): string
    requires LegalAll(part, ops)
    decreases |ops|
  {
    if ops == [] then "" else Printed(h, part, ops[0]) + PrintAll(h, NextPart(part, ops[0]), ops[1..])
  }

  /** The pipe to the helper. */
  class Pipe {
    var text: string

    constructor ()
      ensures text == ""
    {
      text := "";
    }
  }

  /** A file being received into a repository: its data goes down the pipe as it comes. */
  class RepoPartial {
    const pipe: Pipe
    const rel: Path
    var hashed: Bytes
    ghost var writes: nat

    ghost function View(): Option<Part>
      reads this
    {
      Some(Part(rel, hashed, writes))
    }

    constructor (pipe: Pipe, rel: Path)
      requires GoodPath(rel)
      ensures this.pipe == pipe && View() == NextPart(None, Open(rel))
    {
      this.pipe, this.rel, hashed, writes := pipe, rel, [], 0;
    }

    method Write(h: Hash, data: Bytes)
      requires |data| <= MAX_WRITE
      modifies this, pipe
      ensures pipe.text == old(pipe.text) + Printed(h, old(View()), Op.Write(data))
      ensures View() == NextPart(old(View()), Op.Write(data))
    {
      hashed, writes := hashed + data, writes + 1;
      var head := "d" + " " + (Digits(|data|) + " " + rel) + "\n";
      pipe.text := pipe.text + (head + Encode(data));
    }

    method Commit(h: Hash)
      modifies pipe
      ensures pipe.text == old(pipe.text) + Printed(h, old(View()), Op.Commit)
    {
      pipe.text := pipe.text + ("e" + " " + (h(hashed) + " " + rel) + "\n");
    }

    method Abort(h: Hash)
      modifies pipe
      ensures pipe.text == old(pipe.text) + Printed(h, old(View()), Op.Abort)
    {
      pipe.text := pipe.text + ("a" + " " + rel + "\n");
    }
  }

  // ---------------------------------------------------------------- what the helper is to do

  /** Finished files, the file being written, and the reply to each commit; `started` counts the files written to. */
  datatype Site = Site(disk: Folder, part: Option<Part>, failed: bool, started: nat, outcomes: seq<bool>)

  /** The file fails at its creation, which comes with its first write, or at this write. */
  predicate WriteFails(fate: Fate, writes: nat) {
    (writes == 0 && !fate.opens) || fate.fails == Some(writes)
  }

  /** One operation: a failed write, or none at all, fails the file's commit. */
  function Apply(fates: Fates, s: Site, op: Op): Site
    requires Legal(s.part, op)
  {
    var t := s.(part := NextPart(s.part, op));
    match op
    case Open(_) => t.(failed := false)
    case Write(_) =>
      var w := s.part.value.writes;
      var k := if w == 0 || s.started == 0 then s.started else s.started - 1;
      t.(started := k + 1, failed := s.failed || WriteFails(fates(k), w))
    case Commit =>
      var p := s.part.value;
      var ok := p.writes > 0 && !s.failed && s.started > 0 && fates(s.started - 1).commits;
      t.(outcomes := s.outcomes + [ok], disk := if ok then s.disk[p.rel := p.data] else s.disk)
    case Abort => t
  }

  function ApplyAll(fates: Fates, s: Site, ops: seq<Op>): Site
    requires LegalAll(s.part, ops)
    decreases |ops|
  {
    if ops == [] then s else ApplyAll(fates, Apply(fates, s, ops[0]), ops[1..])
  }

  /** A checksum prints as one word. */
  ghost predicate OneWord(h: Hash) {
    forall b :: ' ' !in h(b) && '\n' !in h(b)
  }

  // ---------------------------------------------------------------- the helper follows

  /** The helper's state after the stream so far. */
  ghost predicate Follows(t: Helper, s: Site, was: Folder) {
    && Sane(t) && OnlyOpen(t, was) && t.replies == s.outcomes && t.started == s.started
    && (forall q :: !IsPartial(q) ==> SameAt(t.disk, s.disk, q))
    && match s.part
       case None => Between(t)
       case Some(p) => GoodPath(p.rel) && if p.writes == 0 then Between(t) && !s.failed && p.data == []
         else Writing(t, p, s.failed)
  }

  /** No partial file was added to `was` but the open one. */
  ghost predicate OnlyOpen(t: Helper, was: Folder) {
    forall q :: IsPartial(q) && q in t.disk && q !in was ==> t.file.Some? && q == PartialName(t.file.value)
  }

  /** No file is current. */
  predicate Between(t: Helper) {
    t.cur == "" && t.file.None? && !t.failed
  }

  predicate Writing(t: Helper, p: Part, failed: bool) {
    && t.cur == p.rel && t.started > 0 && t.failed == failed
    && (!failed ==> t.file.Some? && t.hashed == p.data && t.writes == p.writes)
  }

  lemma LocalPathNotEmpty(rel: Path)
    requires LocalPath(rel)
    ensures rel != ""
  {
  }

  /** The helper reads a line as the command and argument it was made of. */
  lemma ReadsLine(h: Hash, fates: Fates, t: Helper, op: string, arg: string, rest: string)
    requires Sane(t) && ' ' !in op && '\n' !in op && '\n' !in arg
    ensures var turn := Command(h, fates, t, op, arg, rest);
      Receive(h, fates, t, Line(op, arg) + rest) == if turn.Going? then Receive(h, fates, turn.s, turn.rest)
        else (turn.s, turn.end)
  {
    var line := Words(op, arg);
    var input := Line(op, arg) + rest;
    assert input == line + ['\n'] + rest && '\n' !in line;
    BeforeAt(line, '\n', rest);
    assert input[|line| + 1..] == rest;
    CutWords(op, arg);
  }

  lemma CutWords(a: string, b: string)
    requires ' ' !in a
    ensures Cut(Words(a, b), ' ') == (a, b)
  {
    assert Words(a, b) == a + [' '] + b;
    CutAt(a, ' ', b);
  }

  /** Writing: the helper gets exactly the data, for the right file. */
  lemma ReadsWrite(h: Hash, fates: Fates, t: Helper, rel: Path, data: Bytes, more: string)
    requires Sane(t) && (rel == t.cur ==> t.failed || t.file.Some?) && |data| <= MAX_WRITE && '\n' !in rel
    ensures Receive(h, fates, t, Line("d", Words(Digits(|data|), rel)) + Encode(data) + more)
      == Receive(h, fates, Append(fates, Select(fates, t, rel), data), more)
  {
    var head, arg, rest := Line("d", Words(Digits(|data|), rel)), Words(Digits(|data|), rel), Encode(data) + more;
    assert head + Encode(data) + more == head + rest;
    ReadsLine(h, fates, t, "d", arg, rest);
    CutWords(Digits(|data|), rel);
    ParseDigits(|data|);
    DecodeEncode(data);
    assert rest[..|data|] == Encode(data) && rest[|data|..] == more;
    SelectReady(fates, t, rel);
  }

  lemma SelectReady(fates: Fates, t: Helper, rel: Path)
    requires Sane(t) && (rel == t.cur ==> t.failed || t.file.Some?)
    ensures Select(fates, t, rel).failed || Select(fates, t, rel).file.Some?
  {
  }

  lemma ReadsCommit(h: Hash, fates: Fates, t: Helper, rel: Path, sum: string, more: string)
    requires Sane(t) && ' ' !in sum && '\n' !in sum && '\n' !in rel && (rel == t.cur ==> t.failed || t.file.Some?)
    ensures Receive(h, fates, t, Line("e", Words(sum, rel)) + more) ==
      Receive(h, fates, Complete(h, fates, t, sum, rel), more)
  {
    ReadsLine(h, fates, t, "e", Words(sum, rel), more);
    CutWords(sum, rel);
  }

  // ---------------------------------------------------------------- one operation

  /** The file to write to is selected; the first write begins it. */
  ghost predicate Selected(fates: Fates, u: Helper, s: Site, was: Folder)
    requires s.part.Some?
  {
    var p := s.part.value;
    && Sane(u) && OnlyOpen(u, was) && u.replies == s.outcomes
    && (forall q :: !IsPartial(q) ==> SameAt(u.disk, s.disk, q))
    && (p.writes == 0 ==> u.started == s.started + 1 && u.failed == !fates(s.started).opens)
    && (p.writes > 0 ==> u.started == s.started > 0 && u.failed == s.failed)
    && u.cur == p.rel && (!u.failed ==> u.file.Some? && u.hashed == p.data && u.writes == p.writes)
  }

  lemma SelectFollows(fates: Fates, t: Helper, s: Site, was: Folder)
    requires Follows(t, s, was) && s.part.Some?
    ensures Selected(fates, Select(fates, t, s.part.value.rel), s, was) && GoodPath(s.part.value.rel)
    ensures s.part.value.writes == 0 ==> !s.failed
  {
  }

  lemma AppendFollows(fates: Fates, u: Helper, s: Site, was: Folder, data: Bytes)
    requires s.part.Some? && Selected(fates, u, s, was) && GoodPath(s.part.value.rel) && |data| <= MAX_WRITE
    requires s.part.value.writes == 0 ==> !s.failed
    ensures Follows(Append(fates, u, data), Apply(fates, s, Write(data)), was)
  {
    var t := Append(fates, u, data);
    forall q | !IsPartial(q)
      ensures SameAt(t.disk, s.disk, q)
    {
      assert SameAt(u.disk, s.disk, q);
    }
  }

  lemma CommitFollows(h: Hash, fates: Fates, t: Helper, s: Site, was: Folder)
    requires Follows(t, s, was) && Legal(s.part, Commit)
    ensures Follows(Complete(h, fates, t, h(s.part.value.data), s.part.value.rel), Apply(fates, s, Commit), was)
  {
    var u, v := Complete(h, fates, t, h(s.part.value.data), s.part.value.rel), Apply(fates, s, Commit);
    forall q | !IsPartial(q)
      ensures SameAt(u.disk, v.disk, q)
    {
      assert SameAt(t.disk, s.disk, q);
    }
  }

  lemma AbortFollows(fates: Fates, t: Helper, s: Site, was: Folder)
    requires Follows(t, s, was) && Legal(s.part, Abort)
    ensures Follows(Discard(t), Apply(fates, s, Abort), was)
  {
  }

  /** The helper reads what an operation printed, and follows it. */
  ghost predicate Steps(h: Hash, fates: Fates, t: Helper, s: Site, was: Folder, op: Op, more: string, u: Helper)
    requires Sane(t) && Legal(s.part, op)
  {
    Follows(u, Apply(fates, s, op), was) &&
      Receive(h, fates, t, Printed(h, s.part, op) + more) == Receive(h, fates, u, more)
  }

  lemma StepWrite(h: Hash, fates: Fates, t: Helper, s: Site, was: Folder, data: Bytes, more: string)
    requires Follows(t, s, was) && Legal(s.part, Write(data))
    ensures Steps(h, fates, t, s, was, Write(data), more, Append(fates, Select(fates, t, s.part.value.rel), data))
  {
    var rel := s.part.value.rel;
    SelectFollows(fates, t, s, was);
    AppendFollows(fates, Select(fates, t, rel), s, was, data);
    ReadsWrite(h, fates, t, rel, data, more);
  }

  lemma StepCommit(h: Hash, fates: Fates, t: Helper, s: Site, was: Folder, more: string)
    requires OneWord(h) && Follows(t, s, was) && Legal(s.part, Commit)
    ensures Steps(h, fates, t, s, was, Commit, more, Complete(h, fates, t, h(s.part.value.data), s.part.value.rel))
  {
    CommitFollows(h, fates, t, s, was);
    LocalPathNotEmpty(s.part.value.rel);
    ReadsCommit(h, fates, t, s.part.value.rel, h(s.part.value.data), more);
  }

  lemma StepAbort(h: Hash, fates: Fates, t: Helper, s: Site, was: Folder, more: string)
    requires Follows(t, s, was) && Legal(s.part, Abort)
    ensures Steps(h, fates, t, s, was, Abort, more, Discard(t))
  {
    AbortFollows(fates, t, s, was);
    ReadsLine(h, fates, t, "a", s.part.value.rel, more);
  }

  lemma StepFollows(h: Hash, fates: Fates, t: Helper, s: Site, was: Folder, op: Op, more: string) returns (u: Helper)
    requires OneWord(h) && Follows(t, s, was) && Legal(s.part, op)
    ensures Steps(h, fates, t, s, was, op, more, u)
  {
    match op
    case Open(rel) =>
      u := t;
      LocalPathNotEmpty(rel);
      assert "" + more == more;
    case Write(data) =>
      StepWrite(h, fates, t, s, was, data, more);
      u := Append(fates, Select(fates, t, s.part.value.rel), data);
    case Commit =>
      StepCommit(h, fates, t, s, was, more);
      u := Complete(h, fates, t, h(s.part.value.data), s.part.value.rel);
    case Abort =>
      StepAbort(h, fates, t, s, was, more);
      u := Discard(t);
  }

  lemma {:induction false} AllFollows(h: Hash, fates: Fates, t: Helper, s: Site, was: Folder, ops: seq<Op>)
    returns (u: Helper)
    requires OneWord(h) && Follows(t, s, was) && LegalAll(s.part, ops)
    ensures Follows(u, ApplyAll(fates, s, ops), was)
    ensures Receive(h, fates, t, PrintAll(h, s.part, ops)) == (Discard(u), AtEnd)
    decreases |ops|
  {
    if ops == [] {
      u := t;
    } else {
      var more := PrintAll(h, NextPart(s.part, ops[0]), ops[1..]);
      u := StepFollows(h, fates, t, s, was, ops[0], more);
      u := AllFollows(h, fates, u, Apply(fates, s, ops[0]), was, ops[1..]);
    }
  }

  // ---------------------------------------------------------------- the results

  /** The start: these finished files, nothing open. */
  function At(disk: Folder): Site {
    Site(disk, None, false, 0, [])
  }

  /**
   * The stream loses nothing: for all operations, whatever the bytes, whatever the file
   * system does, the helper ends with the replies and the finished files of partial files
   * written directly, and leaves no partial file of its own.
   */
  lemma HelperRefines(h: Hash, fates: Fates, disk: Folder, ops: seq<Op>)
    requires OneWord(h) && LegalAll(None, ops)
    ensures var (t, end) := Receive(h, fates, Fresh(disk), PrintAll(h, None, ops));
      var s := ApplyAll(fates, At(disk), ops);
      && end == AtEnd && t.replies == s.outcomes && (forall q :: !IsPartial(q) ==> SameAt(t.disk, s.disk, q))
      && (forall q :: IsPartial(q) && q in t.disk ==> q in disk)
  {
    var u := AllFollows(h, fates, Fresh(disk), At(disk), disk, ops);
    EndFollows(u, ApplyAll(fates, At(disk), ops), disk);
  }

  /** At the end of the stream the open file is given up. */
  lemma EndFollows(u: Helper, s: Site, was: Folder)
    requires Follows(u, s, was)
    ensures Discard(u).replies == s.outcomes && forall q :: !IsPartial(q) ==> SameAt(Discard(u).disk, s.disk, q)
    ensures forall q :: IsPartial(q) && q in Discard(u).disk ==> q in was
  {
    forall q | !IsPartial(q)
      ensures SameAt(Discard(u).disk, s.disk, q)
    {
      assert SameAt(u.disk, s.disk, q);
    }
  }

  // ---------------------------------------------------------------- against files the agent writes itself

  /** How the file system treats the files the helper begins: those written to, of the files opened. */
  function Begun(fates: Fates, count: nat, part: Option<Part>, ops: seq<Op>): seq<Fate>
    requires LegalAll(part, ops)
    decreases |ops|
  {
    if ops == [] then []
    else
      var rest := Begun(fates, if ops[0].Open? then count + 1 else count, NextPart(part, ops[0]), ops[1..]);
      if ops[0].Write? && part.value.writes == 0 && count > 0 then [fates(count - 1)] + rest else rest
  }

  /** From its `k`th file on, the helper meets a file system that treats files like this. */
  predicate Meets(fates: Fates, k: nat, begun: seq<Fate>) {
    forall i :: 0 <= i < |begun| ==> fates(k + i) == begun[i]
  }

  /** No file is committed empty, without a write, where the file system would create and rename it. */
  predicate NoBareFile(fates: Fates, count: nat, part: Option<Part>, ops: seq<Op>)
    requires LegalAll(part, ops)
    decreases |ops|
  {
    ops != [] ==>
      && (ops[0].Commit? && part.value.writes == 0 && count > 0 ==>
            !(fates(count - 1).opens && fates(count - 1).commits))
      && NoBareFile(fates, if ops[0].Open? then count + 1 else count, NextPart(part, ops[0]), ops[1..])
  }

  /** What the helper is to do, in step with the agent's own files. */
  ghost predicate InStep(helper: Fates, own: Fates, s: Site, l: Local) {
    && |s.outcomes| == |l.outcomes| && SaneLocal(l)
    && match s.part
       case None => l.file.None?
       case Some(p) =>
         && l.count > 0 && (l.file.None? <==> !own(l.count - 1).opens || s.failed)
         && (l.file.Some? ==> l.file == Some(LocalFile(p.rel, p.writes)) && l.disk[PartialName(p.rel)] == p.data)
         && (p.writes == 0 ==> !s.failed)
         && (p.writes > 0 ==>
             s.started > 0 && helper(s.started - 1) == own(l.count - 1) && (own(l.count - 1).opens || s.failed))
  }

  /** The finished files of both. */
  ghost predicate SameFiles(a: Folder, b: Folder) {
    forall q :: !IsPartial(q) ==> SameAt(a, b, q)
  }

  /** The agent would complete its own file now. */
  predicate Completes(own: Fates, l: Local) {
    l.file.Some? && l.count > 0 && own(l.count - 1).commits
  }

  /** A file is committed without a write, and the agent would complete its own. */
  predicate Bare(own: Fates, s: Site, l: Local, op: Op) {
    op.Commit? && s.part.Some? && s.part.value.writes == 0 && Completes(own, l)
  }

  lemma OneInStep(helper: Fates, own: Fates, s: Site, l: Local, op: Op)
    requires InStep(helper, own, s, l) && Legal(s.part, op)
    requires op.Write? && s.part.value.writes == 0 ==> helper(s.started) == own(l.count - 1)
    ensures InStep(helper, own, Apply(helper, s, op), LocalApply(own, l, op))
    ensures op.Commit? ==> Apply(helper, s, op).outcomes == s.outcomes + [Completes(own, l) && !Bare(own, s, l, op)]
    ensures op.Commit? ==> LocalApply(own, l, op).outcomes == l.outcomes + [Completes(own, l)]
  {
  }

  lemma OneSameFiles(helper: Fates, own: Fates, s: Site, l: Local, op: Op)
    requires InStep(helper, own, s, l) && Legal(s.part, op) && !Bare(own, s, l, op) && SameFiles(s.disk, l.disk)
    ensures SameFiles(Apply(helper, s, op).disk, LocalApply(own, l, op).disk)
  {
    var a, b := Apply(helper, s, op), LocalApply(own, l, op);
    forall q | !IsPartial(q)
      ensures SameAt(a.disk, b.disk, q)
    {
      assert SameAt(s.disk, l.disk, q);
    }
  }

  lemma MeetsFirst(fates: Fates, k: nat, first: Fate, rest: seq<Fate>)
    requires Meets(fates, k, [first] + rest)
    ensures fates(k) == first && Meets(fates, k + 1, rest)
  {
    assert ([first] + rest)[0] == first;
    forall i | 0 <= i < |rest|
      ensures fates(k + 1 + i) == rest[i]
    {
      assert ([first] + rest)[i + 1] == rest[i];
    }
  }

  lemma SameEnd(s: seq<bool>, t: seq<bool>, x: bool, y: bool)
    requires |s| == |t|
    ensures s + [x] == t + [y] <==> s == t && x == y
  {
    assert (s + [x])[..|s|] == s && (t + [y])[..|t|] == t;
    assert (s + [x])[|s|] == x && (t + [y])[|t|] == y;
  }

  lemma BegunFirst(fates: Fates, count: nat, part: Option<Part>, ops: seq<Op>)
    requires ops != [] && LegalAll(part, ops)
    ensures var rest := Begun(fates, if ops[0].Open? then count + 1 else count, NextPart(part, ops[0]), ops[1..]);
      Begun(fates, count, part, ops) ==
        if ops[0].Write? && part.value.writes == 0 && count > 0 then [fates(count - 1)] + rest else rest
  {
  }

  /** What the helper meets after one operation. */
  lemma MeetsOn(helper: Fates, own: Fates, started: nat, count: nat, part: Option<Part>, ops: seq<Op>)
    requires ops != [] && LegalAll(part, ops) && Meets(helper, started, Begun(own, count, part, ops))
    requires part.Some? ==> count > 0
    ensures var first := ops[0].Write? && part.value.writes == 0;
      && (first ==> helper(started) == own(count - 1))
      && Meets(helper, if first then started + 1 else started,
               Begun(own, if ops[0].Open? then count + 1 else count, NextPart(part, ops[0]), ops[1..]))
  {
    BegunFirst(own, count, part, ops);
    if ops[0].Write? && part.value.writes == 0 {
      MeetsFirst(helper, started, own(count - 1), Begun(own, count, NextPart(part, ops[0]), ops[1..]));
    }
  }

  /** How many files were begun, and opened, after one operation. */
  lemma CountedOn(helper: Fates, own: Fates, s: Site, l: Local, op: Op)
    requires InStep(helper, own, s, l) && Legal(s.part, op)
    ensures LocalApply(own, l, op).count == if op.Open? then l.count + 1 else l.count
    ensures Apply(helper, s, op).started == if op.Write? && s.part.value.writes == 0 then s.started + 1 else s.started
    ensures Apply(helper, s, op).part == NextPart(s.part, op)
  {
  }


  /** After one operation both are as alike as before it, unless it was a bare commit. */
  lemma StillAlike(helper: Fates, own: Fates, s: Site, l: Local, op: Op)
    requires InStep(helper, own, s, l) && Legal(s.part, op)
    requires op.Write? && s.part.value.writes == 0 ==> helper(s.started) == own(l.count - 1)
    ensures var a, b := Apply(helper, s, op), LocalApply(own, l, op);
      && (a.outcomes == b.outcomes <==> s.outcomes == l.outcomes && !Bare(own, s, l, op))
      && (SameFiles(s.disk, l.disk) && !Bare(own, s, l, op) ==> SameFiles(a.disk, b.disk))
  {
    OneInStep(helper, own, s, l, op);
    if op.Commit? {
      SameEnd(s.outcomes, l.outcomes, Completes(own, l) && !Bare(own, s, l, op), Completes(own, l));
    }
    if !Bare(own, s, l, op) && SameFiles(s.disk, l.disk) {
      OneSameFiles(helper, own, s, l, op);
    }
  }

  lemma BareMeans(helper: Fates, own: Fates, s: Site, l: Local, ops: seq<Op>)
    requires ops != [] && InStep(helper, own, s, l) && LegalAll(s.part, ops)
    ensures NoBareFile(own, l.count, s.part, ops) <==>
      !Bare(own, s, l, ops[0]) && NoBareFile(own, LocalApply(own, l, ops[0]).count, NextPart(s.part, ops[0]), ops[1..])
  {
  }

  lemma {:induction false} AllInStep(helper: Fates, own: Fates, s: Site, l: Local, ops: seq<Op>)
    requires InStep(helper, own, s, l) && LegalAll(s.part, ops)
    requires Meets(helper, s.started, Begun(own, l.count, s.part, ops))
    ensures var a, b := ApplyAll(helper, s, ops), LocalAll(own, l, ops);
      && (a.outcomes == b.outcomes <==> s.outcomes == l.outcomes && NoBareFile(own, l.count, s.part, ops))
      && (SameFiles(s.disk, l.disk) && NoBareFile(own, l.count, s.part, ops) ==> SameFiles(a.disk, b.disk))
    decreases |ops|
  {
    if ops != [] {
      MeetsOn(helper, own, s.started, l.count, s.part, ops);
      OneInStep(helper, own, s, l, ops[0]);
      CountedOn(helper, own, s, l, ops[0]);
      StillAlike(helper, own, s, l, ops[0]);
      BareMeans(helper, own, s, l, ops);
      AllInStep(helper, own, Apply(helper, s, ops[0]), LocalApply(own, l, ops[0]), ops[1..]);
    }
  }

  /**
   * Receiving into a repository and receiving into a folder the agent writes itself: whatever
   * fails on the way, the outcomes and the finished files are the same if and only if no file
   * is committed without a write where its creation and its rename would have worked. The helper
   * first hears of a file when data comes.
   */
  lemma SameAsLocal(h: Hash, helper: Fates, own: Fates, disk: Folder, ops: seq<Op>)
    requires OneWord(h) && LegalAll(None, ops) && Meets(helper, 0, Begun(own, 0, None, ops))
    ensures var (t, end) := Receive(h, helper, Fresh(disk), PrintAll(h, None, ops));
      var l := LocalAll(own, Local(disk, None, 0, []), ops);
      && end == AtEnd
      && (t.replies == l.outcomes <==> NoBareFile(own, 0, None, ops))
      && (t.replies == l.outcomes ==> SameFiles(t.disk, l.disk))
  {
    HelperRefines(h, helper, disk, ops);
    AllInStep(helper, own, At(disk), Local(disk, None, 0, []), ops);
    var t := Receive(h, helper, Fresh(disk), PrintAll(h, None, ops)).0;
    var l := LocalAll(own, Local(disk, None, 0, []), ops);
    if t.replies == l.outcomes {
      SameTwice(t.disk, ApplyAll(helper, At(disk), ops).disk, l.disk);
    }
  }

  lemma SameTwice(a: Folder, b: Folder, c: Folder)
    requires SameFiles(a, b) && SameFiles(b, c)
    ensures SameFiles(a, c)
  {
    forall q | !IsPartial(q)
      ensures SameAt(a, c, q)
    {
      assert SameAt(a, b, q) && SameAt(b, c, q);
    }
  }

  /** An empty file on a working disk, committed as soon as opened: installed locally, but refused by the helper. */
  lemma EmptyFileRefused(h: Hash, helper: Fates, own: Fates, disk: Folder)
    requires OneWord(h) && own(0).opens && own(0).commits
    ensures LegalAll(None, [Open("f"), Commit])
    ensures Receive(h, helper, Fresh(disk), PrintAll(h, None, [Open("f"), Commit])).0.replies == [false]
    ensures LocalAll(own, Local(disk, None, 0, []), [Open("f"), Commit]).outcomes == [true]
    ensures var files := LocalAll(own, Local(disk, None, 0, []), [Open("f"), Commit]).disk;
      "f" in files && files["f"] == []
  {
    var ops := [Open("f"), Commit];
    assert ops[1..] == [Commit] && [Commit][1..] == [];
    assert LegalAll(None, ops) && ApplyAll(helper, At(disk), ops).outcomes == [false];
    HelperRefines(h, helper, disk, ops);
  }
}
