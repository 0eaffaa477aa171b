/** What the helper can and can't do to a repository, whatever comes down the stream. */
module RepoSafety {
  import opened Transfer
  import opened Parsing
  import opened PartialFiles
  import opened RepoHelpers
  import WalFiles

  // ---------------------------------------------------------------- every file is vouched for

  ghost predicate Occurs(text: string, input: string) {
    exists i :: 0 <= i <= |input| && text <= input[i..]
  }

  /** A file inside the repository whose path and checksum a line of the stream gave together. */
  ghost predicate Vouched(h: Hash, disk: Folder, q: Path, input: string) {
    q in disk && LocalPath(q) && Occurs(Line("e", Words(h(disk[q]), q)), input)
  }

  predicate Removed(disk: Folder, q: Path) {
    IsPartial(q) && q !in disk
  }

  /** The partial file being written. */
  predicate IsOpen(s: Helper, q: Path) {
    s.file.Some? && q == PartialName(s.cur)
  }

  predicate Proper(s: Helper) {
    Sane(s) && (s.file.Some? ==> LocalPath(s.cur))
  }

  /** What became of a path since `s`, when `input` was all that was read. */
  ghost predicate Settled(h: Hash, s: Helper, disk: Folder, q: Path, input: string) {
    || (SameAt(s.disk, disk, q) && !IsOpen(s, q))
    || Removed(disk, q)
    || Vouched(h, disk, q, input)
  }

  /** What one command did to a path. */
  ghost predicate Moved(h: Hash, s: Helper, u: Helper, q: Path, op: string, arg: string) {
    || IsOpen(u, q)
    || (SameAt(s.disk, u.disk, q) && !IsOpen(s, q))
    || Removed(u.disk, q)
    || (op == "e" && q in u.disk && LocalPath(q) && arg == Words(h(u.disk[q]), q))
  }

  lemma DiscardMoves(h: Hash, s: Helper, op: string, arg: string)
    requires Proper(s)
    ensures Proper(Discard(s)) && forall q :: Moved(h, s, Discard(s), q, op, arg)
  {
  }

  lemma SelectMoves(h: Hash, fates: Fates, s: Helper, rel: Path, op: string, arg: string)
    requires Proper(s)
    ensures var u := Select(fates, s, rel);
      Proper(u) && forall q :: Moved(h, s, u, q, op, arg)
  {
    if rel != s.cur {
      DiscardMoves(h, s, op, arg);
    }
  }

  lemma AppendMoves(h: Hash, fates: Fates, s: Helper, t: Helper, data: Bytes, op: string, arg: string)
    requires Proper(t) && forall q :: Moved(h, s, t, q, op, arg)
    requires op == "d"
    ensures var u := Append(fates, t, data);
      Proper(u) && forall q :: Moved(h, s, u, q, op, arg)
  {
    var u := Append(fates, t, data);
    forall q
      ensures Moved(h, s, u, q, op, arg)
    {
      assert Moved(h, s, t, q, op, arg);
    }
  }

  lemma CompleteMoves(h: Hash, fates: Fates, s: Helper, sum: string, rel: Path)
    requires Proper(s)
    ensures var u := Complete(h, fates, s, sum, rel);
      Proper(u) && forall q :: Moved(h, s, u, q, "e", Words(sum, rel))
  {
  }

  lemma CutOf(s: string, c: char)
    ensures var (a, b) := Cut(s, c);
      b != "" ==> s == a + [c] + b
  {
    var front := WalFiles.Before(s, c);
    if |front| < |s| {
      assert front != s;
      assert s == s[..|front|] + [s[|front|]] + s[|front| + 1..];
    }
  }

  lemma CommandMoves(h: Hash, fates: Fates, s: Helper, op: string, arg: string, rest: string)
    requires Proper(s)
    ensures var u := Command(h, fates, s, op, arg, rest).s;
      Proper(u) && forall q :: Moved(h, s, u, q, op, arg)
    ensures Command(h, fates, s, op, arg, rest).Over? ==> Command(h, fates, s, op, arg, rest).s.file.None?
  {
    DiscardMoves(h, s, op, arg);
    if op == "d" {
      var (size, rel) := Cut(arg, ' ');
      var t := Select(fates, s, rel);
      SelectMoves(h, fates, s, rel, op, arg);
      var n := ParseInt(size);
      if n.Some? && 0 <= n.value <= MAX_WRITE && n.value <= |rest| {
        AppendMoves(h, fates, s, t, Decode(rest[..n.value]), op, arg);
      } else {
        DiscardAfter(h, s, t, op, arg);
      }
    } else if op == "e" {
      var (sum, rel) := Cut(arg, ' ');
      CutOf(arg, ' ');
      if rel != "" {
        assert Words(sum, rel) == arg;
        CompleteMoves(h, fates, s, sum, rel);
      }
    }
  }

  lemma DiscardAfter(h: Hash, s: Helper, t: Helper, op: string, arg: string)
    requires Proper(t) && forall q :: Moved(h, s, t, q, op, arg)
    requires op == "d"
    ensures Proper(Discard(t)) && forall q :: Moved(h, s, Discard(t), q, op, arg)
  {
    forall q
      ensures Moved(h, s, Discard(t), q, op, arg)
    {
      assert Moved(h, s, t, q, op, arg);
    }
  }

  lemma OccursLater(text: string, line: string, rest: string)
    requires Occurs(text, rest)
    ensures Occurs(text, line + rest)
  {
    var i :| 0 <= i <= |rest| && text <= rest[i..];
    assert (line + rest)[|line| + i..] == rest[i..];
  }

  /** One path, over one command and then the rest of the stream. */
  lemma SettledOn(h: Hash, s: Helper, u: Helper, disk: Folder, q: Path, op: string, arg: string, line: string,
                  data: string, rest: string)
    requires Moved(h, s, u, q, op, arg) && Settled(h, u, disk, q, rest)
    requires op == "e" && arg != "" ==> line == Line(op, arg)
    ensures Settled(h, s, disk, q, line + (data + rest))
  {
    if Vouched(h, disk, q, rest) {
      OccursLater(Line("e", Words(h(disk[q]), q)), data, rest);
      OccursLater(Line("e", Words(h(disk[q]), q)), line, data + rest);
    } else if SameAt(u.disk, disk, q) && op == "e" && q in u.disk && LocalPath(q) && arg == Words(h(u.disk[q]), q) {
      assert (line + (data + rest))[0..] == line + (data + rest);
      assert Occurs(Line("e", Words(h(disk[q]), q)), line + (data + rest));
    }
  }

  /** The first line, if there is one, and what follows it. */
  lemma FirstLine(input: string)
    ensures var line := WalFiles.Before(input, '\n');
      |line| < |input| ==> input == (line + "\n") + input[|line| + 1..]
  {
    var line := WalFiles.Before(input, '\n');
    if |line| < |input| {
      assert line != input && input[|line|] == '\n';
      assert input == line + "\n" + input[|line| + 1..];
    }
  }

  /** A line is printed as it was cut. */
  lemma LineOf(line: string)
    ensures var (op, arg) := Cut(line, ' ');
      arg != "" ==> Line(op, arg) == line + "\n"
  {
    CutOf(line, ' ');
  }

  /** One path, over a line that isn't the last and what follows it. */
  lemma TurnSettles(h: Hash, fates: Fates, s: Helper, line: string, rest: string, disk: Folder, q: Path)
    requires Proper(s)
    requires var (op, arg) := Cut(line, ' ');
      var turn := Command(h, fates, s, op, arg, rest);
      if turn.Going? then Settled(h, turn.s, disk, q, turn.rest) else disk == turn.s.disk
    ensures Settled(h, s, disk, q, (line + "\n") + rest)
  {
    var (op, arg) := Cut(line, ' ');
    var turn := Command(h, fates, s, op, arg, rest);
    CommandMoves(h, fates, s, op, arg, rest);
    assert Moved(h, s, turn.s, q, op, arg);
    LineOf(line);
    if turn.Going? {
      RestOf(h, fates, s, op, arg, rest);
      var data := rest[..|rest| - |turn.rest|];
      assert rest == data + turn.rest;
      SettledOn(h, s, turn.s, disk, q, op, arg, line + "\n", data, turn.rest);
    } else {
      assert rest == "" + rest;
      SettledOn(h, s, turn.s, disk, q, op, arg, line + "\n", "", rest);
    }
  }

  lemma {:induction false} ReceiveSettles(h: Hash, fates: Fates, s: Helper, input: string, q: Path)
    requires Proper(s)
    ensures Settled(h, s, Receive(h, fates, s, input).0.disk, q, input)
    decreases |input|
  {
    var line := WalFiles.Before(input, '\n');
    if |line| == |input| {
      DiscardMoves(h, s, "a", "");
      assert Moved(h, s, Discard(s), q, "a", "");
    } else {
      var rest := input[|line| + 1..];
      var (op, arg) := Cut(line, ' ');
      var turn := Command(h, fates, s, op, arg, rest);
      if turn.Going? {
        CommandMoves(h, fates, s, op, arg, rest);
        ReceiveSettles(h, fates, turn.s, turn.rest, q);
      }
      TurnSettles(h, fates, s, line, rest, Receive(h, fates, s, input).0.disk, q);
      FirstLine(input);
    }
  }

  /** A command consumes no more than its data. */
  lemma RestOf(h: Hash, fates: Fates, s: Helper, op: string, arg: string, rest: string)
    requires Sane(s)
    ensures var turn := Command(h, fates, s, op, arg, rest);
      turn.Going? ==> turn.rest == rest[|rest| - |turn.rest|..]
  {
  }

  /**
   * Whatever comes down the stream: a path of the repository is as it was, or a partial file
   * that is gone, or lies inside the repository and holds data whose checksum the stream gave
   * for that very path. Nothing half-written is left.
   */
  lemma AnyStreamIsSafe(h: Hash, fates: Fates, disk: Folder, input: string, q: Path)
    ensures var now := Receive(h, fates, Fresh(disk), input).0.disk;
      SameAt(disk, now, q) || (IsPartial(q) && q !in now) || Vouched(h, now, q, input)
  {
    ReceiveSettles(h, fates, Fresh(disk), input, q);
  }

  // ---------------------------------------------------------------- what it refuses

  /** The number before a write's data isn't one, or isn't allowed, or there's less data than that. */
  predicate BadSize(size: string, rest: string) {
    var n := ParseInt(size);
    n.None? || n.value < 0 || n.value > MAX_WRITE || n.value > |rest|
  }

  /** The helper stopped at bad input: no reply, no finished file touched, nothing open. */
  ghost predicate Refused(s: Helper, t: Helper, end: End) {
    end == BadInput && t.replies == s.replies && SameFiles(s.disk, t.disk) && t.file.None? && t.cur == ""
  }

  lemma DiscardKeepsFiles(s: Helper)
    requires Sane(s)
    ensures SameFiles(s.disk, Discard(s).disk)
  {
  }

  lemma SelectKeepsFiles(fates: Fates, s: Helper, rel: Path)
    requires Sane(s)
    ensures var u := Select(fates, s, rel);
      SameFiles(s.disk, u.disk) && u.replies == s.replies
  {
    DiscardKeepsFiles(s);
  }

  /** A line that ends in the middle. */
  lemma CutShortRefused(h: Hash, fates: Fates, s: Helper, input: string)
    requires Sane(s) && input != "" && '\n' !in input
    ensures var (t, end) := Receive(h, fates, s, input); Refused(s, t, end)
  {
    DiscardKeepsFiles(s);
  }

  /** An unknown operation, or a write with a bad length or too little data. */
  lemma BadInputRefused(h: Hash, fates: Fates, s: Helper, op: string, size: string, rel: Path, rest: string)
    requires Sane(s) && ' ' !in op && '\n' !in op && ' ' !in size && '\n' !in size && '\n' !in rel
    requires op !in {"d", "e", "a"} || (op == "d" && BadSize(size, rest))
    ensures var (t, end) := Receive(h, fates, s, Line(op, Words(size, rel)) + rest); Refused(s, t, end)
  {
    ReadsLine(h, fates, s, op, Words(size, rel), rest);
    CutWords(size, rel);
    BadCommandRefused(h, fates, s, op, Words(size, rel), size, rel, rest);
  }

  lemma BadCommandRefused(h: Hash, fates: Fates, s: Helper, op: string, arg: string, size: string, rel: Path,
                          rest: string)
    requires Sane(s) && Cut(arg, ' ') == (size, rel)
    requires op !in {"d", "e", "a"} || (op == "d" && BadSize(size, rest))
    ensures var turn := Command(h, fates, s, op, arg, rest); turn.Over? && Refused(s, turn.s, turn.end)
  {
    DiscardKeepsFiles(s);
    SelectKeepsFiles(fates, s, rel);
    DiscardKeepsFiles(Select(fates, s, rel));
    SameTwice(s.disk, Select(fates, s, rel).disk, Discard(Select(fates, s, rel)).disk);
  }

  /** What completing a file comes to. */
  ghost predicate Answered(h: Hash, fates: Fates, s: Helper, sum: string, rel: Path, u: Helper, yes: bool) {
    && u.file.None? && u.cur == "" && u.replies == s.replies + [yes]
    && (yes <==>
          s.file == Some(rel) && !s.failed && s.started > 0 && h(s.hashed) == sum && fates(s.started - 1).commits)
    && (forall q :: !IsPartial(q) && (q != rel || !yes) ==> SameAt(s.disk, u.disk, q))
    && (yes ==> rel in u.disk && u.disk[rel] == s.hashed)
    && (s.file.Some? ==> PartialName(s.cur) !in u.disk)
  }

  lemma CompleteAnswers(h: Hash, fates: Fates, s: Helper, sum: string, rel: Path)
    requires Sane(s)
    ensures var u := Complete(h, fates, s, sum, rel);
      |u.replies| == |s.replies| + 1 && Answered(h, fates, s, sum, rel, u, u.replies[|s.replies|])
  {
    var u := Complete(h, fates, s, sum, rel);
    DiscardKeepsFiles(s);
    if u.replies[|s.replies|] {
      assert |PartialName(rel)| > |rel|;
      forall q | !IsPartial(q) && q != rel
        ensures SameAt(s.disk, u.disk, q)
      {
      }
    } else {
      assert u == Discard(s).(replies := s.replies + [false]);
      forall q | !IsPartial(q)
        ensures SameAt(s.disk, u.disk, q)
      {
        assert SameAt(s.disk, Discard(s).disk, q);
      }
    }
  }

  /**
   * A file is completed and answered with yes exactly when it is the one being written, all its
   * writes worked, its data has the checksum and the rename works; it then holds that data.
   * Otherwise the answer is no and no finished file changes. Either way nothing stays open.
   */
  lemma AnsweredExactly(h: Hash, fates: Fates, s: Helper, sum: string, rel: Path, more: string)
    returns (u: Helper, yes: bool)
    requires Sane(s) && ' ' !in sum && '\n' !in sum && '\n' !in rel && (rel == s.cur ==> s.failed || s.file.Some?)
    ensures Sane(u) && Answered(h, fates, s, sum, rel, u, yes)
    ensures Receive(h, fates, s, Line("e", Words(sum, rel)) + more) == Receive(h, fates, u, more)
  {
    ReadsCommit(h, fates, s, rel, sum, more);
    u := Complete(h, fates, s, sum, rel);
    yes := u.replies[|s.replies|];
    CompleteAnswers(h, fates, s, sum, rel);
  }

  // ---------------------------------------------------------------- crashing

  /** Nothing was begun yet. */
  predicate Unbegun(s: Helper) {
    Sane(s) && s.file.None? && !s.hashing
  }

  predicate Began(s: Helper) {
    s.hashing || s.file.None?
  }

  /** The same repository, and only refusals since. */
  ghost predicate NoYes(s: Helper, t: Helper) {
    t.disk == s.disk && |t.replies| >= |s.replies| && (true in t.replies ==> true in s.replies)
  }

  /** From here to there; if nothing was begun by then, the repository is the same. */
  ghost predicate Harmless(s: Helper, t: Helper) {
    Began(t) && (Unbegun(t) ==> Unbegun(s) && NoYes(s, t))
  }

  lemma CommandHarmless(h: Hash, fates: Fates, s: Helper, op: string, arg: string, rest: string)
    requires Sane(s) && Began(s)
    ensures Harmless(s, Command(h, fates, s, op, arg, rest).s)
  {
    assert Harmless(s, Discard(s));
    if op == "d" {
      var (size, rel) := Cut(arg, ' ');
      var t := Select(fates, s, rel);
      assert Harmless(s, t);
      assert Harmless(s, Discard(t));
      var n := ParseInt(size);
      if n.Some? && 0 <= n.value <= |rest| {
        assert Harmless(s, Append(fates, t, Decode(rest[..n.value])));
      }
    } else if op == "e" {
      var (sum, rel) := Cut(arg, ' ');
      CompleteHarmless(h, fates, s, sum, rel);
    }
  }

  lemma CompleteHarmless(h: Hash, fates: Fates, s: Helper, sum: string, rel: Path)
    requires Sane(s) && Began(s)
    ensures Harmless(s, Complete(h, fates, s, sum, rel))
  {
    var u := Complete(h, fates, s, sum, rel);
    if Unbegun(u) {
      assert u == Discard(s).(replies := s.replies + [false]);
    }
  }

  lemma {:induction false} CrashesUnbegun(h: Hash, fates: Fates, s: Helper, input: string)
    requires Sane(s) && Began(s)
    ensures var (t, end) := Receive(h, fates, s, input);
      end.Crashed? ==> Unbegun(s) && NoYes(s, t)
    decreases |input|
  {
    var line := WalFiles.Before(input, '\n');
    if |line| < |input| {
      var rest := input[|line| + 1..];
      var (op, arg) := Cut(line, ' ');
      var turn := Command(h, fates, s, op, arg, rest);
      CommandHarmless(h, fates, s, op, arg, rest);
      CrashedUnbegun(h, fates, s, op, arg, rest);
      if turn.Going? {
        CrashesUnbegun(h, fates, turn.s, turn.rest);
      }
    }
  }

  /** A command crashes the helper just if it is for the file taken as current when none was begun: the nameless one. */
  lemma CrashedUnbegun(h: Hash, fates: Fates, s: Helper, op: string, arg: string, rest: string)
    requires Sane(s)
    ensures var turn := Command(h, fates, s, op, arg, rest);
      var (first, rel) := Cut(arg, ' ');
      turn.Over? && turn.end.Crashed? <==>
        Unbegun(s) && !s.failed && rel == s.cur && (op == "e" || (op == "d" && !BadSize(first, rest)))
  {
  }

  /** A file was begun once data came for a path inside the repository, whether or not it could be created. */
  lemma BegunExactly(fates: Fates, s: Helper, rel: Path, data: Bytes)
    requires Sane(s)
    ensures Append(fates, Select(fates, s, rel), data).hashing <==> s.hashing || (rel != s.cur && LocalPath(rel))
  {
  }

  /** The helper crashes only before it began any file, so with the repository as it was and no yes given. */
  lemma CrashHarmless(h: Hash, fates: Fates, disk: Folder, input: string)
    ensures var (t, end) := Receive(h, fates, Fresh(disk), input);
      end.Crashed? ==> t.disk == disk && true !in t.replies
  {
    CrashesUnbegun(h, fates, Fresh(disk), input);
  }

  /** It does crash: on a first file without a name. */
  lemma NamelessCrashes(h: Hash, fates: Fates, disk: Folder, sum: string, rest: string)
    requires ' ' !in sum && '\n' !in sum
    ensures Receive(h, fates, Fresh(disk), Line("e", Words(sum, "")) + rest).1 == Crashed
  {
    ReadsLine(h, fates, Fresh(disk), "e", Words(sum, ""), rest);
    CutWords(sum, "");
  }
}
