/**
 * The agent's backup round. Storage locations wait in a queue for a check and, right after one
 * that passes, a backup; those that fail the check wait again. And the conductor's time limit.
 */
module BackupRounds {
  import opened Transfer
  import opened Subsequences

  const SECOND: nat := 1_000_000_000

  datatype Params = Params(repos: seq<int>, tries: int, retry: int)

  /** What a check or a backup did, and how long it took. */
  datatype Tried = Tried(ok: bool, took: nat)

  /** A location in the queue; `slot` is its place in the parameters. */
  datatype Loc = Loc(slot: nat, repo: int, fails: nat, ready: int)

  datatype Outcome = BackedUp | NotReadable(checks: nat) | BackupFailed | CutShort

  datatype Result = Result(slot: nat, repo: int, outcome: Outcome)

  datatype Report = Warning(slot: nat, fails: nat) | Failure(slot: nat)

  /** What the round did, in order. */
  datatype Event =
    | Checked(slot: nat, ok: bool, from: nat, until: nat)
    | Backed(slot: nat, ok: bool, from: nat, until: nat)

  /** `failed` counts the results that aren't a backup. */
  datatype Books = Books(queue: seq<Loc>, results: seq<Result>, reports: seq<Report>, failed: nat, trace: seq<Event>,
                         now: nat)

  /** The most checks a location gets. */
  function MostChecks(p: Params): nat {
    if p.tries < 1 then 1 else p.tries
  }

  // ---------------------------------------------------------------- steps

  function Drop(queue: seq<Loc>, i: nat): seq<Loc>
    requires i < |queue|
  {
    queue[..i] + queue[i + 1..]
  }

  /** A check failed, not for the last time: the location is queued once more, last. */
  function Requeue(p: Params, b: Books, i: nat, until: nat): Books
    requires i < |b.queue|
  {
    var l := b.queue[i];
    Books(Drop(b.queue, i) + [l.(fails := l.fails + 1, ready := until + p.retry)], b.results,
          b.reports + [Warning(l.slot, l.fails + 1)], b.failed, b.trace + [Checked(l.slot, false, b.now, until)], until)
  }

  /** A location is done, with this outcome, after `more` happened. */
  function Close(b: Books, i: nat, outcome: Outcome, more: seq<Event>, until: nat): Books
    requires i < |b.queue|
  {
    var l := b.queue[i];
    Books(Drop(b.queue, i), b.results + [Result(l.slot, l.repo, outcome)],
          if outcome.BackedUp? then b.reports else b.reports + [Failure(l.slot)],
          if outcome.BackedUp? then b.failed else b.failed + 1, b.trace + more, until)
  }

  // ---------------------------------------------------------------- what stays true

  function QueueSlots(queue: seq<Loc>): seq<nat> {
    seq(|queue|, i requires 0 <= i < |queue| => queue[i].slot)
  }

  function ResultSlots(results: seq<Result>): seq<nat> {
    seq(|results|, i requires 0 <= i < |results| => results[i].slot)
  }

  /** Every location is in the queue or has its result, and just once. */
  ghost predicate Once(p: Params, b: Books) {
    (forall i, j :: Apart(b, i, j)) && forall k :: Listed(p, b, k)
  }

  function AllSlots(b: Books): seq<nat> {
    QueueSlots(b.queue) + ResultSlots(b.results)
  }

  predicate Apart(b: Books, i: int, j: int) {
    var all := AllSlots(b);
    0 <= i < j < |all| ==> all[i] != all[j]
  }

  predicate Listed(p: Params, b: Books, k: int) {
    0 <= k < |p.repos| <==> k in AllSlots(b)
  }

  lemma OnceMeans(p: Params, b: Books)
    ensures Once(p, b) <==> Distinct(AllSlots(b)) && forall k :: k in AllSlots(b) <==> 0 <= k < |p.repos|
  {
    if Once(p, b) {
      forall i, j | 0 <= i < j < |AllSlots(b)|
        ensures AllSlots(b)[i] != AllSlots(b)[j]
      {
        assert Apart(b, i, j);
      }
      forall k
        ensures k in AllSlots(b) <==> 0 <= k < |p.repos|
      {
        assert Listed(p, b, k);
      }
    }
  }

  /** When `slot` was checked, and when it was backed up. */
  function ChecksAt(trace: seq<Event>, slot: nat): set<nat> {
    set i: nat | i < |trace| && trace[i].Checked? && trace[i].slot == slot
  }

  function BackupsAt(trace: seq<Event>, slot: nat): set<nat> {
    set i: nat | i < |trace| && trace[i].Backed? && trace[i].slot == slot
  }

  function ChecksOf(trace: seq<Event>, slot: nat): nat {
    |ChecksAt(trace, slot)|
  }

  function BackupsOf(trace: seq<Event>, slot: nat): nat {
    |BackupsAt(trace, slot)|
  }

  /** No check of `slot` passed. */
  predicate NeverPassed(trace: seq<Event>, slot: nat) {
    forall e :: e in trace && e.Checked? && e.slot == slot ==> !e.ok
  }

  /** A location in the queue: only failed checks so far, and the wait since the last. */
  ghost predicate LocTrue(p: Params, trace: seq<Event>, l: Loc) {
    && 0 <= l.slot < |p.repos| && l.repo == p.repos[l.slot] && l.fails < MostChecks(p)
    && ChecksOf(trace, l.slot) == l.fails && BackupsOf(trace, l.slot) == 0 && NeverPassed(trace, l.slot)
    && (l.fails == 0 ==> l.ready == 0)
    && forall e :: e in trace && e.Checked? && e.slot == l.slot ==> e.until + p.retry <= l.ready
  }

  /** The round's context has ended by `now`: its time limit, or the agent stopping. */
  predicate Ended(ends: Option<nat>, now: nat) {
    ends.Some? && ends.value <= now
  }

  /** The context had ended by the end of a check of `slot`. */
  ghost predicate EndedMeanwhile(ends: Option<nat>, trace: seq<Event>, slot: nat) {
    exists e :: e in trace && e.Checked? && e.slot == slot && Ended(ends, e.until)
  }

  /** A location that is done: its outcome is what happened. */
  ghost predicate ResultTrue(p: Params, ends: Option<nat>, trace: seq<Event>, r: Result) {
    && 0 <= r.slot < |p.repos| && r.repo == p.repos[r.slot] && ChecksOf(trace, r.slot) <= MostChecks(p)
    && match r.outcome
       case BackedUp => BackupsOf(trace, r.slot) == 1 && exists e :: e in trace && e.Backed? && e.slot == r.slot && e.ok
       case BackupFailed =>
         BackupsOf(trace, r.slot) == 1 && exists e :: e in trace && e.Backed? && e.slot == r.slot && !e.ok
       case NotReadable(checks) =>
         && BackupsOf(trace, r.slot) == 0 && NeverPassed(trace, r.slot) && 1 <= checks == ChecksOf(trace, r.slot)
         && (checks == MostChecks(p) || EndedMeanwhile(ends, trace, r.slot))
       case CutShort =>
         ends.Some? && BackupsOf(trace, r.slot) == 0 && NeverPassed(trace, r.slot) && 1 <= ChecksOf(trace, r.slot)
  }

  /** A passing check with its backup right after. */
  predicate Passed(e: Event, f: Event) {
    e.Checked? && e.slot == f.slot && e.ok && e.until == f.from
  }

  /** The first event is no backup. */
  predicate Begins(trace: seq<Event>, i: int) {
    i == 0 && i < |trace| ==> trace[i].Checked?
  }

  /** If event `j`, right after event `i`, is a backup, then `i` is the check for it. */
  predicate Follows(trace: seq<Event>, i: int, j: int) {
    0 <= i < j < |trace| && j == i + 1 && trace[j].Backed? ==> Passed(trace[i], trace[j])
  }

  /** If events `i` and `j` are checks of one location, they are `retry` apart. */
  predicate Spaced(p: Params, trace: seq<Event>, i: int, j: int) {
    0 <= i < j < |trace| && trace[i].Checked? && trace[j].Checked? && trace[i].slot == trace[j].slot ==>
      trace[i].until + p.retry <= trace[j].from
  }

  /** Backups come right after a passing check; checks of a location are `retry` apart. */
  ghost predicate TraceTrue(p: Params, trace: seq<Event>) {
    && (forall i :: Begins(trace, i)) && (forall i, j :: Follows(trace, i, j))
    && (forall i, j :: Spaced(p, trace, i, j))
  }

  function Failures(reports: seq<Report>): seq<nat> {
    if reports == [] then []
    else
      var front := Failures(reports[..|reports| - 1]);
      var r := reports[|reports| - 1];
      if r.Failure? then front + [r.slot] else front
  }

  function FailedSlots(results: seq<Result>): seq<nat> {
    if results == [] then []
    else
      var front := FailedSlots(results[..|results| - 1]);
      var r := results[|results| - 1];
      if r.outcome.BackedUp? then front else front + [r.slot]
  }

  /** The failures reported, and counted, are those of the results, in order. */
  ghost predicate Reported(b: Books) {
    forall slots :: Lists(b, slots)
  }

  ghost predicate Lists(b: Books, slots: seq<nat>) {
    && (slots == Failures(b.reports) <==> slots == FailedSlots(b.results))
    && (slots == FailedSlots(b.results) ==> |slots| == b.failed)
  }

  lemma ReportedMeans(b: Books)
    ensures Reported(b) <==> Failures(b.reports) == FailedSlots(b.results) && b.failed == |FailedSlots(b.results)|
  {
    if Reported(b) {
      assert Lists(b, Failures(b.reports)) && Lists(b, FailedSlots(b.results));
    }
  }

  ghost predicate Kept(p: Params, ends: Option<nat>, b: Books) {
    && Once(p, b) && TraceTrue(p, b.trace) && Reported(b)
    && (forall e :: e in b.trace ==> e.from <= e.until <= b.now)
    && (forall l :: l in b.queue ==> LocTrue(p, b.trace, l))
    && (forall r :: r in b.results ==> ResultTrue(p, ends, b.trace, r))
  }

  // ---------------------------------------------------------------- one step keeps it

  lemma ClosedOnce(p: Params, b: Books, i: nat, outcome: Outcome, more: seq<Event>, until: nat)
    requires Once(p, b) && i < |b.queue|
    ensures Once(p, Close(b, i, outcome, more, until))
  {
    OnceMeans(p, b);
    var q, r := QueueSlots(b.queue), ResultSlots(b.results);
    var t := Close(b, i, outcome, more, until);
    OnceMeans(p, t);
    assert QueueSlots(t.queue) == q[..i] + q[i + 1..];
    assert ResultSlots(t.results) == r + [q[i]];
    MovedToEnd(q, i, r);
  }

  lemma RequeuedOnce(p: Params, b: Books, i: nat, until: nat)
    requires Once(p, b) && i < |b.queue|
    ensures Once(p, Requeue(p, b, i, until))
  {
    OnceMeans(p, b);
    var q, r := QueueSlots(b.queue), ResultSlots(b.results);
    var t := Requeue(p, b, i, until);
    OnceMeans(p, t);
    assert QueueSlots(t.queue) == q[..i] + q[i + 1..] + [q[i]];
    MovedToBack(q, i, r);
  }

  /** Moving an element of a distinct list to its end keeps it distinct. */
  lemma MovedToEnd(q: seq<nat>, i: nat, r: seq<nat>)
    requires i < |q| && Distinct(q + r)
    ensures var s := q[..i] + q[i + 1..] + (r + [q[i]]); Distinct(s) && forall k :: k in s <==> k in q + r
  {
    var s := q[..i] + q[i + 1..] + (r + [q[i]]);
    assert multiset(s) == multiset(q + r) by {
      assert q == q[..i] + [q[i]] + q[i + 1..];
    }
    SameElements(q + r, s);
  }

  lemma MovedToBack(q: seq<nat>, i: nat, r: seq<nat>)
    requires i < |q| && Distinct(q + r)
    ensures var s := q[..i] + q[i + 1..] + [q[i]] + r; Distinct(s) && forall k :: k in s <==> k in q + r
  {
    var s := q[..i] + q[i + 1..] + [q[i]] + r;
    assert multiset(s) == multiset(q + r) by {
      assert q == q[..i] + [q[i]] + q[i + 1..];
    }
    SameElements(q + r, s);
  }

  lemma SameElements(a: seq<nat>, b: seq<nat>)
    requires multiset(a) == multiset(b) && Distinct(a)
    ensures Distinct(b) && forall k :: k in b <==> k in a
  {
    forall k
      ensures k in b <==> k in a
    {
      assert k in a <==> k in multiset(a);
    }
    if i, j :| 0 <= i < j < |b| && b[i] == b[j] {
      Twice(b, i, j);
      AtMostOnce(a, b[i]);
    }
  }

  lemma Twice(s: seq<nat>, i: nat, j: nat)
    requires i < j < |s| && s[i] == s[j]
    ensures multiset(s)[s[i]] >= 2
  {
    assert s == s[..i] + [s[i]] + s[i + 1..j] + [s[j]] + s[j + 1..];
  }

  lemma {:induction false} AtMostOnce(s: seq<nat>, x: nat)
    requires Distinct(s)
    ensures multiset(s)[x] <= 1
  {
    if s != [] {
      AtMostOnce(s[1..], x);
      assert s == [s[0]] + s[1..];
      if s[0] == x {
        assert x !in s[1..];
      }
    }
  }

  /** Nothing else in the books concerns a location in the queue. */
  lemma SlotOnce(p: Params, b: Books, i: nat)
    requires Once(p, b) && i < |b.queue|
    ensures forall j :: 0 <= j < |b.queue| && j != i ==> b.queue[j].slot != b.queue[i].slot
    ensures forall r :: r in b.results ==> r.slot != b.queue[i].slot
  {
    OnceMeans(p, b);
    var q, r := QueueSlots(b.queue), ResultSlots(b.results);
    var all := q + r;
    forall j | 0 <= j < |b.queue| && j != i
      ensures b.queue[j].slot != b.queue[i].slot
    {
      assert all[i] == q[i] && all[j] == q[j];
    }
    forall j | 0 <= j < |b.results|
      ensures b.results[j].slot != b.queue[i].slot
    {
      assert all[i] == q[i] && all[|q| + j] == r[j];
    }
  }

  /** What happens to one location changes nothing for another. */
  lemma ChecksOne(trace: seq<Event>, e: Event, k: nat)
    ensures ChecksOf(trace + [e], k) == ChecksOf(trace, k) + if e.Checked? && e.slot == k then 1 else 0
  {
    var last: nat := |trace|;
    var t := ChecksAt(trace + [e], k);
    forall i: nat
      ensures i in t <==> i in ChecksAt(trace, k) || (i == last && e.Checked? && e.slot == k)
    {
      assert i < last ==> (trace + [e])[i] == trace[i];
    }
    assert t == ChecksAt(trace, k) + if e.Checked? && e.slot == k then {last} else {};
  }

  lemma BackupsOne(trace: seq<Event>, e: Event, k: nat)
    ensures BackupsOf(trace + [e], k) == BackupsOf(trace, k) + if e.Backed? && e.slot == k then 1 else 0
  {
    var last: nat := |trace|;
    var t := BackupsAt(trace + [e], k);
    forall i: nat
      ensures i in t <==> i in BackupsAt(trace, k) || (i == last && e.Backed? && e.slot == k)
    {
      assert i < last ==> (trace + [e])[i] == trace[i];
    }
    assert t == BackupsAt(trace, k) + if e.Backed? && e.slot == k then {last} else {};
  }

  lemma ElsewhereOne(trace: seq<Event>, e: Event, k: nat)
    ensures ChecksOf(trace + [e], k) == ChecksOf(trace, k) + if e.Checked? && e.slot == k then 1 else 0
    ensures BackupsOf(trace + [e], k) == BackupsOf(trace, k) + if e.Backed? && e.slot == k then 1 else 0
  {
    ChecksOne(trace, e, k);
    BackupsOne(trace, e, k);
  }

  /** `more` is one location's part, appended to the trace. */
  ghost predicate Only(more: seq<Event>, slot: nat) {
    |more| <= 2 && forall e :: e in more ==> e.slot == slot
  }

  lemma Elsewhere(trace: seq<Event>, more: seq<Event>, slot: nat, k: nat)
    requires Only(more, slot) && k != slot
    ensures ChecksOf(trace + more, k) == ChecksOf(trace, k) && BackupsOf(trace + more, k) == BackupsOf(trace, k)
  {
    if |more| == 1 {
      assert more == [more[0]];
      ElsewhereOne(trace, more[0], k);
    } else if |more| == 2 {
      assert trace + more == trace + [more[0]] + [more[1]];
      ElsewhereOne(trace, more[0], k);
      ElsewhereOne(trace + [more[0]], more[1], k);
    } else {
      assert trace + more == trace;
    }
  }

  lemma OthersStay(p: Params, ends: Option<nat>, b: Books, i: nat, more: seq<Event>)
    requires Kept(p, ends, b) && i < |b.queue| && Only(more, b.queue[i].slot)
    ensures forall j :: 0 <= j < |b.queue| && j != i ==> LocTrue(p, b.trace + more, b.queue[j])
    ensures forall r :: r in b.results ==> ResultTrue(p, ends, b.trace + more, r)
  {
    SlotOnce(p, b, i);
    forall j | 0 <= j < |b.queue| && j != i
      ensures LocTrue(p, b.trace + more, b.queue[j])
    {
      assert LocTrue(p, b.trace, b.queue[j]);
      Elsewhere(b.trace, more, b.queue[i].slot, b.queue[j].slot);
    }
    forall r | r in b.results
      ensures ResultTrue(p, ends, b.trace + more, r)
    {
      assert ResultTrue(p, ends, b.trace, r);
      Elsewhere(b.trace, more, b.queue[i].slot, r.slot);
      assert forall e :: e in b.trace ==> e in b.trace + more;
    }
  }

  /** A check is spaced from the location's earlier ones. */
  lemma CheckSpaced(p: Params, b: Books, l: Loc, e: Event)
    requires TraceTrue(p, b.trace) && LocTrue(p, b.trace, l) && l.ready <= b.now
    requires e.Checked? && e.slot == l.slot && e.from == b.now
    ensures TraceTrue(p, b.trace + [e])
  {
    var t := b.trace + [e];
    forall i
      ensures Begins(t, i)
    {
      assert Begins(b.trace, i);
    }
    forall i, j
      ensures Follows(t, i, j) && Spaced(p, t, i, j)
    {
      assert Follows(b.trace, i, j) && Spaced(p, b.trace, i, j);
      assert 0 <= i < j == |b.trace| ==> t[i] in b.trace;
    }
  }

  lemma {:induction false} ReportsAgree(b: Books, i: nat, outcome: Outcome, more: seq<Event>, until: nat)
    requires i < |b.queue| && Reported(b)
    ensures Reported(Close(b, i, outcome, more, until))
  {
    var t := Close(b, i, outcome, more, until);
    ReportedMeans(b);
    assert t.results[..|b.results|] == b.results;
    if !outcome.BackedUp? {
      assert t.reports[..|b.reports|] == b.reports;
    }
    ReportedMeans(t);
  }

  lemma {:induction false} WarningAgrees(p: Params, b: Books, i: nat, until: nat)
    requires i < |b.queue| && Reported(b)
    ensures Reported(Requeue(p, b, i, until))
  {
    var t := Requeue(p, b, i, until);
    ReportedMeans(b);
    assert t.reports[..|b.reports|] == b.reports;
    ReportedMeans(t);
  }

  lemma {:induction false} FailedOnce(p: Params, trace: seq<Event>, l: Loc, e: Event)
    requires LocTrue(p, trace, l) && e.Checked? && e.slot == l.slot && !e.ok
    ensures ChecksOf(trace + [e], l.slot) == l.fails + 1 && BackupsOf(trace + [e], l.slot) == 0
    ensures NeverPassed(trace + [e], l.slot)
  {
    ElsewhereOne(trace, e, l.slot);
  }

  lemma {:induction false} Requeued(p: Params, trace: seq<Event>, l: Loc, e: Event)
    requires LocTrue(p, trace, l) && e.Checked? && e.slot == l.slot && !e.ok && l.fails + 1 < MostChecks(p)
    requires forall x :: x in trace ==> x.until <= e.until
    ensures LocTrue(p, trace + [e], l.(fails := l.fails + 1, ready := e.until + p.retry))
  {
    FailedOnce(p, trace, l, e);
  }

  /** The queue after location `i` left it. */
  lemma {:induction false} LeftBehind(p: Params, queue: seq<Loc>, i: nat, trace: seq<Event>)
    requires i < |queue| && forall j :: 0 <= j < |queue| && j != i ==> LocTrue(p, trace, queue[j])
    ensures forall l :: l in Drop(queue, i) ==> LocTrue(p, trace, l)
  {
    var q := Drop(queue, i);
    forall j | 0 <= j < |q|
      ensures LocTrue(p, trace, q[j])
    {
      assert q[j] == queue[if j < i then j else j + 1];
    }
  }

  /** A failed check that isn't the last keeps the books true. */
  lemma RequeueKeeps(p: Params, ends: Option<nat>, b: Books, i: nat, until: nat)
    requires Kept(p, ends, b) && i < |b.queue| && b.queue[i].ready <= b.now <= until
    requires b.queue[i].fails + 1 < MostChecks(p)
    ensures Kept(p, ends, Requeue(p, b, i, until))
  {
    var l, t := b.queue[i], Requeue(p, b, i, until);
    var e := Checked(l.slot, false, b.now, until);
    RequeuedOnce(p, b, i, until);
    CheckSpaced(p, b, l, e);
    OthersStay(p, ends, b, i, [e]);
    LeftBehind(p, b.queue, i, t.trace);
    assert LocTrue(p, b.trace, l);
    Requeued(p, b.trace, l, e);
    WarningAgrees(p, b, i, until);
  }

  /** Location `i` may be closed: only it is concerned by what happened, and the outcome is true. */
  ghost predicate Closes(p: Params, ends: Option<nat>, b: Books, i: nat, outcome: Outcome, more: seq<Event>, until: nat)
    requires i < |b.queue|
  {
    && Only(more, b.queue[i].slot) && TraceTrue(p, b.trace + more)
    && (forall e :: e in more ==> e.from <= e.until <= until)
    && ResultTrue(p, ends, b.trace + more, Result(b.queue[i].slot, b.queue[i].repo, outcome))
  }

  /** A location that is done, with a true outcome, keeps the books true. */
  lemma CloseKeeps(p: Params, ends: Option<nat>, b: Books, i: nat, outcome: Outcome, more: seq<Event>, until: nat)
    requires Kept(p, ends, b) && i < |b.queue| && b.now <= until && Closes(p, ends, b, i, outcome, more, until)
    ensures Kept(p, ends, Close(b, i, outcome, more, until))
  {
    var t := Close(b, i, outcome, more, until);
    ClosedOnce(p, b, i, outcome, more, until);
    OthersStay(p, ends, b, i, more);
    ReportsAgree(b, i, outcome, more, until);
    LeftBehind(p, b.queue, i, t.trace);
  }

  /** The last failed check, or one after the context ended. */
  lemma {:induction false} UnreadableTrue(p: Params, ends: Option<nat>, trace: seq<Event>, l: Loc, e: Event)
    requires LocTrue(p, trace, l) && e.Checked? && e.slot == l.slot && !e.ok
    requires l.fails + 1 == MostChecks(p) || Ended(ends, e.until)
    ensures ResultTrue(p, ends, trace + [e], Result(l.slot, l.repo, NotReadable(l.fails + 1)))
  {
    FailedOnce(p, trace, l, e);
    assert e in trace + [e];
  }

  lemma UnreadableHolds(p: Params, ends: Option<nat>, b: Books, i: nat, until: nat)
    requires Kept(p, ends, b) && i < |b.queue| && b.queue[i].ready <= b.now <= until
    requires b.queue[i].fails + 1 == MostChecks(p) || Ended(ends, until)
    ensures var l := b.queue[i];
      Closes(p, ends, b, i, NotReadable(l.fails + 1), [Checked(l.slot, false, b.now, until)], until)
  {
    var l := b.queue[i];
    var e := Checked(l.slot, false, b.now, until);
    assert l in b.queue && LocTrue(p, b.trace, l);
    assert TraceTrue(p, b.trace + [e]) by {
      CheckSpaced(p, b, l, e);
    }
    assert ResultTrue(p, ends, b.trace + [e], Result(l.slot, l.repo, NotReadable(l.fails + 1))) by {
      UnreadableTrue(p, ends, b.trace, l, e);
    }
  }

  lemma UnreadableKeeps(p: Params, ends: Option<nat>, b: Books, i: nat, until: nat)
    requires Kept(p, ends, b) && i < |b.queue| && b.queue[i].ready <= b.now <= until
    requires b.queue[i].fails + 1 == MostChecks(p) || Ended(ends, until)
    ensures var l := b.queue[i];
      Kept(p, ends, Close(b, i, NotReadable(l.fails + 1), [Checked(l.slot, false, b.now, until)], until))
  {
    var l := b.queue[i];
    var e := Checked(l.slot, false, b.now, until);
    UnreadableHolds(p, ends, b, i, until);
    CloseKeeps(p, ends, b, i, NotReadable(l.fails + 1), [e], until);
  }

  /** A passing check and the backup right after it. */
  lemma BackedTrue(p: Params, ends: Option<nat>, trace: seq<Event>, l: Loc, e: Event, f: Event)
    requires LocTrue(p, trace, l) && e.Checked? && e.slot == l.slot && f.Backed? && f.slot == l.slot
    ensures ResultTrue(p, ends, trace + [e, f], Result(l.slot, l.repo, if f.ok then BackedUp else BackupFailed))
  {
    assert trace + [e, f] == trace + [e] + [f];
    ElsewhereOne(trace, e, l.slot);
    ElsewhereOne(trace + [e], f, l.slot);
    assert f in trace + [e, f];
  }

  lemma BackupFollows(p: Params, trace: seq<Event>, e: Event, f: Event)
    requires TraceTrue(p, trace + [e]) && e.Checked? && e.ok && f.Backed? && f.slot == e.slot && f.from == e.until
    ensures TraceTrue(p, trace + [e, f])
  {
    var t := trace + [e, f];
    assert t == trace + [e] + [f];
    forall i
      ensures Begins(t, i)
    {
      assert Begins(trace + [e], i);
    }
    forall i, j
      ensures Follows(t, i, j) && Spaced(p, t, i, j)
    {
      assert Follows(trace + [e], i, j) && Spaced(p, trace + [e], i, j);
    }
  }

  lemma BackupKeeps(p: Params, ends: Option<nat>, b: Books, i: nat, mid: nat, ok: bool, until: nat)
    requires Kept(p, ends, b) && i < |b.queue| && b.queue[i].ready <= b.now <= mid <= until
    ensures var l := b.queue[i];
      Kept(p, ends, Close(b, i, if ok then BackedUp else BackupFailed,
                          [Checked(l.slot, true, b.now, mid), Backed(l.slot, ok, mid, until)], until))
  {
    var l := b.queue[i];
    var e, f := Checked(l.slot, true, b.now, mid), Backed(l.slot, ok, mid, until);
    CheckSpaced(p, b, l, e);
    BackupFollows(p, b.trace, e, f);
    BackedTrue(p, ends, b.trace, l, e, f);
    CloseKeeps(p, ends, b, i, if ok then BackedUp else BackupFailed, [e, f], until);
  }

  lemma CutKeeps(p: Params, ends: Option<nat>, b: Books)
    requires Kept(p, ends, b) && b.queue != [] && ends.Some? && b.queue[0].fails > 0
    ensures Kept(p, ends, Close(b, 0, CutShort, [], b.now))
  {
    assert b.trace + [] == b.trace;
    assert LocTrue(p, b.trace, b.queue[0]);
    CloseKeeps(p, ends, b, 0, CutShort, [], b.now);
  }

  // ---------------------------------------------------------------- time

  /** The limits a check and a backup keep. */
  datatype Limits = Limits(check: nat, backup: nat)

  ghost predicate InLimits(lim: Limits, checks: nat -> Tried, backups: nat -> Tried) {
    (forall k :: checks(k).took <= lim.check) && (forall k :: backups(k).took <= lim.backup)
  }

  function WaitLeft(l: Loc, now: nat): nat {
    if l.ready > now then l.ready - now else 0
  }

  /** `c`, `n` times over. */
  function Times(n: int, c: int): int
    decreases n
  {
    if n <= 0 then 0 else c + Times(n - 1, c)
  }

  lemma {:induction false} TimesIsProduct(n: nat, c: int)
    ensures Times(n, c) == n * c
    ensures 0 <= c ==> Times(n, c) >= 0
  {
    if n > 0 {
      TimesIsProduct(n - 1, c);
      assert n * c == (n - 1) * c + c;
    }
  }

  /** The most a location in the queue can still take. */
  function CostOf(p: Params, lim: Limits, l: Loc, now: nat): int {
    var left := MostChecks(p) - l.fails;
    Times(left, lim.check) + Times(left - 1, p.retry) + lim.backup + WaitLeft(l, now)
  }

  /** What the first `n` locations of the queue can still take. */
  function CostUpto(p: Params, lim: Limits, queue: seq<Loc>, n: nat, now: nat): int
    requires n <= |queue|
  {
    if n == 0 then 0 else CostUpto(p, lim, queue, n - 1, now) + CostOf(p, lim, queue[n - 1], now)
  }

  function TotalCost(p: Params, lim: Limits, queue: seq<Loc>, now: nat): int {
    CostUpto(p, lim, queue, |queue|, now)
  }

  /** What the conductor allows for each location. */
  function PerLocation(p: Params, lim: Limits): int {
    MostChecks(p) * lim.check + (MostChecks(p) - 1) * p.retry + lim.backup
  }

  lemma {:induction false} CostSame(p: Params, lim: Limits, a: seq<Loc>, b: seq<Loc>, n: nat, now: nat)
    requires n <= |a| && n <= |b| && forall k :: 0 <= k < n ==> a[k] == b[k]
    ensures CostUpto(p, lim, a, n, now) == CostUpto(p, lim, b, n, now)
  {
    if n > 0 {
      CostSame(p, lim, a, b, n - 1, now);
    }
  }

  lemma {:induction false} CostAppend(p: Params, lim: Limits, a: seq<Loc>, b: seq<Loc>, n: nat, now: nat)
    requires n <= |b|
    ensures CostUpto(p, lim, a + b, |a| + n, now) == TotalCost(p, lim, a, now) + CostUpto(p, lim, b, n, now)
  {
    if n == 0 {
      CostSame(p, lim, a + b, a, |a|, now);
    } else {
      CostAppend(p, lim, a, b, n - 1, now);
    }
  }

  lemma CostConcat(p: Params, lim: Limits, a: seq<Loc>, b: seq<Loc>, now: nat)
    ensures TotalCost(p, lim, a + b, now) == TotalCost(p, lim, a, now) + TotalCost(p, lim, b, now)
  {
    CostAppend(p, lim, a, b, |b|, now);
  }

  lemma CostOne(p: Params, lim: Limits, l: Loc, now: nat)
    ensures TotalCost(p, lim, [l], now) == CostOf(p, lim, l, now)
  {
    assert CostUpto(p, lim, [l], 0, now) == 0;
  }

  lemma CostDrop(p: Params, lim: Limits, queue: seq<Loc>, i: nat, now: nat)
    requires i < |queue|
    ensures TotalCost(p, lim, Drop(queue, i), now) == TotalCost(p, lim, queue, now) - CostOf(p, lim, queue[i], now)
  {
    var l, rest := [queue[i]], queue[i + 1..];
    assert queue == queue[..i] + (l + rest);
    CostOne(p, lim, queue[i], now);
    CostConcat(p, lim, queue[..i], l + rest, now);
    CostConcat(p, lim, l, rest, now);
    CostConcat(p, lim, queue[..i], rest, now);
  }

  /** As time passes what is left never grows; while every location waits, it shrinks as fast. */
  lemma {:induction false} CostUptoLater(p: Params, lim: Limits, queue: seq<Loc>, n: nat, now: nat, later: nat)
    requires n <= |queue| && now <= later
    ensures CostUpto(p, lim, queue, n, later) <= CostUpto(p, lim, queue, n, now)
    ensures n > 0 && (forall k :: 0 <= k < n ==> later <= queue[k].ready) ==>
      later + CostUpto(p, lim, queue, n, later) <= now + CostUpto(p, lim, queue, n, now)
  {
    if n > 0 {
      CostUptoLater(p, lim, queue, n - 1, now, later);
    }
  }

  lemma CostLater(p: Params, lim: Limits, queue: seq<Loc>, now: nat, later: nat)
    requires now <= later
    ensures TotalCost(p, lim, queue, later) <= TotalCost(p, lim, queue, now)
    ensures queue != [] && (forall l :: l in queue ==> later <= l.ready) ==>
      later + TotalCost(p, lim, queue, later) <= now + TotalCost(p, lim, queue, now)
  {
    CostUptoLater(p, lim, queue, |queue|, now, later);
  }

  /** Trying a location once more costs one check and one wait less. */
  lemma CostAfterFail(p: Params, lim: Limits, l: Loc, until: nat)
    requires l.fails + 1 < MostChecks(p) && 0 <= p.retry
    ensures CostOf(p, lim, l.(fails := l.fails + 1, ready := until + p.retry), until) <=
      CostOf(p, lim, l, until) - lim.check
  {
  }

  lemma CostEnough(p: Params, lim: Limits, l: Loc, now: nat)
    requires l.fails < MostChecks(p) && 0 <= p.retry
    ensures CostOf(p, lim, l, now) >= lim.check + lim.backup + WaitLeft(l, now)
  {
    var m := MostChecks(p) - l.fails - 1;
    TimesIsProduct(m, lim.check);
    TimesIsProduct(m, p.retry);
  }

  lemma {:induction false} CostPositive(p: Params, lim: Limits, queue: seq<Loc>, n: nat, i: nat, now: nat)
    requires n <= |queue| && 0 <= p.retry && forall l :: l in queue ==> l.fails < MostChecks(p)
    ensures CostUpto(p, lim, queue, n, now) >= if i < n then CostOf(p, lim, queue[i], now) else 0
  {
    if n > 0 {
      CostEnough(p, lim, queue[n - 1], now);
      CostPositive(p, lim, queue, n - 1, i, now);
    }
  }

  /** The clock plus what is left is within the round's limit. */
  ghost predicate OnTime(p: Params, lim: Limits, b: Books, limit: int) {
    b.now + TotalCost(p, lim, b.queue, b.now) <= limit
  }

  lemma RequeueOnTime(p: Params, lim: Limits, b: Books, i: nat, until: nat, limit: int)
    requires OnTime(p, lim, b, limit) && 0 <= p.retry && i < |b.queue| && b.queue[i].fails + 1 < MostChecks(p)
    requires b.now <= until <= b.now + lim.check
    ensures OnTime(p, lim, Requeue(p, b, i, until), limit)
  {
    var l := b.queue[i];
    var back := l.(fails := l.fails + 1, ready := until + p.retry);
    CostLater(p, lim, b.queue, b.now, until);
    CostDrop(p, lim, b.queue, i, until);
    CostAfterFail(p, lim, l, until);
    CostConcat(p, lim, Drop(b.queue, i), [back], until);
    CostOne(p, lim, back, until);
  }

  lemma CloseOnTime(p: Params, lim: Limits, b: Books, i: nat, outcome: Outcome, more: seq<Event>, until: nat,
                    limit: int)
    requires OnTime(p, lim, b, limit) && 0 <= p.retry && i < |b.queue| && b.queue[i].fails < MostChecks(p)
    requires b.now <= until <= b.now + lim.check + lim.backup
    ensures OnTime(p, lim, Close(b, i, outcome, more, until), limit)
  {
    CostLater(p, lim, b.queue, b.now, until);
    CostDrop(p, lim, b.queue, i, until);
    CostEnough(p, lim, b.queue[i], until);
  }

  lemma SleepOnTime(p: Params, lim: Limits, b: Books, to: nat, limit: int)
    requires OnTime(p, lim, b, limit) && b.queue != [] && b.now <= to && forall l :: l in b.queue ==> to <= l.ready
    ensures OnTime(p, lim, b.(now := to), limit)
  {
    CostLater(p, lim, b.queue, b.now, to);
  }

  lemma {:induction false} StartCostUpto(p: Params, lim: Limits, queue: seq<Loc>, n: nat, now: nat)
    requires n <= |queue| && forall l :: l in queue ==> l.fails == 0 && l.ready <= now
    ensures CostUpto(p, lim, queue, n, now) == n * PerLocation(p, lim)
  {
    if n > 0 {
      StartCostUpto(p, lim, queue, n - 1, now);
      TimesIsProduct(MostChecks(p), lim.check);
      TimesIsProduct(MostChecks(p) - 1, p.retry);
      var c := PerLocation(p, lim);
      assert n * c == (n - 1) * c + c;
    }
  }

  lemma StartCost(p: Params, lim: Limits, queue: seq<Loc>, now: nat)
    requires forall l :: l in queue ==> l.fails == 0 && l.ready <= now
    ensures TotalCost(p, lim, queue, now) == |queue| * PerLocation(p, lim)
  {
    StartCostUpto(p, lim, queue, |queue|, now);
  }

  // ---------------------------------------------------------------- the round

  /** Checks left of one location. */
  function LeftOf(p: Params, l: Loc): nat {
    if l.fails < MostChecks(p) then MostChecks(p) - l.fails else 0
  }

  function LeftUpto(p: Params, queue: seq<Loc>, n: nat): nat
    requires n <= |queue|
  {
    if n == 0 then 0 else LeftUpto(p, queue, n - 1) + LeftOf(p, queue[n - 1])
  }

  /** Checks left in all; each turn of the loop uses one. */
  function ChecksLeft(p: Params, queue: seq<Loc>): nat {
    LeftUpto(p, queue, |queue|)
  }

  lemma {:induction false} LeftSame(p: Params, a: seq<Loc>, b: seq<Loc>, n: nat)
    requires n <= |a| && n <= |b| && forall k :: 0 <= k < n ==> a[k] == b[k]
    ensures LeftUpto(p, a, n) == LeftUpto(p, b, n)
  {
    if n > 0 {
      LeftSame(p, a, b, n - 1);
    }
  }

  lemma {:induction false} LeftAppend(p: Params, a: seq<Loc>, b: seq<Loc>, n: nat)
    requires n <= |b|
    ensures LeftUpto(p, a + b, |a| + n) == ChecksLeft(p, a) + LeftUpto(p, b, n)
  {
    if n == 0 {
      LeftSame(p, a + b, a, |a|);
    } else {
      LeftAppend(p, a, b, n - 1);
    }
  }

  lemma ChecksLeftConcat(p: Params, a: seq<Loc>, b: seq<Loc>)
    ensures ChecksLeft(p, a + b) == ChecksLeft(p, a) + ChecksLeft(p, b)
  {
    LeftAppend(p, a, b, |b|);
  }

  lemma ChecksLeftOne(p: Params, l: Loc)
    ensures ChecksLeft(p, [l]) == LeftOf(p, l)
  {
    assert LeftUpto(p, [l], 0) == 0;
  }

  lemma TurnUsesCheck(p: Params, queue: seq<Loc>, i: nat, ready: int)
    requires i < |queue| && queue[i].fails < MostChecks(p)
    ensures ChecksLeft(p, Drop(queue, i)) < ChecksLeft(p, queue)
    ensures ChecksLeft(p, Drop(queue, i) + [queue[i].(fails := queue[i].fails + 1, ready := ready)]) <
      ChecksLeft(p, queue)
  {
    var back := queue[i].(fails := queue[i].fails + 1, ready := ready);
    var rest := queue[i + 1..];
    assert queue == queue[..i] + ([queue[i]] + rest);
    ChecksLeftOne(p, queue[i]);
    ChecksLeftOne(p, back);
    ChecksLeftConcat(p, queue[..i], [queue[i]] + rest);
    ChecksLeftConcat(p, [queue[i]], rest);
    ChecksLeftConcat(p, queue[..i], rest);
    ChecksLeftConcat(p, Drop(queue, i), [back]);
  }

  /** The first location that is ready, if any. */
  method FirstReady(queue: seq<Loc>, now: nat) returns (i: nat)
    ensures i <= |queue| && (forall j :: 0 <= j < i ==> queue[j].ready > now)
    ensures i < |queue| ==> queue[i].ready <= now
  {
    i := 0;
    while i < |queue| && queue[i].ready > now
      invariant i <= |queue| && forall j :: 0 <= j < i ==> queue[j].ready > now
    {
      i := i + 1;
    }
  }

  /** When the first location is ready. */
  method FirstTime(queue: seq<Loc>) returns (t: int)
    requires queue != []
    ensures (exists l :: l in queue && l.ready == t) && forall l :: l in queue ==> t <= l.ready
  {
    t := queue[0].ready;
    for i := 1 to |queue|
      invariant (exists l :: l in queue && l.ready == t) && forall j :: 0 <= j < i ==> t <= queue[j].ready
    {
      if queue[i].ready < t {
        t := queue[i].ready;
      }
    }
  }

  method StartQueue(p: Params) returns (queue: seq<Loc>)
    ensures |queue| == |p.repos| && forall i :: 0 <= i < |queue| ==> queue[i] == Loc(i, p.repos[i], 0, 0)
  {
    queue := [];
    for i := 0 to |p.repos|
      invariant |queue| == i && forall j :: 0 <= j < i ==> queue[j] == Loc(j, p.repos[j], 0, 0)
    {
      queue := queue + [Loc(i, p.repos[i], 0, 0)];
    }
  }

  /** Nobody was cut short: every location that failed its checks had all of them. */
  predicate AllTried(p: Params, results: seq<Result>) {
    forall r :: r in results ==> !r.outcome.CutShort? && (r.outcome.NotReadable? ==> r.outcome.checks == MostChecks(p))
  }

  lemma TriedMore(p: Params, results: seq<Result>, r: Result)
    requires AllTried(p, results) && !r.outcome.CutShort?
    requires r.outcome.NotReadable? ==> r.outcome.checks == MostChecks(p)
    ensures AllTried(p, results + [r])
  {
  }

  ghost predicate Uncut(ends: Option<nat>, limit: int) {
    ends.None? || limit <= ends.value
  }

  /** Everything the loop keeps. */
  ghost predicate Going(p: Params, ends: Option<nat>, lim: Limits, steady: bool, limit: int, b: Books) {
    && Kept(p, ends, b)
    && (steady ==> 0 <= p.retry && OnTime(p, lim, b, limit))
    && (steady && 0 < lim.check + lim.backup && Uncut(ends, limit) ==> AllTried(p, b.results))
  }

  lemma StartGoing(p: Params, ends: Option<nat>, lim: Limits, steady: bool, limit: int, queue: seq<Loc>, start: nat)
    requires |queue| == |p.repos| && forall i :: 0 <= i < |queue| ==> queue[i] == Loc(i, p.repos[i], 0, 0)
    requires limit == start + |p.repos| * PerLocation(p, lim) && (steady ==> 0 <= p.retry)
    ensures Going(p, ends, lim, steady, limit, Books(queue, [], [], 0, [], start))
  {
    var all := QueueSlots(queue) + ResultSlots([]);
    assert forall i :: 0 <= i < |queue| ==> all[i] == i;
    forall k
      ensures k in all <==> 0 <= k < |p.repos|
    {
      assert 0 <= k < |queue| ==> all[k] == k;
    }
    OnceMeans(p, Books(queue, [], [], 0, [], start));
    StartCost(p, lim, queue, start);
  }

  /** Strictly before the limit, while a location is left to try. */
  lemma BeforeLimit(p: Params, lim: Limits, b: Books, limit: int, i: nat)
    requires OnTime(p, lim, b, limit) && 0 <= p.retry && i < |b.queue|
    requires forall l :: l in b.queue ==> l.fails < MostChecks(p)
    ensures b.now + lim.check + lim.backup + WaitLeft(b.queue[i], b.now) <= limit
  {
    CostPositive(p, lim, b.queue, |b.queue|, i, b.now);
    CostEnough(p, lim, b.queue[i], b.now);
  }

  lemma QueueTries(p: Params, ends: Option<nat>, b: Books)
    requires Kept(p, ends, b)
    ensures forall l :: l in b.queue ==> l.fails < MostChecks(p)
  {
  }

  lemma RequeueGoing(p: Params, ends: Option<nat>, lim: Limits, steady: bool, limit: int, b: Books, i: nat, until: nat)
    requires Going(p, ends, lim, steady, limit, b) && i < |b.queue| && b.queue[i].ready <= b.now <= until
    requires b.queue[i].fails + 1 < MostChecks(p) && (steady ==> until <= b.now + lim.check)
    ensures Going(p, ends, lim, steady, limit, Requeue(p, b, i, until))
  {
    RequeueKeeps(p, ends, b, i, until);
    if steady {
      RequeueOnTime(p, lim, b, i, until, limit);
    }
  }

  /** After a failed check the clock's bound still holds; and with checks left, the limit isn't reached. */
  lemma UnreadableOnTime(p: Params, lim: Limits, b: Books, i: nat, until: nat, limit: int)
    requires OnTime(p, lim, b, limit) && 0 <= p.retry && i < |b.queue| && b.now <= until <= b.now + lim.check
    requires forall l :: l in b.queue ==> l.fails < MostChecks(p)
    ensures var l := b.queue[i];
      OnTime(p, lim, Close(b, i, NotReadable(l.fails + 1), [Checked(l.slot, false, b.now, until)], until), limit)
    ensures b.queue[i].fails + 1 < MostChecks(p) ==> until + lim.check + lim.backup <= limit
  {
    var l := b.queue[i];
    CloseOnTime(p, lim, b, i, NotReadable(l.fails + 1), [Checked(l.slot, false, b.now, until)], until, limit);
    if l.fails + 1 < MostChecks(p) {
      RequeueOnTime(p, lim, b, i, until, limit);
      RequeueKeepsTries(p, b, i, until);
      BeforeLimit(p, lim, Requeue(p, b, i, until), limit, |b.queue| - 1);
    }
  }

  /** The check that used up the location's tries, or after which the context had ended. */
  lemma UnreadableGoing(p: Params, ends: Option<nat>, lim: Limits, steady: bool, limit: int, b: Books, i: nat,
                        until: nat)
    requires Going(p, ends, lim, steady, limit, b) && i < |b.queue| && b.queue[i].ready <= b.now <= until
    requires b.queue[i].fails + 1 == MostChecks(p) || Ended(ends, until)
    requires steady ==> until <= b.now + lim.check
    ensures var l := b.queue[i];
      Going(p, ends, lim, steady, limit,
            Close(b, i, NotReadable(l.fails + 1), [Checked(l.slot, false, b.now, until)], until))
  {
    var l := b.queue[i];
    var t := Close(b, i, NotReadable(l.fails + 1), [Checked(l.slot, false, b.now, until)], until);
    assert Kept(p, ends, t) by {
      UnreadableKeeps(p, ends, b, i, until);
    }
    if steady {
      assert OnTime(p, lim, t, limit) && l.fails < MostChecks(p)
        && (l.fails + 1 < MostChecks(p) ==> until + lim.check + lim.backup <= limit) by {
        QueueTries(p, ends, b);
        UnreadableOnTime(p, lim, b, i, until, limit);
      }
      if 0 < lim.check + lim.backup && Uncut(ends, limit) {
        TriedMore(p, b.results, Result(l.slot, l.repo, NotReadable(l.fails + 1)));
      }
    }
  }

  lemma RequeueKeepsTries(p: Params, b: Books, i: nat, until: nat)
    requires i < |b.queue| && b.queue[i].fails + 1 < MostChecks(p)
    requires forall l :: l in b.queue ==> l.fails < MostChecks(p)
    ensures forall l :: l in Requeue(p, b, i, until).queue ==> l.fails < MostChecks(p)
    ensures |Requeue(p, b, i, until).queue| == |b.queue|
  {
  }

  lemma BackupGoing(p: Params, ends: Option<nat>, lim: Limits, steady: bool, limit: int, b: Books, i: nat, mid: nat,
                    ok: bool, until: nat)
    requires Going(p, ends, lim, steady, limit, b) && i < |b.queue| && b.queue[i].ready <= b.now <= mid <= until
    requires steady ==> mid <= b.now + lim.check && until <= mid + lim.backup
    ensures var l := b.queue[i];
      Going(p, ends, lim, steady, limit,
            Close(b, i, if ok then BackedUp else BackupFailed,
                  [Checked(l.slot, true, b.now, mid), Backed(l.slot, ok, mid, until)], until))
  {
    var l := b.queue[i];
    BackupKeeps(p, ends, b, i, mid, ok, until);
    QueueTries(p, ends, b);
    if steady {
      CloseOnTime(p, lim, b, i, if ok then BackedUp else BackupFailed,
                  [Checked(l.slot, true, b.now, mid), Backed(l.slot, ok, mid, until)], until, limit);
    }
  }

  lemma KeptLater(p: Params, ends: Option<nat>, b: Books, to: nat)
    requires Kept(p, ends, b) && b.now <= to
    ensures Kept(p, ends, b.(now := to))
  {
    OnceMeans(p, b);
    OnceMeans(p, b.(now := to));
    ReportedMeans(b);
    ReportedMeans(b.(now := to));
  }

  lemma SleepGoing(p: Params, ends: Option<nat>, lim: Limits, steady: bool, limit: int, b: Books, to: nat)
    requires Going(p, ends, lim, steady, limit, b) && b.queue != [] && b.now <= to
    requires forall l :: l in b.queue ==> to <= l.ready
    ensures Going(p, ends, lim, steady, limit, b.(now := to))
  {
    KeptLater(p, ends, b, to);
    if steady {
      SleepOnTime(p, lim, b, to, limit);
    }
  }

  /** A sleep can't outlast a context that leaves the round its limit. */
  lemma SleepCut(p: Params, ends: Option<nat>, lim: Limits, steady: bool, limit: int, b: Books, to: nat)
    requires Going(p, ends, lim, steady, limit, b) && b.queue != [] && b.now <= to
    requires forall l :: l in b.queue ==> to <= l.ready
    requires Ended(ends, to)
    ensures !(steady && 0 < lim.check + lim.backup && Uncut(ends, limit))
  {
    SleepGoing(p, ends, lim, steady, limit, b, to);
    QueueTries(p, ends, b);
    if steady {
      BeforeLimit(p, lim, b.(now := to), limit, 0);
    }
  }

  /** Each location in the queue was tried: with none ready, none is new. */
  predicate AllBegun(queue: seq<Loc>) {
    forall l :: l in queue ==> l.fails > 0
  }

  lemma NoneNew(p: Params, ends: Option<nat>, b: Books)
    requires Kept(p, ends, b) && !SomeReady(b)
    ensures AllBegun(b.queue)
  {
    forall l | l in b.queue
      ensures l.fails > 0
    {
      assert LocTrue(p, b.trace, l);
    }
  }

  predicate CutAs(l: Loc, r: Result) {
    r == Result(l.slot, l.repo, CutShort)
  }

  /** All in the queue are done without a backup, in turn. */
  ghost predicate CutAll(b: Books, t: Books) {
    && t.trace == b.trace && t.now == b.now && b.results <= t.results && b.reports <= t.reports
    && |b.results| + |b.queue| == |t.results| + |t.queue|
    && (forall i :: |b.results| <= i < |t.results| ==>
          i - |b.results| < |b.queue| && CutAs(b.queue[i - |b.results|], t.results[i]))
    && (forall i :: |b.reports| <= i < |t.reports| ==> t.reports[i].Failure?)
  }

  /** The context ended during a wait: every location left is done without a backup. */
  method RoundEnds(p: Params, ends: Option<nat>, b: Books) returns (t: Books)
    requires Kept(p, ends, b) && ends.Some? && AllBegun(b.queue)
    ensures Kept(p, ends, t) && t.queue == [] && CutAll(b, t)
  {
    t := b;
    while t.queue != []
      invariant Kept(p, ends, t) && AllBegun(t.queue) && |t.queue| <= |b.queue| && CutAll(b, t)
      invariant t.queue == b.queue[|b.queue| - |t.queue|..]
      decreases |t.queue|
    {
      CutKeeps(p, ends, t);
      t := Close(t, 0, CutShort, [], t.now);
    }
  }

  /** Either way a failed check leaves fewer to make. */
  lemma CheckUsed(p: Params, ends: Option<nat>, b: Books, i: nat, mid: nat)
    requires Kept(p, ends, b) && i < |b.queue|
    ensures b.queue[i].fails + 1 >= p.tries <==> b.queue[i].fails + 1 == MostChecks(p)
    ensures b.queue[i].fails < MostChecks(p)
    ensures ChecksLeft(p, Drop(b.queue, i)) < ChecksLeft(p, b.queue)
    ensures ChecksLeft(p, Requeue(p, b, i, mid).queue) < ChecksLeft(p, b.queue)
  {
    QueueTries(p, ends, b);
    TurnUsesCheck(p, b.queue, i, mid + p.retry);
  }

  /** What a turn of location `slot` puts on the trace, given the answers to its check and its backup. */
  function TurnEvents(slot: nat, now: nat, check: Tried, backup: Tried): seq<Event> {
    var mid := now + check.took;
    [Checked(slot, check.ok, now, mid)] + if check.ok then [Backed(slot, backup.ok, mid, mid + backup.took)] else []
  }

  /** Whether a failed check leaves the location in the queue. */
  predicate TriesAgain(p: Params, ends: Option<nat>, l: Loc, mid: nat) {
    l.fails + 1 < p.tries && !Ended(ends, mid)
  }

  /**
   * A turn of location `i`: exactly the events answered; it leaves the queue, at whose end it is
   * put back, with one failure more, a wait and a warning, if it failed a check and may try again.
   */
  ghost predicate Taken(p: Params, ends: Option<nat>, b: Books, i: nat, check: Tried, backup: Tried, t: Books)
    requires i < |b.queue|
  {
    var l, mid := b.queue[i], b.now + check.took;
    var again := !check.ok && TriesAgain(p, ends, l, mid);
    && t.trace == b.trace + TurnEvents(l.slot, b.now, check, backup)
    && t.now == mid + (if check.ok then backup.took else 0)
    && t.queue == Drop(b.queue, i) + (if again then [Loc(l.slot, l.repo, l.fails + 1, mid + p.retry)] else [])
    && (again ==> t.results == b.results && t.reports == b.reports + [Warning(l.slot, l.fails + 1)])
    && (!again ==> |t.results| == |b.results| + 1 && t.results[|b.results|].slot == l.slot && b.results <= t.results)
    && (!again ==> !t.results[|b.results|].outcome.CutShort?)
    && (!again ==> t.reports == b.reports + if check.ok && backup.ok then [] else [Failure(l.slot)])
  }

  lemma BackupTaken(p: Params, ends: Option<nat>, b: Books, i: nat, check: Tried, backup: Tried, t: Books)
    requires i < |b.queue| && check.ok
    requires var l, mid := b.queue[i], b.now + check.took;
      t == Close(b, i, if backup.ok then BackedUp else BackupFailed,
                 [Checked(l.slot, true, b.now, mid), Backed(l.slot, backup.ok, mid, mid + backup.took)],
                 mid + backup.took)
    ensures Taken(p, ends, b, i, check, backup, t)
  {
    assert Drop(b.queue, i) + [] == Drop(b.queue, i) && b.reports + [] == b.reports;
  }

  lemma FailedTaken(p: Params, ends: Option<nat>, b: Books, i: nat, mid: nat, t: Books)
    requires i < |b.queue| && b.now <= mid
    requires var l := b.queue[i];
      t == if TriesAgain(p, ends, l, mid) then Requeue(p, b, i, mid)
        else Close(b, i, NotReadable(l.fails + 1), [Checked(l.slot, false, b.now, mid)], mid)
    ensures Taken(p, ends, b, i, Tried(false, mid - b.now), Tried(false, 0), t)
  {
    var events := TurnEvents(b.queue[i].slot, b.now, Tried(false, mid - b.now), Tried(false, 0));
    assert events == [Checked(b.queue[i].slot, false, b.now, mid)];
    assert Drop(b.queue, i) + [] == Drop(b.queue, i);
  }

  /** Location `i` failed its check: it is queued again, or done. */
  method CheckFailed(p: Params, ends: Option<nat>, b: Books, i: nat, mid: nat, ghost lim: Limits, ghost steady: bool,
                     ghost limit: int)
    returns (t: Books)
    requires Going(p, ends, lim, steady, limit, b) && i < |b.queue| && b.queue[i].ready <= b.now <= mid
    requires steady ==> mid <= b.now + lim.check
    ensures Going(p, ends, lim, steady, limit, t) && t.now == mid && ChecksLeft(p, t.queue) < ChecksLeft(p, b.queue)
    ensures Taken(p, ends, b, i, Tried(false, mid - b.now), Tried(false, 0), t)
  {
    var l := b.queue[i];
    CheckUsed(p, ends, b, i, mid);
    if l.fails + 1 >= p.tries || Ended(ends, mid) {
      UnreadableGoing(p, ends, lim, steady, limit, b, i, mid);
      t := Close(b, i, NotReadable(l.fails + 1), [Checked(l.slot, false, b.now, mid)], mid);
    } else {
      RequeueGoing(p, ends, lim, steady, limit, b, i, mid);
      t := Requeue(p, b, i, mid);
    }
    FailedTaken(p, ends, b, i, mid, t);
  }

  /** The turn of location `i`: its check and, if that passes, its backup. */
  method Turn(p: Params, ends: Option<nat>, b: Books, i: nat, check: Tried, backup: Tried, ghost lim: Limits,
              ghost steady: bool, ghost limit: int) returns (t: Books)
    requires Going(p, ends, lim, steady, limit, b) && i < |b.queue| && b.queue[i].ready <= b.now
    requires steady ==> check.took <= lim.check && backup.took <= lim.backup
    ensures Going(p, ends, lim, steady, limit, t) && b.now <= t.now && ChecksLeft(p, t.queue) < ChecksLeft(p, b.queue)
    ensures Taken(p, ends, b, i, check, backup, t)
  {
    var l, mid := b.queue[i], b.now + check.took;
    if !check.ok {
      t := CheckFailed(p, ends, b, i, mid, lim, steady, limit);
    } else {
      var until := mid + backup.took;
      QueueTries(p, ends, b);
      TurnUsesCheck(p, b.queue, i, 0);
      BackupGoing(p, ends, lim, steady, limit, b, i, mid, backup.ok, until);
      t := Close(b, i, if backup.ok then BackedUp else BackupFailed,
                 [Checked(l.slot, true, b.now, mid), Backed(l.slot, backup.ok, mid, until)], until);
      BackupTaken(p, ends, b, i, check, backup, t);
    }
  }

  predicate SomeReady(b: Books) {
    exists l :: l in b.queue && l.ready <= b.now
  }

  /** A wait is until the first location is ready, or until the context ended if that isn't later. */
  ghost predicate Rested(ends: Option<nat>, b: Books, tie: bool, now: int, go: bool) {
    && (go ==> (exists l :: l in b.queue && l.ready == now) && forall l :: l in b.queue ==> now <= l.ready)
    && (go ==> ends.None? || now < ends.value || (now == ends.value && !tie))
    && (!go ==> ends.Some? && now == (if ends.value < b.now then b.now else ends.value))
    && (!go ==> forall l :: l in b.queue ==> ends.value <= l.ready && (ends.value == l.ready ==> tie))
  }

  /** Waits for the first location to be ready; false if the context ended first. */
  method Rest(p: Params, ends: Option<nat>, b: Books, tie: bool, ghost lim: Limits, ghost steady: bool,
              ghost limit: int)
    returns (t: Books, go: bool)
    requires Going(p, ends, lim, steady, limit, b) && b.queue != [] && !SomeReady(b)
    ensures Going(p, ends, lim, steady, limit, t) && (go ==> SomeReady(t)) && t == b.(now := t.now) && b.now <= t.now
    ensures steady ==> t.now <= limit
    ensures Rested(ends, b, tie, t.now, go)
    ensures !go ==> !(steady && 0 < lim.check + lim.backup && Uncut(ends, limit))
  {
    var to := FirstTime(b.queue);
    go := !(ends.Some? && (ends.value < to || (ends.value == to && tie)));
    if go {
      SleepGoing(p, ends, lim, steady, limit, b, to);
      t := b.(now := to);
    } else {
      var now := if ends.value < b.now then b.now else ends.value;
      SleepCut(p, ends, lim, steady, limit, b, now);
      SleepGoing(p, ends, lim, steady, limit, b, now);
      t := b.(now := now);
    }
    QueueTries(p, ends, t);
    if steady {
      BeforeLimit(p, lim, t, limit, 0);
    }
  }

  // ---------------------------------------------------------------- the round is the one answered

  /** Event `i` is as the answers of turn `turns[i]` say. */
  predicate AnsweredAt(checks: nat -> Tried, backups: nat -> Tried, trace: seq<Event>, turns: seq<nat>, i: int) {
    0 <= i < |trace| && i < |turns| ==>
      var e, a := trace[i], if trace[i].Checked? then checks(turns[i]) else backups(turns[i]);
      e.ok == a.ok && e.until == e.from + a.took
  }

  /** Event `j`, right after event `i`: the backup of the same turn if `i` is a check that passed, else a later turn. */
  predicate NextAnswered(trace: seq<Event>, turns: seq<nat>, i: int, j: int) {
    0 <= i && j == i + 1 && j < |trace| && j < |turns| ==>
      if trace[i].Checked? && trace[i].ok then trace[j].Backed? && turns[j] == turns[i]
      else trace[j].Checked? && turns[i] < turns[j]
  }

  /** The trace is what happened in turns below `k`, in order; a check that passed is never left without its backup. */
  ghost predicate FromAnswers(checks: nat -> Tried, backups: nat -> Tried, trace: seq<Event>, turns: seq<nat>, k: nat) {
    && |turns| == |trace| && (forall i :: AnsweredAt(checks, backups, trace, turns, i))
    && (forall i, j :: NextAnswered(trace, turns, i, j)) && Complete(trace, turns, k)
  }

  predicate Complete(trace: seq<Event>, turns: seq<nat>, k: nat) {
    0 < |trace| == |turns| ==>
      var last := |trace| - 1;
      turns[last] < k && !(trace[last].Checked? && trace[last].ok)
  }

  lemma TurnAnswered(checks: nat -> Tried, backups: nat -> Tried, trace: seq<Event>, turns: seq<nat>, k: nat, slot: nat,
                     now: nat) returns (more: seq<nat>)
    requires FromAnswers(checks, backups, trace, turns, k)
    ensures var t := trace + TurnEvents(slot, now, checks(k), backups(k));
      FromAnswers(checks, backups, t, turns + more, k + 1)
  {
    var events := TurnEvents(slot, now, checks(k), backups(k));
    more := if checks(k).ok then [k, k] else [k];
    var t, us, last := trace + events, turns + more, |trace| - 1;
    forall i
      ensures AnsweredAt(checks, backups, t, us, i)
    {
      assert AnsweredAt(checks, backups, trace, turns, i);
      assert |trace| <= i < |t| ==> t[i] == events[i - |trace|] && us[i] == k;
    }
    forall i, j
      ensures NextAnswered(t, us, i, j)
    {
      assert NextAnswered(trace, turns, i, j);
      assert |trace| <= i < |t| ==> t[i] == events[i - |trace|] && us[i] == k;
      assert |trace| <= j < |t| ==> t[j] == events[j - |trace|] && us[j] == k;
      assert 0 <= i == last ==> t[i] == trace[last] && us[i] == turns[last];
    }
  }

  // ---------------------------------------------------------------- warnings

  /** `slot` is done, otherwise than by being cut short. */
  predicate Final(results: seq<Result>, slot: nat) {
    exists r :: r in results && r.slot == slot && !r.outcome.CutShort?
  }

  /** The checks of `slot` after which it was to be tried again. */
  function Retried(b: Books, slot: nat): int {
    ChecksOf(b.trace, slot) - if Final(b.results, slot) then 1 else 0
  }

  /** Just the failed checks that weren't a location's last are warned about, by their number. */
  ghost predicate Warned(b: Books) {
    forall slot, n :: WarnedAt(b, slot, n)
  }

  predicate WarnedAt(b: Books, slot: nat, n: nat) {
    Warning(slot, n) in b.reports <==> 1 <= n <= Retried(b, slot)
  }

  lemma TurnWarned(p: Params, ends: Option<nat>, b: Books, i: nat, check: Tried, backup: Tried, t: Books)
    requires Kept(p, ends, b) && Warned(b) && i < |b.queue| && Taken(p, ends, b, i, check, backup, t)
    ensures Warned(t)
  {
    var l := b.queue[i];
    assert l in b.queue && LocTrue(p, b.trace, l);
    SlotOnce(p, b, i);
    forall slot, n
      ensures WarnedAt(t, slot, n)
    {
      assert WarnedAt(b, slot, n);
      TurnChecks(b.trace, l.slot, b.now, check, backup, slot);
      assert Final(t.results, slot) <==> Final(b.results, slot) || (slot == l.slot && |t.results| > |b.results|) by {
        FinalMore(b.results, t.results, l.slot, slot);
      }
    }
  }

  lemma FinalMore(a: seq<Result>, b: seq<Result>, slot: nat, k: nat)
    requires a == b || (|b| == |a| + 1 && a <= b && b[|a|].slot == slot && !b[|a|].outcome.CutShort?)
    ensures Final(b, k) <==> Final(a, k) || (k == slot && |b| > |a|)
  {
    if |b| > |a| {
      assert b == a + [b[|a|]];
      assert b[|a|] in b;
    }
  }

  lemma TurnChecks(trace: seq<Event>, slot: nat, now: nat, check: Tried, backup: Tried, k: nat)
    ensures ChecksOf(trace + TurnEvents(slot, now, check, backup), k) == ChecksOf(trace, k) + if k == slot then 1 else 0
  {
    var e := Checked(slot, check.ok, now, now + check.took);
    ElsewhereOne(trace, e, k);
    if check.ok {
      var f := Backed(slot, backup.ok, now + check.took, now + check.took + backup.took);
      assert trace + [e, f] == trace + [e] + [f];
      ElsewhereOne(trace + [e], f, k);
      assert TurnEvents(slot, now, check, backup) == [e, f];
    } else {
      assert TurnEvents(slot, now, check, backup) == [e];
    }
  }

  lemma CutWarned(b: Books, t: Books)
    requires Warned(b) && CutAll(b.(now := t.now), t)
    ensures Warned(t)
  {
    forall slot, n
      ensures WarnedAt(t, slot, n)
    {
      assert WarnedAt(b, slot, n);
      assert forall r :: r in t.results && r !in b.results ==> r.outcome.CutShort?;
      assert Final(t.results, slot) <==> Final(b.results, slot);
    }
  }

  // ---------------------------------------------------------------- the order of checks

  /** Some event before the `j`th is a check of `slot`. */
  predicate CheckedBefore(trace: seq<Event>, j: nat, slot: nat) {
    exists i :: 0 <= i < j && i < |trace| && trace[i].Checked? && trace[i].slot == slot
  }

  /** Event `j`, if a check: the locations before it, or all if it is a second check, were checked before. */
  predicate InTurn(n: nat, trace: seq<Event>, j: nat, a: nat) {
    j < |trace| && trace[j].Checked? && (a < trace[j].slot || (a < n && CheckedBefore(trace, j, trace[j].slot))) ==>
      CheckedBefore(trace, j, a)
  }

  /** Locations get their first check in order, and before any gets a second. */
  ghost predicate FirstInOrder(n: nat, trace: seq<Event>) {
    forall j, a :: InTurn(n, trace, j, a)
  }

  /** The first `c` locations were checked; the others head the queue, in order. */
  ghost predicate HeadsQueue(p: Params, b: Books, c: nat) {
    && c <= |p.repos| && |p.repos| - c <= |b.queue|
    && (forall i :: 0 <= i < |p.repos| - c ==> b.queue[i] == Loc(c + i, p.repos[c + i], 0, 0))
    && (forall i :: |p.repos| - c <= i < |b.queue| ==> b.queue[i].fails > 0)
    && (forall a: nat :: a < c ==> CheckedBefore(b.trace, |b.trace|, a))
  }

  lemma CheckedLater(trace: seq<Event>, more: seq<Event>, j: nat, slot: nat)
    requires j <= |trace|
    ensures CheckedBefore(trace + more, j, slot) <==> CheckedBefore(trace, j, slot)
    ensures CheckedBefore(trace, |trace|, slot) ==> CheckedBefore(trace + more, |trace + more|, slot)
  {
    var t := trace + more;
    if i :| 0 <= i < j && i < |t| && t[i].Checked? && t[i].slot == slot {
      assert t[i] == trace[i];
    }
    forall i | 0 <= i < |trace|
      ensures t[i] == trace[i]
    {
    }
  }

  /** A check is in turn if its location is the next new one, or no location is new. */
  lemma MoreInOrder(n: nat, trace: seq<Event>, events: seq<Event>, c: nat, slot: nat)
    requires FirstInOrder(n, trace) && (forall a: nat :: a < c ==> CheckedBefore(trace, |trace|, a)) && c <= n
    requires 0 < |events| && events[0].Checked? && events[0].slot == slot
    requires forall i :: 0 < i < |events| ==> !events[i].Checked?
    requires c == n || (slot == c && !CheckedBefore(trace, |trace|, slot))
    requires slot < n
    ensures FirstInOrder(n, trace + events)
  {
    var t := trace + events;
    forall j: nat, a: nat
      ensures InTurn(n, t, j, a)
    {
      if j < |trace| {
        assert InTurn(n, trace, j, a) && t[j] == trace[j];
        CheckedLater(trace, events, j, a);
        CheckedLater(trace, events, j, trace[j].slot);
      } else if j < |t| {
        assert t[j] == events[j - |trace|];
        if j == |trace| {
          CheckedLater(trace, events, j, a);
          CheckedLater(trace, events, j, slot);
        }
      }
    }
  }

  lemma HeadsOn(p: Params, ends: Option<nat>, b: Books, i: nat, check: Tried, backup: Tried, t: Books, c: nat)
    requires Kept(p, ends, b) && HeadsQueue(p, b, c) && i < |b.queue| && Taken(p, ends, b, i, check, backup, t)
    requires c < |p.repos| ==> i == 0
    ensures HeadsQueue(p, t, if c < |p.repos| then c + 1 else c)
  {
    var l := b.queue[i];
    var events := TurnEvents(l.slot, b.now, check, backup);
    var d := if c < |p.repos| then c + 1 else c;
    forall j | 0 <= j < |t.queue|
      ensures j < |p.repos| - d ==> t.queue[j] == Loc(d + j, p.repos[d + j], 0, 0)
      ensures |p.repos| - d <= j ==> t.queue[j].fails > 0
    {
      var q := Drop(b.queue, i);
      assert j < |q| ==> t.queue[j] == q[j] == b.queue[if j < i then j else j + 1];
    }
    forall a: nat | a < d
      ensures CheckedBefore(t.trace, |t.trace|, a)
    {
      CheckedLater(b.trace, events, |b.trace|, a);
      assert t.trace[|b.trace|] == events[0];
    }
  }

  /** A location in the queue that never failed wasn't checked. */
  lemma NewUnchecked(p: Params, ends: Option<nat>, b: Books, i: nat)
    requires Kept(p, ends, b) && i < |b.queue| && b.queue[i].fails == 0
    ensures !CheckedBefore(b.trace, |b.trace|, b.queue[i].slot) && b.queue[i].ready == 0
  {
    var l := b.queue[i];
    assert l in b.queue && LocTrue(p, b.trace, l);
    assert ChecksAt(b.trace, l.slot) == {};
    forall j: nat | j < |b.trace|
      ensures !(b.trace[j].Checked? && b.trace[j].slot == l.slot)
    {
      assert j !in ChecksAt(b.trace, l.slot);
    }
  }

  // ---------------------------------------------------------------- no time is wasted

  /** A check of `slot` before the `j`th event failed, and was to be made again at `due` or later. */
  predicate DueAt(p: Params, trace: seq<Event>, j: nat, slot: nat, due: int) {
    exists i ::
      && 0 <= i < j && i < |trace| && trace[i].Checked? && trace[i].slot == slot && !trace[i].ok
      && trace[i].until + p.retry == due
  }

  function LastTime(trace: seq<Event>, j: nat, start: nat): nat
    requires j <= |trace|
  {
    if j == 0 then start else trace[j - 1].until
  }

  /** Event `j` starts when the one before it ended, or it is a check made at the moment it was due. */
  predicate Prompt(p: Params, ends: Option<nat>, trace: seq<Event>, start: nat, j: nat) {
    j < |trace| ==>
      || trace[j].from == LastTime(trace, j, start)
      || (trace[j].Checked? && InTime(ends, trace[j].from) && DueAt(p, trace, j, trace[j].slot, trace[j].from))
  }

  /** No wait lasts beyond the end of the context. */
  predicate InTime(ends: Option<nat>, now: nat) {
    ends.None? || now <= ends.value
  }

  /** A location cut short: the context ended before its next check was due. */
  ghost predicate CutInTime(p: Params, ends: Option<nat>, trace: seq<Event>, r: Result) {
    r.outcome.CutShort? ==> ends.Some? && exists due :: ends.value <= due && DueAt(p, trace, |trace|, r.slot, due)
  }

  ghost predicate Punctual(p: Params, ends: Option<nat>, b: Books, start: nat) {
    (forall j :: Prompt(p, ends, b.trace, start, j)) && forall r :: r in b.results ==> CutInTime(p, ends, b.trace, r)
  }

  /** Between turns: what was queued again is queued until it is due, and no time has passed but in a wait. */
  ghost predicate Timely(p: Params, ends: Option<nat>, b: Books, start: nat) {
    && start <= b.now && Punctual(p, ends, b, start)
    && (forall l :: l in b.queue && l.fails > 0 ==> DueAt(p, b.trace, |b.trace|, l.slot, l.ready))
    && (b.now == LastTime(b.trace, |b.trace|, start)
        || (InTime(ends, b.now) && forall l :: l in b.queue ==> b.now <= l.ready))
  }

  lemma DueLater(p: Params, trace: seq<Event>, more: seq<Event>, j: nat, slot: nat, due: int)
    requires DueAt(p, trace, j, slot, due)
    ensures DueAt(p, trace + more, j, slot, due) && DueAt(p, trace + more, |trace + more|, slot, due)
  {
    var i :| 0 <= i < j && i < |trace| && trace[i].Checked? && trace[i].slot == slot && !trace[i].ok
      && trace[i].until + p.retry == due;
    assert (trace + more)[i] == trace[i];
  }

  lemma CutLater(p: Params, ends: Option<nat>, trace: seq<Event>, more: seq<Event>, r: Result)
    requires CutInTime(p, ends, trace, r)
    ensures CutInTime(p, ends, trace + more, r)
  {
    if r.outcome.CutShort? {
      var due :| ends.value <= due && DueAt(p, trace, |trace|, r.slot, due);
      DueLater(p, trace, more, |trace|, r.slot, due);
    }
  }

  /** A turn starts at once, or at the moment the location is due. */
  lemma TurnPrompt(p: Params, ends: Option<nat>, trace: seq<Event>, start: nat, slot: nat, now: nat, check: Tried,
                   backup: Tried)
    requires forall j :: Prompt(p, ends, trace, start, j)
    requires now == LastTime(trace, |trace|, start) || (InTime(ends, now) && DueAt(p, trace, |trace|, slot, now))
    ensures forall j :: Prompt(p, ends, trace + TurnEvents(slot, now, check, backup), start, j)
  {
    var events := TurnEvents(slot, now, check, backup);
    var t := trace + events;
    forall j: nat
      ensures Prompt(p, ends, t, start, j)
    {
      assert Prompt(p, ends, trace, start, j);
      if j < |trace| {
        assert t[j] == trace[j] && (j > 0 ==> t[j - 1] == trace[j - 1]);
        if DueAt(p, trace, j, trace[j].slot, trace[j].from) {
          DueLater(p, trace, events, j, trace[j].slot, trace[j].from);
        }
      } else if j < |t| {
        assert t[j] == events[j - |trace|];
        assert j > 0 ==> t[j - 1] == if j == |trace| then trace[j - 1] else events[0];
        if DueAt(p, trace, |trace|, slot, now) {
          DueLater(p, trace, events, |trace|, slot, now);
        }
      }
    }
  }

  lemma TurnTimely(p: Params, ends: Option<nat>, b: Books, i: nat, check: Tried, backup: Tried, t: Books, start: nat)
    requires Kept(p, ends, b) && Timely(p, ends, b, start) && i < |b.queue| && b.queue[i].ready <= b.now
    requires Taken(p, ends, b, i, check, backup, t)
    ensures Timely(p, ends, t, start)
  {
    var l := b.queue[i];
    assert l in b.queue && LocTrue(p, b.trace, l);
    var events := TurnEvents(l.slot, b.now, check, backup);
    assert b.trace != [] ==> b.trace[|b.trace| - 1] in b.trace;
    assert b.now == LastTime(b.trace, |b.trace|, start) || l.ready == b.now;
    TurnPrompt(p, ends, b.trace, start, l.slot, b.now, check, backup);
    forall r | r in t.results
      ensures CutInTime(p, ends, t.trace, r)
    {
      if r in b.results {
        CutLater(p, ends, b.trace, events, r);
      }
    }
    forall m | m in t.queue && m.fails > 0
      ensures DueAt(p, t.trace, |t.trace|, m.slot, m.ready)
    {
      if m in b.queue {
        DueLater(p, b.trace, events, |b.trace|, m.slot, m.ready);
      } else {
        assert t.trace[|b.trace|] == events[0];
      }
    }
    assert t.trace[|t.trace| - 1] == events[|events| - 1];
  }

  lemma RestTimely(p: Params, ends: Option<nat>, b: Books, tie: bool, now: nat, start: nat)
    requires Timely(p, ends, b, start) && Rested(ends, b, tie, now, true) && b.now <= now
    ensures Timely(p, ends, b.(now := now), start)
  {
  }

  lemma CutPunctual(p: Params, ends: Option<nat>, b: Books, tie: bool, now: nat, start: nat, t: Books)
    requires Timely(p, ends, b, start) && Rested(ends, b, tie, now, false) && AllBegun(b.queue)
    requires CutAll(b.(now := now), t)
    ensures Punctual(p, ends, t, start)
  {
    forall r | r in t.results
      ensures CutInTime(p, ends, t.trace, r)
    {
      if r !in b.results {
        forall j | 0 <= j < |b.results|
          ensures t.results[j] in b.results
        {
          assert t.results[j] == b.results[j];
        }
        var i :| 0 <= i < |t.results| && t.results[i] == r;
        var l := b.queue[i - |b.results|];
        assert l in b.queue && CutAs(l, r);
      }
    }
  }

  // ---------------------------------------------------------------- the whole round

  /** What is true of the answers, the warnings, the order of checks and their times. */
  ghost predicate Accounted(p: Params, ends: Option<nat>, checks: nat -> Tried, backups: nat -> Tried, b: Books,
                            start: nat, turns: seq<nat>, k: nat) {
    && FromAnswers(checks, backups, b.trace, turns, k) && Warned(b) && FirstInOrder(|p.repos|, b.trace)
    && Punctual(p, ends, b, start)
  }

  /** What the loop keeps about the answers it got, the warnings it gave and the order it went in. */
  ghost predicate Honest(p: Params, ends: Option<nat>, checks: nat -> Tried, backups: nat -> Tried, b: Books,
                         start: nat, turns: seq<nat>, k: nat, c: nat) {
    Accounted(p, ends, checks, backups, b, start, turns, k) && HeadsQueue(p, b, c) && Timely(p, ends, b, start)
  }

  lemma TurnHonest(p: Params, ends: Option<nat>, checks: nat -> Tried, backups: nat -> Tried, b: Books, start: nat,
                   turns: seq<nat>, k: nat, c: nat, i: nat, t: Books) returns (more: seq<nat>, d: nat)
    requires Kept(p, ends, b) && Honest(p, ends, checks, backups, b, start, turns, k, c)
    requires i < |b.queue| && b.queue[i].ready <= b.now && forall j :: 0 <= j < i ==> b.queue[j].ready > b.now
    requires Taken(p, ends, b, i, checks(k), backups(k), t)
    ensures Honest(p, ends, checks, backups, t, start, turns + more, k + 1, d)
  {
    TurnTimely(p, ends, b, i, checks(k), backups(k), t, start);
    var l := b.queue[i];
    assert l in b.queue && LocTrue(p, b.trace, l);
    d := if c < |p.repos| then c + 1 else c;
    more := TurnAnswered(checks, backups, b.trace, turns, k, l.slot, b.now);
    TurnWarned(p, ends, b, i, checks(k), backups(k), t);
    if c < |p.repos| {
      assert b.queue[0] == Loc(c, p.repos[c], 0, 0);
      NewUnchecked(p, ends, b, 0);
      assert i == 0;
    }
    HeadsOn(p, ends, b, i, checks(k), backups(k), t, c);
    MoreInOrder(|p.repos|, b.trace, TurnEvents(l.slot, b.now, checks(k), backups(k)), c, l.slot);
  }

  /** Waiting changes nothing of that. */
  lemma LaterHonest(p: Params, ends: Option<nat>, checks: nat -> Tried, backups: nat -> Tried, b: Books, start: nat,
                    turns: seq<nat>, k: nat, c: nat, tie: bool, t: Books)
    requires Honest(p, ends, checks, backups, b, start, turns, k, c)
    requires t == b.(now := t.now) && b.now <= t.now && Rested(ends, b, tie, t.now, true)
    ensures Honest(p, ends, checks, backups, t, start, turns, k + 1, c)
  {
    RestTimely(p, ends, b, tie, t.now, start);
    forall slot, n
      ensures WarnedAt(t, slot, n)
    {
      assert WarnedAt(b, slot, n);
    }
  }

  /** Nor does cutting short the locations left. */
  lemma CutHonest(p: Params, ends: Option<nat>, checks: nat -> Tried, backups: nat -> Tried, b: Books, start: nat,
                  turns: seq<nat>, k: nat, c: nat, tie: bool, rested: Books, t: Books)
    requires Honest(p, ends, checks, backups, b, start, turns, k, c) && AllBegun(b.queue)
    requires rested == b.(now := rested.now) && Rested(ends, b, tie, rested.now, false) && CutAll(rested, t)
    ensures Accounted(p, ends, checks, backups, t, start, turns, k)
  {
    CutPunctual(p, ends, b, tie, rested.now, start, t);
    CutWarned(b, t);
  }

  // ---------------------------------------------------------------- what the answers decide

  /** Every event is one of the answers. */
  lemma EventAnswered(checks: nat -> Tried, backups: nat -> Tried, trace: seq<Event>, turns: seq<nat>, k: nat, e: Event)
    requires FromAnswers(checks, backups, trace, turns, k) && e in trace
    ensures exists n :: if e.Checked? then e.ok == checks(n).ok else e.ok == backups(n).ok
  {
    var i :| 0 <= i < |trace| && trace[i] == e;
    assert AnsweredAt(checks, backups, trace, turns, i);
  }

  /** A location checked and never passed has a check that was answered with a failure. */
  lemma SomeCheckFailed(checks: nat -> Tried, backups: nat -> Tried, trace: seq<Event>, turns: seq<nat>, k: nat,
                        slot: nat)
    requires FromAnswers(checks, backups, trace, turns, k) && NeverPassed(trace, slot) && ChecksOf(trace, slot) > 0
    ensures exists n :: !checks(n).ok
  {
    var i :| i in ChecksAt(trace, slot);
    assert trace[i] in trace && AnsweredAt(checks, backups, trace, turns, i);
  }

  /** With no backup that works, no location is backed up. */
  lemma NothingBackedUp(p: Params, ends: Option<nat>, checks: nat -> Tried, backups: nat -> Tried, b: Books,
                        turns: seq<nat>, k: nat)
    requires Kept(p, ends, b) && FromAnswers(checks, backups, b.trace, turns, k) && forall n :: !backups(n).ok
    ensures forall r :: r in b.results ==> !r.outcome.BackedUp?
  {
    forall r | r in b.results
      ensures !r.outcome.BackedUp?
    {
      assert ResultTrue(p, ends, b.trace, r);
      if r.outcome.BackedUp? {
        var e :| e in b.trace && e.Backed? && e.slot == r.slot && e.ok;
        EventAnswered(checks, backups, b.trace, turns, k, e);
        assert false;
      }
    }
  }

  /** With checks and backups that all work, every location is. */
  lemma EverythingBackedUp(p: Params, ends: Option<nat>, checks: nat -> Tried, backups: nat -> Tried, b: Books,
                           turns: seq<nat>, k: nat)
    requires Kept(p, ends, b) && FromAnswers(checks, backups, b.trace, turns, k)
    requires (forall n :: checks(n).ok) && forall n :: backups(n).ok
    ensures forall r :: r in b.results ==> r.outcome.BackedUp?
  {
    forall r | r in b.results
      ensures r.outcome.BackedUp?
    {
      assert ResultTrue(p, ends, b.trace, r);
      if r.outcome.BackupFailed? {
        var e :| e in b.trace && e.Backed? && e.slot == r.slot && !e.ok;
        EventAnswered(checks, backups, b.trace, turns, k, e);
        assert false;
      } else if !r.outcome.BackedUp? {
        SomeCheckFailed(checks, backups, b.trace, turns, k, r.slot);
        assert false;
      }
    }
  }

  lemma {:induction false} FailedAll(results: seq<Result>)
    ensures (forall r :: r in results ==> !r.outcome.BackedUp?) ==> |FailedSlots(results)| == |results|
    ensures (forall r :: r in results ==> r.outcome.BackedUp?) ==> FailedSlots(results) == []
    decreases |results|
  {
    if results != [] {
      FailedAll(results[..|results| - 1]);
      assert results[|results| - 1] in results;
    }
  }

  /** The round's own error: how many locations, of how many, weren't backed up. */
  datatype RoundError = NotBackedUp(failed: nat, of: nat)

  function ErrorOf(p: Params, results: seq<Result>): Option<RoundError> {
    var failed := FailedSlots(results);
    if failed == [] then None else Some(NotBackedUp(|failed|, |p.repos|))
  }

  /** The error of a round, as its answers decide it. */
  ghost predicate ErrorMeans(p: Params, checks: nat -> Tried, backups: nat -> Tried, error: Option<RoundError>) {
    && (p.repos != [] && (forall n :: !backups(n).ok) ==> error == Some(NotBackedUp(|p.repos|, |p.repos|)))
    && ((forall n :: checks(n).ok) && (forall n :: backups(n).ok) ==> error == None)
  }

  lemma ErrorTells(p: Params, ends: Option<nat>, checks: nat -> Tried, backups: nat -> Tried, b: Books, turns: seq<nat>,
                   k: nat, error: Option<RoundError>)
    requires Kept(p, ends, b) && b.queue == [] && FromAnswers(checks, backups, b.trace, turns, k)
    requires error == if b.failed > 0 then Some(NotBackedUp(b.failed, |p.repos|)) else None
    ensures error == ErrorOf(p, b.results) && ErrorMeans(p, checks, backups, error)
  {
    ReportedMeans(b);
    OneResultEach(p, ends, b);
    FailedAll(b.results);
    if forall n :: !backups(n).ok {
      NothingBackedUp(p, ends, checks, backups, b, turns, k);
    }
    if (forall n :: checks(n).ok) && forall n :: backups(n).ok {
      EverythingBackedUp(p, ends, checks, backups, b, turns, k);
    }
  }

  /** The queue from its start, until no location is left in it. */
  method WorkQueue(p: Params, checks: nat -> Tried, backups: nat -> Tried, ends: Option<nat>, ties: nat -> bool,
                   start: nat, queue: seq<Loc>, ghost lim: Limits, ghost steady: bool, ghost limit: int)
    returns (b: Books, ghost turns: seq<nat>, ghost rounds: nat)
    requires Going(p, ends, lim, steady, limit, Books(queue, [], [], 0, [], start))
    requires Honest(p, ends, checks, backups, Books(queue, [], [], 0, [], start), start, [], 0, 0)
    requires steady ==> InLimits(lim, checks, backups)
    ensures Kept(p, ends, b) && b.queue == [] && start <= b.now
    ensures Accounted(p, ends, checks, backups, b, start, turns, rounds)
    ensures steady ==> b.now <= limit
    ensures steady && 0 < lim.check + lim.backup && Uncut(ends, limit) ==> AllTried(p, b.results)
  {
    b := Books(queue, [], [], 0, [], start);
    var k := 0;
    ghost var c := 0;
    turns := [];
    while b.queue != []
      invariant start <= b.now && Going(p, ends, lim, steady, limit, b)
      invariant Honest(p, ends, checks, backups, b, start, turns, k, c)
      decreases ChecksLeft(p, b.queue), if SomeReady(b) then 0 else 1
    {
      var i := FirstReady(b.queue, b.now);
      if i < |b.queue| {
        var t := Turn(p, ends, b, i, checks(k), backups(k), lim, steady, limit);
        ghost var more;
        more, c := TurnHonest(p, ends, checks, backups, b, start, turns, k, c, i, t);
        b, turns := t, turns + more;
      } else {
        NoneNew(p, ends, b);
        var rested, go := Rest(p, ends, b, ties(k), lim, steady, limit);
        if !go {
          rounds := k;
          var t := RoundEnds(p, ends, rested);
          CutHonest(p, ends, checks, backups, b, start, turns, k, c, ties(k), rested, t);
          b := t;
          return;
        }
        LaterHonest(p, ends, checks, backups, b, start, turns, k, c, ties(k), rested);
        b := rested;
      }
      k := k + 1;
    }
    rounds := k;
  }

  /**
   * The round. `checks` and `backups` say how each attempt turns out; `ends` is when its
   * context ends, if it does; `ties` decides a wait that ends at that very moment.
   * `lim` are limits the attempts may keep.
   */
  method BackupRound(p: Params, checks: nat -> Tried, backups: nat -> Tried, ends: Option<nat>, ties: nat -> bool,
                     start: nat, ghost lim: Limits)
    returns (b: Books, error: Option<RoundError>, ghost turns: seq<nat>, ghost rounds: nat)
    ensures Kept(p, ends, b) && b.queue == [] && start <= b.now
    ensures Accounted(p, ends, checks, backups, b, start, turns, rounds)
    ensures error == ErrorOf(p, b.results) && ErrorMeans(p, checks, backups, error)
    ensures 0 <= p.retry && InLimits(lim, checks, backups) ==> b.now <= start + |p.repos| * PerLocation(p, lim)
    ensures
      (0 <= p.retry && InLimits(lim, checks, backups) && 0 < lim.check + lim.backup
       && Uncut(ends, start + |p.repos| * PerLocation(p, lim))) ==> AllTried(p, b.results)
  {
    var queue := StartQueue(p);
    ghost var limit := start + |p.repos| * PerLocation(p, lim);
    ghost var steady := 0 <= p.retry && InLimits(lim, checks, backups);
    StartGoing(p, ends, lim, steady, limit, queue, start);
    b, turns, rounds := WorkQueue(p, checks, backups, ends, ties, start, queue, lim, steady, limit);
    error := if b.failed > 0 then Some(NotBackedUp(b.failed, |p.repos|)) else None;
    ErrorTells(p, ends, checks, backups, b, turns, rounds, error);
  }

  // ---------------------------------------------------------------- what a round amounts to

  /** A location is checked up to `tries` times, but once at least; it's unreadable only after all, or once cut off. */
  lemma TriesMean(p: Params, ends: Option<nat>, b: Books, r: Result)
    requires Kept(p, ends, b) && r in b.results
    ensures 1 <= p.tries ==> ChecksOf(b.trace, r.slot) <= p.tries
    ensures p.tries <= 1 ==> ChecksOf(b.trace, r.slot) <= 1
    ensures r.outcome.NotReadable? && r.outcome.checks < p.tries ==> EndedMeanwhile(ends, b.trace, r.slot)
  {
  }

  predicate HasResult(p: Params, b: Books, k: nat) {
    k < |p.repos| && exists r :: r in b.results && r.slot == k && r.repo == p.repos[k]
  }

  /** Exactly one result per location, in some order. */
  lemma OneResultEach(p: Params, ends: Option<nat>, b: Books)
    requires Kept(p, ends, b) && b.queue == []
    ensures |b.results| == |p.repos|
    ensures forall k: nat :: k < |p.repos| ==> HasResult(p, b, k)
    ensures Distinct(ResultSlots(b.results))
  {
    OnceMeans(p, b);
    var all := ResultSlots(b.results);
    assert QueueSlots(b.queue) + all == all;
    forall k: nat | k < |p.repos|
      ensures HasResult(p, b, k)
    {
      assert k in all;
      var i :| 0 <= i < |all| && all[i] == k;
      assert b.results[i] in b.results && ResultTrue(p, ends, b.trace, b.results[i]);
    }
    CountSlots(all, |p.repos|);
  }

  /** The failures counted are the locations whose result isn't a backup, each once. */
  lemma {:induction false} FailuresExactly(results: seq<Result>)
    ensures forall k :: k in FailedSlots(results) <==> exists r :: r in results && r.slot == k && !r.outcome.BackedUp?
    ensures Distinct(ResultSlots(results)) ==> Distinct(FailedSlots(results))
    decreases |results|
  {
    if results != [] {
      var front, last := results[..|results| - 1], results[|results| - 1];
      assert results == front + [last];
      FailuresExactly(front);
      if Distinct(ResultSlots(results)) {
        FrontDistinct(front, last);
        var failed := FailedSlots(front);
        forall i | 0 <= i < |failed|
          ensures failed[i] != last.slot
        {
          assert failed[i] in failed;
          var r :| r in front && r.slot == failed[i] && !r.outcome.BackedUp?;
        }
      }
    }
  }

  lemma FrontDistinct(front: seq<Result>, last: Result)
    requires Distinct(ResultSlots(front + [last]))
    ensures Distinct(ResultSlots(front)) && forall r :: r in front ==> r.slot != last.slot
  {
    var all := ResultSlots(front + [last]);
    forall i | 0 <= i < |front|
      ensures all[i] == front[i].slot == ResultSlots(front)[i] && front[i].slot != last.slot
    {
      assert (front + [last])[i] == front[i] && (front + [last])[|front|] == last;
      assert all[i] != all[|front|];
    }
    assert forall i :: 0 <= i < |front| ==> all[i] == ResultSlots(front)[i];
  }

  lemma {:induction false} CountSlots(s: seq<nat>, n: nat)
    requires Distinct(s) && forall k :: k in s <==> 0 <= k < n
    ensures |s| == n
  {
    if n > 0 {
      var last: nat := n - 1;
      assert last in s;
      var i :| 0 <= i < |s| && s[i] == last;
      var rest := Without(s, i);
      WithoutFacts(s, i);
      CountSlots(rest, last);
    } else {
      SomeElement(s);
    }
  }

  lemma SomeElement(s: seq<nat>)
    ensures s == [] || exists k :: k in s
  {
    if s != [] {
      assert s[0] in s;
    }
  }

  function Without(s: seq<nat>, i: nat): seq<nat>
    requires i < |s|
  {
    s[..i] + s[i + 1..]
  }

  lemma WithoutFacts(s: seq<nat>, i: nat)
    requires i < |s| && Distinct(s)
    ensures Distinct(Without(s, i)) && forall k :: k in Without(s, i) <==> k in s && k != s[i]
  {
    var rest := Without(s, i);
    forall k
      ensures k in rest <==> k in s && k != s[i]
    {
      if k in rest {
        var j :| 0 <= j < |rest| && rest[j] == k;
        assert rest[j] == s[if j < i then j else j + 1];
      }
      if k in s && k != s[i] {
        var j :| 0 <= j < |s| && s[j] == k;
        assert rest[if j < i then j else j - 1] == k;
      }
    }
  }

  /** How long the conductor waits for a round of `n` locations, in seconds. */
  const CHECK_TRIES: nat := 3
  const CHECK_SECS: nat := 60
  const RETRY_SECS: nat := 60
  const BACKUP_SECS: nat := 3600

  function RoundTimeoutSecs(n: nat): nat {
    n * (CHECK_TRIES * CHECK_SECS + (CHECK_TRIES - 1) * RETRY_SECS + BACKUP_SECS)
  }

  /** The parameters the conductor gives a round. */
  function Scheduled(repos: seq<int>): Params {
    Params(repos, CHECK_TRIES, RETRY_SECS * SECOND)
  }

  function RoundEnd(repos: seq<int>, start: nat): nat {
    start + RoundTimeoutSecs(|repos|) * SECOND
  }

  /**
   * A round with the conductor's parameters and limit. The limit is enough: if checks and backups
   * keep theirs, the round ends in time and no location is cut short.
   */
  method ScheduledRound(repos: seq<int>, checks: nat -> Tried, backups: nat -> Tried, ties: nat -> bool, start: nat)
    returns (b: Books, error: Option<RoundError>, ghost turns: seq<nat>, ghost rounds: nat)
    ensures Kept(Scheduled(repos), Some(RoundEnd(repos, start)), b) && b.queue == []
    ensures error == ErrorOf(Scheduled(repos), b.results) && ErrorMeans(Scheduled(repos), checks, backups, error)
    ensures Accounted(Scheduled(repos), Some(RoundEnd(repos, start)), checks, backups, b, start, turns, rounds)
    ensures InLimits(Limits(CHECK_SECS * SECOND, BACKUP_SECS * SECOND), checks, backups) ==>
      b.now <= RoundEnd(repos, start) && AllTried(Scheduled(repos), b.results)
  {
    ghost var lim := Limits(CHECK_SECS * SECOND, BACKUP_SECS * SECOND);
    assert PerLocation(Scheduled(repos), lim) == 3900 * SECOND;
    assert |repos| * (3900 * SECOND) == RoundTimeoutSecs(|repos|) * SECOND;
    b, error, turns, rounds := BackupRound(Scheduled(repos), checks, backups, Some(RoundEnd(repos, start)), ties, start,
                                           lim);
  }
}
