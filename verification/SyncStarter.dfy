/**
 * At most one sync per cluster and folder: a sync asked for while one runs is queued behind
 * it, replacing the one queued before.
 */
module SyncStarter {
  import opened Transfer

  /** A cluster and folder. */
  type Key = string

  /** A job, numbered by when it was asked for. */
  type Ticket = nat

  /** Per folder with a sync running: the job queued behind it, if any. */
  type Active = map<Key, Option<Ticket>>

  datatype Started = Begun | Queued | Busy

  // ---------------------------------------------------------------- the manager

  function Starting(active: Active, key: Key, job: Ticket, queue: bool): (Active, Started) {
    if key !in active then (active[key := None], Begun)
    else if queue then (active[key := Some(job)], Queued)
    else (active, Busy)
  }

  /** A sync ended: the loop takes the queued job, or gives the folder up. */
  function Ending(active: Active, key: Key): (Active, Option<Ticket>)
    requires key in active
  {
    if active[key].Some? then (active[key := None], active[key]) else (active - {key}, None)
  }

  class Manager {
    var active: Active

    constructor ()
      ensures active == map[]
    {
      active := map[];
    }

    method Start(key: Key, job: Ticket, queue: bool) returns (r: Started)
      modifies this
      ensures (active, r) == Starting(old(active), key, job, queue)
    {
      if key in active {
        if !queue {
          return Busy;
        }
        active := active[key := Some(job)];
        return Queued;
      }
      active := active[key := None];
      r := Begun;
    }

    /** The end of a sync, in the loop that ran it. */
    method Next(key: Key) returns (next: Option<Ticket>)
      requires key in active
      modifies this
      ensures (active, next) == Ending(old(active), key)
    {
      next := active[key];
      if next.None? {
        active := active - {key};
        return;
      }
      active := active[key := None];
    }
  }

  // ---------------------------------------------------------------- every interleaving

  /** A running loop: its folder and the job it is syncing. */
  datatype Loop = Loop(key: Key, job: Ticket)

  /**
   * `loops` are the loops running, by an identity of their own. History: the next ticket, the
   * newest job accepted for each folder, and the jobs whose sync began.
   */
  datatype State = State(active: Active, loops: map<nat, Loop>, tickets: Ticket, newest: map<Key, Ticket>,
                         begun: set<(Key, Ticket)>)

  const INIT: State := State(map[], map[], 0, map[], {})

  datatype Action =
    | Ask(key: Key, queue: bool, loop: nat)  // `loop` names the loop, should one start
    | Finish(loop: nat)                      // that loop's sync ended

  predicate Enabled(s: State, a: Action) {
    match a
    case Ask(_, _, loop) => loop !in s.loops
    case Finish(loop) => loop in s.loops && s.loops[loop].key in s.active
  }

  function Step(s: State, a: Action): State
    requires Enabled(s, a)
  {
    match a
    case Ask(key, queue, loop) =>
      var (active, r) := Starting(s.active, key, s.tickets, queue);
      State(active, if r.Begun? then s.loops[loop := Loop(key, s.tickets)] else s.loops, s.tickets + 1,
            if r.Busy? then s.newest else s.newest[key := s.tickets],
            if r.Begun? then s.begun + {(key, s.tickets)} else s.begun)
    case Finish(loop) =>
      var key := s.loops[loop].key;
      var (active, next) := Ending(s.active, key);
      State(active, if next.Some? then s.loops[loop := Loop(key, next.value)] else s.loops - {loop}, s.tickets,
            s.newest,
            if next.Some? then s.begun + {(key, next.value)} else s.begun)
  }

  function StepAll(s: State, acts: seq<Action>): Option<State>
    decreases |acts|
  {
    if acts == [] then Some(s)
    else if Enabled(s, acts[0]) then StepAll(Step(s, acts[0]), acts[1..])
    else None
  }

  /** Runs go on one enabled action at a time. */
  lemma {:induction false} StepAllMore(s: State, acts: seq<Action>, a: Action)
    ensures StepAll(s, []) == Some(s)
    ensures var t := StepAll(s, acts);
      StepAll(s, acts + [a]) == if t.Some? && Enabled(t.value, a) then Some(Step(t.value, a)) else None
    decreases |acts|
  {
    if acts == [] {
      assert [a][1..] == [];
    } else {
      assert (acts + [a])[1..] == acts[1..] + [a];
      if Enabled(s, acts[0]) {
        StepAllMore(Step(s, acts[0]), acts[1..], a);
      }
    }
  }

  // ---------------------------------------------------------------- what always holds

  predicate Owns(s: State, i: nat, key: Key) {
    i in s.loops && s.loops[i].key == key
  }

  /** Just the folders with an entry have a loop, and only one. */
  ghost predicate OneLoop(s: State) {
    && (forall key :: key in s.active <==> exists i :: Owns(s, i, key))
    && (forall i, j, key :: Owns(s, i, key) && Owns(s, j, key) ==> i == j)
  }

  /** The newest job accepted for a folder is queued, or its sync began. */
  ghost predicate NewestServed(s: State) {
    forall key :: key in s.newest ==> Served(s, key)
  }

  predicate Served(s: State, key: Key)
    requires key in s.newest
  {
    s.newest[key] < s.tickets && (Waits(s, key, s.newest[key]) || (key, s.newest[key]) in s.begun)
  }

  predicate Waits(s: State, key: Key, job: Ticket) {
    key in s.active && s.active[key] == Some(job)
  }

  /** Only accepted jobs are queued. */
  ghost predicate QueuedAccepted(s: State) {
    forall key :: key in s.active && s.active[key].Some? ==> key in s.newest && s.active[key].value == s.newest[key]
  }

  ghost predicate Inv(s: State) {
    OneLoop(s) && NewestServed(s) && QueuedAccepted(s)
  }

  lemma OneLoopAsk(s: State, key: Key, queue: bool, loop: nat)
    requires OneLoop(s) && Enabled(s, Ask(key, queue, loop))
    ensures OneLoop(Step(s, Ask(key, queue, loop)))
  {
    var t := Step(s, Ask(key, queue, loop));
    if key in s.active {
      assert forall i, k :: Owns(t, i, k) <==> Owns(s, i, k);
    } else {
      assert forall i, k :: Owns(t, i, k) <==> Owns(s, i, k) || (i == loop && k == key);
      assert Owns(t, loop, key);
    }
  }

  lemma OneLoopFinish(s: State, loop: nat)
    requires OneLoop(s) && Enabled(s, Finish(loop))
    ensures OneLoop(Step(s, Finish(loop)))
  {
    var t, key := Step(s, Finish(loop)), s.loops[loop].key;
    assert Owns(s, loop, key);
    if s.active[key].Some? {
      assert forall i, k :: Owns(t, i, k) <==> Owns(s, i, k);
    } else {
      assert forall i, k :: Owns(t, i, k) <==> Owns(s, i, k) && i != loop;
    }
  }

  lemma ServedStep(s: State, a: Action, key: Key)
    requires NewestServed(s) && QueuedAccepted(s) && Enabled(s, a) && key in Step(s, a).newest
    ensures Served(Step(s, a), key)
  {
    if key in s.newest {
      assert Served(s, key);
    }
  }

  lemma QueuedStep(s: State, a: Action)
    requires QueuedAccepted(s) && Enabled(s, a)
    ensures QueuedAccepted(Step(s, a))
  {
  }

  lemma InvStep(s: State, a: Action)
    requires Inv(s) && Enabled(s, a)
    ensures Inv(Step(s, a))
  {
    match a {
      case Ask(key, queue, loop) => OneLoopAsk(s, key, queue, loop);
      case Finish(loop) => OneLoopFinish(s, loop);
    }
    QueuedStep(s, a);
    forall key | key in Step(s, a).newest
      ensures Served(Step(s, a), key)
    {
      ServedStep(s, a, key);
    }
  }

  lemma {:induction false} InvAlways(s: State, acts: seq<Action>)
    requires Inv(s) && StepAll(s, acts).Some?
    ensures Inv(StepAll(s, acts).value)
    decreases |acts|
  {
    if acts != [] {
      InvStep(s, acts[0]);
      InvAlways(Step(s, acts[0]), acts[1..]);
    }
  }

  /** In every interleaving a folder is marked active exactly when one loop, and only one, owns it. */
  lemma ActiveMeansOneLoop(acts: seq<Action>, key: Key)
    requires StepAll(INIT, acts).Some?
    ensures var s := StepAll(INIT, acts).value;
      && (key in s.active <==> exists i :: Owns(s, i, key))
      && (forall i, j :: Owns(s, i, key) && Owns(s, j, key) ==> i == j)
  {
    InvAlways(INIT, acts);
  }

  // What was accepted is followed by a sync of it, or of a job accepted after it.

  lemma {:induction false} NewestGrows(s: State, acts: seq<Action>, key: Key)
    requires Inv(s) && StepAll(s, acts).Some? && key in s.newest
    ensures var t := StepAll(s, acts).value; key in t.newest && s.newest[key] <= t.newest[key] && s.begun <= t.begun
    decreases |acts|
  {
    if acts != [] {
      InvStep(s, acts[0]);
      NewestGrows(Step(s, acts[0]), acts[1..], key);
    }
  }

  /**
   * No accepted job is forgotten: however the calls and loops interleave after it was
   * accepted, it or a job accepted later is queued or its sync has begun; and once the
   * folder is idle, its sync has begun.
   */
  lemma AcceptedIsServed(before: seq<Action>, key: Key, queue: bool, loop: nat, after: seq<Action>, s: State, t: State)
    requires StepAll(INIT, before) == Some(s) && Enabled(s, Ask(key, queue, loop)) && (queue || key !in s.active)
    requires StepAll(Step(s, Ask(key, queue, loop)), after) == Some(t)
    ensures exists job :: s.tickets <= job && (Waits(t, key, job) || (key, job) in t.begun)
    ensures key !in t.active ==> exists job :: s.tickets <= job && (key, job) in t.begun
  {
    InvAlways(INIT, before);
    InvStep(s, Ask(key, queue, loop));
    var u := Step(s, Ask(key, queue, loop));
    assert u.newest[key] == s.tickets;
    NewestGrows(u, after, key);
    InvAlways(u, after);
    assert Served(t, key) && s.tickets <= t.newest[key];
  }

  /** A queued job's sync is the very next one of its folder, unless a later one replaces it. */
  lemma QueuedRunsNext(s: State, loop: nat)
    requires Inv(s) && Enabled(s, Finish(loop)) && s.active[s.loops[loop].key].Some?
    ensures var key := s.loops[loop].key; var t := Step(s, Finish(loop));
      t.loops[loop] == Loop(key, s.newest[key]) && (key, s.newest[key]) in t.begun && t.active[key] == None
  {
  }
}
