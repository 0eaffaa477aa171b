/**
 * Which nodes are settled, that is, connected for long enough: a timer per connection, whose
 * callback may run late, after the timer was stopped or replaced.
 */
module SettleTimers {
  import opened Transfer
  import opened Plans

  /** A timer, by an identity of its own. */
  type TimerId = nat

  datatype Phase = Armed | Firing | Stopped | Fired

  /** `Firing`: due, but its callback hasn't got the lock yet; stopping it then comes too late. */
  datatype Timer = Timer(node: Node, phase: Phase, settled: bool)

  type Timers = map<TimerId, Timer>

  function StopTimer(timers: Timers, id: TimerId): Timers {
    if id in timers && timers[id].phase == Armed then timers[id := timers[id].(phase := Stopped)] else timers
  }

  /**
   * `settling` is the current timer of each connected node. History: the timer made by each
   * node's current connection, and how many syncs each timer started.
   */
  datatype State = State(settling: map<Node, TimerId>, timers: Timers, connection: map<Node, TimerId>,
                         syncs: map<TimerId, nat>)

  const INIT: State := State(map[], map[], map[], map[])

  datatype Action = Connect(node: Node, id: TimerId) | Disconnect(node: Node) | Due(id: TimerId) | Callback(id: TimerId)

  predicate Enabled(s: State, a: Action) {
    match a
    case Connect(_, id) => id !in s.timers
    case Disconnect(_) => true
    case Due(id) => id in s.timers && s.timers[id].phase == Armed
    case Callback(id) => id in s.timers && s.timers[id].phase == Firing
  }

  function StopCurrent(s: State, node: Node): Timers {
    if node in s.settling then StopTimer(s.timers, s.settling[node]) else s.timers
  }

  /** Whether the callback of `id` finds itself the current timer of its node. */
  predicate Current(s: State, id: TimerId) {
    id in s.timers && s.timers[id].node in s.settling && s.settling[s.timers[id].node] == id
  }

  function SyncsOf(s: State, id: TimerId): nat {
    if id in s.syncs then s.syncs[id] else 0
  }

  function Step(s: State, a: Action): State
    requires Enabled(s, a)
  {
    match a
    case Connect(node, id) =>
      s.(settling := s.settling[node := id], timers := StopCurrent(s, node)[id := Timer(node, Armed, false)],
         connection := s.connection[node := id])
    case Disconnect(node) =>
      s.(settling := s.settling - {node}, timers := StopCurrent(s, node), connection := s.connection - {node})
    case Due(id) => s.(timers := s.timers[id := s.timers[id].(phase := Firing)])
    case Callback(id) =>
      s.(timers := s.timers[id := s.timers[id].(phase := Fired, settled := Current(s, id))],
         syncs := if Current(s, id) then s.syncs[id := SyncsOf(s, id) + 1] else s.syncs)
  }

  predicate Settled(s: State, node: Node) {
    node in s.settling && s.settling[node] in s.timers && s.timers[s.settling[node]].settled
  }

  function StepAll(s: State, acts: seq<Action>): Option<State>
    decreases |acts|
  {
    if acts == [] then Some(s)
    else if Enabled(s, acts[0]) then StepAll(Step(s, acts[0]), acts[1..])
    else None
  }

  /** Runs go on one enabled action at a time. */
  lemma {:induction false} StepAllMore(s: State, acts: seq<Action>, a: Action)
    ensures StepAll(s, []) == Some(s)
    ensures var t := StepAll(s, acts);
      StepAll(s, acts + [a]) == if t.Some? && Enabled(t.value, a) then Some(Step(t.value, a)) else None
    decreases |acts|
  {
    if acts == [] {
      assert [a][1..] == [];
    } else {
      assert (acts + [a])[1..] == acts[1..] + [a];
      if Enabled(s, acts[0]) {
        StepAllMore(Step(s, acts[0]), acts[1..], a);
      }
    }
  }

  // ---------------------------------------------------------------- what always holds

  ghost predicate Inv(s: State) {
    Attached(s) && TimersTrue(s) && OnlyCurrentArmed(s)
  }

  /** Every connected node has its timer, which wasn't stopped. */
  ghost predicate Attached(s: State) {
    && s.settling == s.connection
    && (forall node :: node in s.settling ==> s.settling[node] in s.timers && s.timers[s.settling[node]].node == node)
    && (forall node :: node in s.settling ==> s.timers[s.settling[node]].phase != Stopped)
  }

  ghost predicate TimersTrue(s: State) {
    (forall id :: id in s.timers ==> TimerTrue(s, id, s.timers[id])) && forall id :: id in s.syncs ==> id in s.timers
  }

  ghost predicate OnlyCurrentArmed(s: State) {
    forall id :: id in s.timers && s.timers[id].phase == Armed ==> Current(s, id)
  }

  /** A timer settled its node only if it fired, and then started the one sync. */
  predicate TimerTrue(s: State, id: TimerId, t: Timer) {
    && (t.settled ==> t.phase == Fired) && SyncsOf(s, id) == (if t.settled then 1 else 0)
    && (t.phase == Fired && !t.settled ==> !Current(s, id))
  }

  lemma AttachedStep(s: State, a: Action)
    requires Inv(s) && Enabled(s, a)
    ensures Attached(Step(s, a))
  {
  }

  lemma ArmedStep(s: State, a: Action)
    requires Inv(s) && Enabled(s, a)
    ensures OnlyCurrentArmed(Step(s, a))
  {
  }

  lemma InvStep(s: State, a: Action)
    requires Inv(s) && Enabled(s, a)
    ensures Inv(Step(s, a))
  {
    AttachedStep(s, a);
    ArmedStep(s, a);
    var t := Step(s, a);
    forall id | id in t.timers
      ensures TimerTrue(t, id, t.timers[id])
    {
      if id in s.timers {
        assert TimerTrue(s, id, s.timers[id]);
      }
    }
  }

  lemma {:induction false} InvAlways(s: State, acts: seq<Action>)
    requires Inv(s) && StepAll(s, acts).Some?
    ensures Inv(StepAll(s, acts).value)
    decreases |acts|
  {
    if acts != [] {
      InvStep(s, acts[0]);
      InvAlways(Step(s, acts[0]), acts[1..]);
    }
  }

  /**
   * In every run a node is settled exactly when it is connected and the timer of its current
   * connection fired; that timer started one sync.
   */
  lemma SettledMeansStayed(acts: seq<Action>, node: Node)
    requires StepAll(INIT, acts).Some?
    ensures var s := StepAll(INIT, acts).value;
      && (Settled(s, node) <==>
            node in s.connection && s.connection[node] in s.timers && s.timers[s.connection[node]].phase == Fired)
      && (Settled(s, node) ==> SyncsOf(s, s.connection[node]) == 1)
  {
    InvAlways(INIT, acts);
    var s := StepAll(INIT, acts).value;
    if node in s.connection {
      assert TimerTrue(s, s.connection[node], s.timers[s.connection[node]]);
    }
  }

  /** No timer is left running: one still armed is that of its node's current connection. */
  lemma ArmedIsCurrent(acts: seq<Action>, id: TimerId)
    requires StepAll(INIT, acts).Some?
    ensures var s := StepAll(INIT, acts).value;
      id in s.timers && s.timers[id].phase == Armed ==>
        s.timers[id].node in s.connection && s.connection[s.timers[id].node] == id
  {
    InvAlways(INIT, acts);
  }

  /** A node that stays connected settles: its armed timer comes due, and the callback finds it current. */
  lemma StayingSettles(acts: seq<Action>, node: Node)
    requires StepAll(INIT, acts).Some? && node in StepAll(INIT, acts).value.connection
    requires var s := StepAll(INIT, acts).value;
      s.connection[node] in s.timers && s.timers[s.connection[node]].phase == Armed
    ensures var s := StepAll(INIT, acts).value; var id := s.connection[node];
      var t := StepAll(s, [Due(id), Callback(id)]);
      t.Some? && Settled(t.value, node) && SyncsOf(t.value, id) == 1
      && forall m :: m != node ==> (Settled(t.value, m) <==> Settled(s, m))
  {
    InvAlways(INIT, acts);
    var s := StepAll(INIT, acts).value;
    var id := s.connection[node];
    assert TimerTrue(s, id, s.timers[id]);
    assert [Due(id), Callback(id)] == [] + [Due(id)] + [Callback(id)];
    StepAllMore(s, [], Due(id));
    StepAllMore(s, [] + [Due(id)], Callback(id));
  }

  /** A late callback, of a timer stopped or replaced meanwhile, changes nothing and syncs nothing. */
  lemma LateCallbackIgnored(acts: seq<Action>, id: TimerId, node: Node)
    requires StepAll(INIT, acts).Some? && Enabled(StepAll(INIT, acts).value, Callback(id))
    requires !Current(StepAll(INIT, acts).value, id)
    ensures var s := StepAll(INIT, acts).value; var t := Step(s, Callback(id));
      (Settled(t, node) <==> Settled(s, node)) && t.syncs == s.syncs && t.settling == s.settling
  {
    InvAlways(INIT, acts);
  }

  // ---------------------------------------------------------------- the scheduler

  class Scheduler {
    var settling: map<Node, TimerId>
    var timers: Timers

    constructor ()
      ensures settling == map[] && timers == map[]
    {
      settling, timers := map[], map[];
    }

    ghost predicate Shows(s: State)
      reads this
    {
      settling == s.settling && timers == s.timers
    }

    method OnNodeConnect(node: Node, id: TimerId, ghost s: State)
      requires Shows(s) && Enabled(s, Connect(node, id))
      modifies this
      ensures Shows(Step(s, Connect(node, id)))
    {
      if node in settling {
        timers := StopTimer(timers, settling[node]);
      }
      settling := settling[node := id];
      timers := timers[id := Timer(node, Armed, false)];
    }

    method OnNodeDisconnect(node: Node, ghost s: State)
      requires Shows(s)
      modifies this
      ensures Shows(Step(s, Disconnect(node)))
    {
      if node in settling {
        timers := StopTimer(timers, settling[node]);
        settling := settling - {node};
      }
    }

    /** The timer's callback; true if it is to start a sync. */
    method TimerFired(id: TimerId, ghost s: State) returns (current: bool)
      requires Shows(s) && Enabled(s, Callback(id))
      modifies this
      ensures Shows(Step(s, Callback(id))) && current == Current(s, id)
    {
      var t := timers[id];
      current := t.node in settling && settling[t.node] == id;
      timers := timers[id := t.(phase := Fired, settled := current)];
    }

    method IsSettled(node: Node, ghost s: State) returns (b: bool)
      requires Shows(s)
      ensures b == Settled(s, node)
    {
      b := node in settling && settling[node] in timers && timers[settling[node]].settled;
    }
  }
}
