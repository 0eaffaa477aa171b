/** The objects behind tracked tasks: the agent's client, the conductor's hub, and a wait. */
module TaskAgents {
  import opened Transfer
  import opened Plans
  import opened TaskProtocol
  import opened TaskTheorems

  class Client {
    var tasks: set<Id>
    var outbound: seq<Msg>

    ghost function View(): Agent
      reads this
    {
      Agent(tasks, outbound)
    }

    constructor ()
      ensures View() == Agent({}, [])
    {
      tasks, outbound := {}, [];
    }

    /** Queues a message; with the buffer full it is dropped (or, for a result, given up on). */
    method Send(m: Msg) returns (ok: bool)
      modifies this
      ensures View() == Queued(old(View()), m) && ok == HasRoom(old(View()))
    {
      ok := |outbound| < BUFFER;
      if ok {
        outbound := outbound + [m];
      }
    }

    /** Lists the task, then acks it; false if it was listed already. */
    method StartTask(id: Id) returns (isNew: bool)
      modifies this
      ensures View() == Queued(Listing(old(View()), id), Ack(id)) && isNew == (id !in old(tasks))
    {
      isNew := id !in tasks;
      tasks := tasks + {id};
      var _ := Send(Ack(id));
    }

    /** Queues the result, then stops listing the task. */
    method EndTask(id: Id, res: Res) returns (ok: bool)
      modifies this
      ensures View() == Delisting(Queued(old(View()), Result(id, res)), id) && ok == HasRoom(old(View()))
    {
      ok := Send(Result(id, res));
      tasks := tasks - {id};
    }

    /** Lists the tasks held and sends the heartbeat, as one step. */
    method Beat() returns (ok: bool)
      modifies this
      ensures View() == Queued(old(View()), Heartbeat(old(tasks))) && ok == HasRoom(old(View()))
    {
      ok := Send(Heartbeat(tasks));
    }

    method Write() returns (m: Msg)
      requires outbound != []
      modifies this
      ensures View() == old(View()).(outbound := old(outbound)[1..]) && m == old(outbound)[0]
    {
      m, outbound := outbound[0], outbound[1..];
    }
  }

  /** Starting a task is the protocol's two steps, in that order. */
  lemma StartIsListThenAck(s: State, id: Id)
    requires Enabled(s, List(id))
    ensures Enabled(Next(s, List(id)), SendAck)
    ensures Next(Next(s, List(id)), SendAck).agent == Queued(Listing(s.agent, id), Ack(id))
  {
  }

  /** Ending one is queueing its result (or giving up), then delisting it. */
  lemma EndIsQueueThenDelist(s: State, id: Id, res: Res)
    requires CanEnd(s, id)
    ensures var a := if HasRoom(s.agent) then EndQueue(id, res) else EndGiveUp(id);
      Enabled(s, a) && Enabled(Next(s, a), Delist(id)) &&
        Next(Next(s, a), Delist(id)).agent == Delisting(Queued(s.agent, Result(id, res)), id)
  {
  }

  class Hub {
    var watches: Watches

    constructor ()
      ensures watches == map[]
    {
      watches := map[];
    }

    method Follow(id: Id, node: Node)
      modifies this
      ensures watches == Watching(old(watches), id, node)
    {
      watches := watches[id := Watch(node, false, false, None)];
    }

    method NotifyTaskAck(id: Id)
      modifies this
      ensures watches == Acked(old(watches), id)
    {
      if id in watches {
        watches := watches[id := watches[id].(known := true)];
      }
    }

    method NotifyTaskResult(id: Id, res: Res)
      modifies this
      ensures watches == Answered(old(watches), id, res)
    {
      if id in watches {
        var w := watches[id];
        if w.result.None? {
          watches := watches[id := w.(result := Some(res))];
        }
      }
    }

    method NotifyHeartbeat(node: Node, listed: set<Id>)
      modifies this
      ensures watches == CheckedAll(old(watches), node, listed)
    {
      var todo := watches.Keys;
      while todo != {}
        invariant todo <= watches.Keys == old(watches).Keys
        invariant forall id :: id in watches ==>
          watches[id] == if id in todo then old(watches)[id] else Checked(id, old(watches)[id], node, listed)
        decreases |todo|
      {
        var id :| id in todo;
        var w := watches[id];
        if w.node == node {
          if id in listed {
            watches := watches[id := w.(known := true)];
          } else if w.known {
            watches := watches[id := w.(lost := true)];
          }
        }
        todo := todo - {id};
      }
    }
  }

  // ---------------------------------------------------------------- waiting for a task

  /** The branch a wait takes when several may be ready, and what it sees there. */
  datatype Branch = OnResult | OnLost | OnTick(late: bool, connected: bool) | OnCancel

  datatype Turn = Turn(branch: Branch, watch: Watch)

  /** Only a ready branch is taken. */
  predicate Ready(t: Turn) {
    (t.branch.OnResult? ==> t.watch.result.Some?) && (t.branch.OnLost? ==> t.watch.lost)
  }

  datatype Outcome = Waiting | Answer(output: string, error: Option<string>) | NoResult | Cancelled

  function OutcomeOf(res: Res): Outcome {
    Answer(res.output, if res.success then None else Some(res.error))
  }

  /** How a turn ends the wait, if it does. */
  function Ending(t: Turn): Outcome
    requires Ready(t)
  {
    match t.branch
    case OnResult => OutcomeOf(t.watch.result.value)
    case OnLost => if t.watch.result.Some? then OutcomeOf(t.watch.result.value) else NoResult
    case OnTick(late, connected) => if late && (!connected || !t.watch.known) then NoResult else Waiting
    case OnCancel => Cancelled
  }

  /** A tick before the deadline, or while the agent is connected and known to have the task. */
  predicate GoesOn(t: Turn) {
    t.branch.OnTick? && (t.branch.late ==> t.branch.connected && t.watch.known)
  }

  /** The agent's own result: its output, and an error, with the agent's text, exactly if it didn't succeed. */
  predicate Returns(o: Outcome, res: Res) {
    && o.Answer? && o.output == res.output
    && (res.success ==> o.error == None) && (!res.success ==> o.error == Some(res.error))
  }

  /** How a turn ends the wait: with the result, if the watch holds one; without, if the task is lost or out of time. */
  predicate EndsWith(t: Turn, o: Outcome) {
    match t.branch
    case OnResult => t.watch.result.Some? && Returns(o, t.watch.result.value)
    case OnLost => if t.watch.result.Some? then Returns(o, t.watch.result.value) else o == NoResult
    case OnTick(late, connected) => late && !(connected && t.watch.known) && o == NoResult
    case OnCancel => o == Cancelled
  }

  lemma EndingMeans(t: Turn)
    requires Ready(t)
    ensures if GoesOn(t) then Ending(t) == Waiting else EndsWith(t, Ending(t)) && Ending(t) != Waiting
  {
  }

  /** Follows the watch until a turn ends the wait. */
  method Wait(turns: seq<Turn>) returns (o: Outcome, i: nat)
    requires forall t :: t in turns ==> Ready(t)
    ensures i <= |turns| && (forall j :: 0 <= j < i ==> Ending(turns[j]) == Waiting)
    ensures o == if i < |turns| then Ending(turns[i]) else Waiting
    ensures i < |turns| ==> o != Waiting
    ensures forall j :: 0 <= j < i ==> GoesOn(turns[j])
    ensures if i < |turns| then EndsWith(turns[i], o) else o == Waiting
  {
    forall t: Turn | Ready(t) {
      EndingMeans(t);
    }
    i := 0;
    while i < |turns|
      invariant i <= |turns| && forall j :: 0 <= j < i ==> Ending(turns[j]) == Waiting
    {
      var t := turns[i];
      assert t in turns;
      match t.branch {
        case OnResult =>
          return OutcomeOf(t.watch.result.value), i;
        case OnLost =>
          if t.watch.result.Some? {
            return OutcomeOf(t.watch.result.value), i;
          }
          return NoResult, i;
        case OnTick(late, connected) =>
          if late && (!connected || !t.watch.known) {
            return NoResult, i;
          }
        case OnCancel =>
          return Cancelled, i;
      }
      i := i + 1;
    }
    o := Waiting;
  }

  /**
   * A wait that finds the task lost returns the result the agent produced for it, its output and
   * its success or error text, unless that result was never queued or was lost on the way.
   */
  lemma LostBranchAnswers(self: Node, acts: seq<Action>, s: State, id: Id)
    requires Reaches(Init(self), acts, s) && Mine(s, id) && s.watches[id].lost
    ensures var o := Ending(Turn(OnLost, s.watches[id]));
      && (id !in s.missing ==> exists res :: (id, res) in s.produced && Returns(o, res))
      && (o == NoResult ==> id in s.missing)
  {
    LostMeansAnswered(self, acts, s, id);
    EndingMeans(Turn(OnLost, s.watches[id]));
  }
}
