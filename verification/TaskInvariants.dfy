/** Every step of the task protocol keeps its invariants. */
module TaskInvariants {
  import opened TaskProtocol

  // ---------------------------------------------------------------- every step keeps them

  lemma IdsHas(ms: seq<Msg>, m: Msg)
    requires m in ms && m.Result?
    ensures m.id in Ids(ms)
  {
  }

  /** Writing moves a message along the pipe. */
  lemma WriteKeepsPipe(s: State)
    requires s.agent.outbound != []
    ensures Pipe(Next(s, Write)) == Pipe(s)
  {
  }

  lemma QueuedPipe(s: State, m: Msg)
    ensures s.wire + Queued(s.agent, m).outbound == if HasRoom(s.agent) then Pipe(s) + [m] else Pipe(s)
  {
  }

  /** The pipe after a message at `at` is taken out. */
  function Without(pipe: seq<Msg>, at: nat): seq<Msg>
    requires at < |pipe|
  {
    pipe[..at] + pipe[at + 1..]
  }

  lemma TakenFromWire(s: State, at: nat)
    requires at < |s.wire|
    ensures s.wire[..at] + s.wire[at + 1..] + s.agent.outbound == Without(Pipe(s), at)
    ensures s.wire[at] == Pipe(s)[at]
  {
  }

  lemma GroundedStep(s: State, a: Action)
    requires Grounded(s) && Enabled(s, a)
    ensures Grounded(Next(s, a))
  {
    var t := Next(s, a);
    forall m, id | m in Pipe(t) && (Tells(m, id) || Answers(m, id))
      ensures id in Begun(t)
    {
      MentionStep(s, a, m, id);
    }
    if a.Handle? {
      assert s.wire[0] == Pipe(s)[0] && Pipe(s)[0] in Pipe(s);
    }
  }

  /** A message on its way after a step was on its way before, or was just sent about a task held. */
  lemma MentionStep(s: State, a: Action, m: Msg, id: Id)
    requires Grounded(s) && Enabled(s, a) && m in Pipe(Next(s, a)) && (Tells(m, id) || Answers(m, id))
    ensures id in Begun(Next(s, a))
  {
    match a
    case Write => WriteKeepsPipe(s);
    case SendAck => QueuedPipe(s, Ack(s.acking.id));
    case EndQueue(task, res) => QueuedPipe(s, Result(task, res));
    case Beat => QueuedPipe(s, Heartbeat(s.agent.tasks));
    case SendOther => QueuedPipe(s, Other);
    case Lose(at) => TakenFromWire(s, at);
    case Handle => TakenFromWire(s, 0);
    case _ =>
  }

  // Taking one message out of the pipe, or adding one at its end.

  /** Where the message now at `i` was before the one at `at` was taken out. */
  function Before(at: nat, i: nat): nat {
    if i < at then i else i + 1
  }

  lemma RepliedWithout(pipe: seq<Msg>, at: nat, i: nat, id: Id)
    requires at < |pipe| && Replied(pipe, Before(at, i), id)
    ensures Replied(Without(pipe, at), i, id) || Answers(pipe[at], id)
  {
    var j :| 0 <= j < Before(at, i) && j < |pipe| && Answers(pipe[j], id);
    if j < at {
      assert Without(pipe, at)[j] == pipe[j];
    } else if j > at {
      assert Without(pipe, at)[j - 1] == pipe[j];
    }
  }

  lemma {:induction false} ToldWithout(pipe: seq<Msg>, at: nat, i: nat, id: Id)
    requires at < |pipe| && Told(Without(pipe, at), i, id)
    ensures Told(pipe, Before(at, i), id)
  {
    var j :| 0 <= j < i && j < |pipe| - 1 && Tells(Without(pipe, at)[j], id);
    assert Without(pipe, at)[j] == pipe[Before(at, j)];
  }

  /** What is accounted for stays so when a message before `i` (or at it) is lost or handled. */
  lemma AccountedWithout(s: State, t: State, at: nat, i: nat, id: Id)
    requires at < |Pipe(s)| && Pipe(t) == Without(Pipe(s), at) && s.missing <= t.missing && s.handled <= t.handled
    requires Ids([Pipe(s)[at]]) <= t.missing + t.handled
    requires Accounted(s, Before(at, i), id)
    ensures Accounted(t, i, id)
  {
    if Replied(Pipe(s), Before(at, i), id) {
      RepliedWithout(Pipe(s), at, i, id);
      if Answers(Pipe(s)[at], id) {
        IdsHas([Pipe(s)[at]], Pipe(s)[at]);
      }
    }
  }

  /** What is accounted for stays so while the pipe only grows. */
  lemma AccountedGrows(s: State, t: State, i: nat, k: nat, id: Id)
    requires Pipe(s) <= Pipe(t) && s.missing <= t.missing && s.handled <= t.handled && i <= k
    requires Accounted(s, i, id)
    ensures Accounted(t, k, id)
  {
    if Replied(Pipe(s), i, id) {
      var j :| 0 <= j < i && j < |Pipe(s)| && Answers(Pipe(s)[j], id);
      assert Answers(Pipe(t)[j], id);
    }
  }

  /** A restart loses what wasn't written; the results among it are missing. */
  lemma AccountedRestart(s: State, i: nat, k: nat, id: Id)
    requires Accounted(s, i, id) && (k == i || k == |s.wire|)
    ensures Accounted(Next(s, Restart), k, id)
  {
    if Replied(Pipe(s), i, id) {
      var j :| 0 <= j < i && j < |Pipe(s)| && Answers(Pipe(s)[j], id);
      if j < |s.wire| {
        assert Answers(Pipe(Next(s, Restart))[j], id);
      } else {
        assert s.agent.outbound[j - |s.wire|] == Pipe(s)[j];
        IdsHas(s.agent.outbound, Pipe(s)[j]);
      }
    }
  }

  /** A step other than losing, handling or restarting only adds to the pipe. */
  lemma PipeGrows(s: State, a: Action)
    requires Enabled(s, a) && !a.Lose? && !a.Handle? && !a.Restart?
    ensures Pipe(s) <= Pipe(Next(s, a))
    ensures s.missing <= Next(s, a).missing && s.handled <= Next(s, a).handled && s.gone <= Next(s, a).gone
  {
    match a
    case Write => WriteKeepsPipe(s);
    case SendAck => QueuedPipe(s, Ack(s.acking.id));
    case EndQueue(id, res) => QueuedPipe(s, Result(id, res));
    case Beat => QueuedPipe(s, Heartbeat(s.agent.tasks));
    case SendOther => QueuedPipe(s, Other);
    case _ =>
  }

  lemma AccountedStep(s: State, a: Action, id: Id)
    requires Enabled(s, a) && Accounted(s, |Pipe(s)|, id)
    ensures Accounted(Next(s, a), |Pipe(Next(s, a))|, id)
  {
    var t := Next(s, a);
    match a
    case Lose(at) =>
      TakenFromWire(s, at);
      AccountedWithout(s, t, at, |Pipe(t)|, id);
    case Handle =>
      TakenFromWire(s, 0);
      AccountedWithout(s, t, 0, |Pipe(t)|, id);
    case Restart =>
      AccountedRestart(s, |Pipe(s)|, |s.wire|, id);
    case _ =>
      PipeGrows(s, a);
      AccountedGrows(s, t, |Pipe(s)|, |Pipe(t)|, id);
  }

  lemma AllAccountedStep(s: State, a: Action)
    requires AllAccounted(s) && Enabled(s, a)
    ensures AllAccounted(Next(s, a))
  {
    var t := Next(s, a);
    forall id | id in t.gone || id in t.ending
      ensures Accounted(t, |Pipe(t)|, id)
    {
      if id in s.gone || id in s.ending {
        AccountedStep(s, a, id);
      } else if a.EndQueue? {
        QueuedPipe(s, Result(id, a.res));
        assert Answers(Pipe(t)[|Pipe(s)|], id);
      }
    }
  }

  /** A watch of one of the agent's tasks comes to know of it only from the agent. */
  lemma KnownBefore(s: State, a: Action, id: Id)
    requires Enabled(s, a) && Mine(Next(s, a), id) && Next(s, a).watches[id].known
    ensures Mine(s, id) && (s.watches[id].known || (a.Handle? && Tells(s.wire[0], id)))
  {
  }

  lemma ToldBefore(s: State, a: Action, i: nat, id: Id)
    requires Enabled(s, a) && !a.Lose? && !a.Handle? && !a.Restart? && i <= |Pipe(s)| && TaskTold(Next(s, a), i, id)
    ensures TaskTold(s, i, id)
  {
    var t := Next(s, a);
    PipeGrows(s, a);
    if Mine(t, id) && t.watches[id].known {
      KnownBefore(s, a, id);
    } else {
      var j :| 0 <= j < i && j < |Pipe(t)| && Tells(Pipe(t)[j], id);
      assert Pipe(t)[j] == Pipe(s)[j];
    }
  }

  /** Whatever the conductor was told of, the agent once held. */
  lemma ToldIsBegun(s: State, i: nat, id: Id)
    requires Grounded(s) && WatchesTrue(s) && TaskTold(s, i, id)
    ensures id in Begun(s)
  {
    if Mine(s, id) && s.watches[id].known {
      assert WatchTrue(s, id, s.watches[id]);
    } else {
      var j :| 0 <= j < i && j < |Pipe(s)| && Tells(Pipe(s)[j], id);
      assert Pipe(s)[j] in Pipe(s);
    }
  }

  lemma OmissionWhileGrowing(s: State, a: Action, i: nat, id: Id)
    requires Inv(s) && Enabled(s, a) && !a.Lose? && !a.Handle? && !a.Restart?
    requires i < |Pipe(Next(s, a))| && Omits(Pipe(Next(s, a))[i], id) && TaskTold(Next(s, a), i, id)
    ensures id in Next(s, a).gone && Accounted(Next(s, a), i, id)
  {
    var t := Next(s, a);
    PipeGrows(s, a);
    GrowsByOne(s, a);
    ToldBefore(s, a, i, id);
    if i < |Pipe(s)| {
      assert Pipe(t)[i] == Pipe(s)[i];
    } else {
      ToldIsBegun(s, i, id);
    }
    AccountedGrows(s, t, i, i, id);
  }

  /** At most one message is queued, and a heartbeat lists just the tasks held. */
  lemma GrowsByOne(s: State, a: Action)
    requires Enabled(s, a) && !a.Lose? && !a.Handle? && !a.Restart?
    ensures Pipe(Next(s, a)) == Pipe(s) ||
      exists m :: Pipe(Next(s, a)) == Pipe(s) + [m] && (m.Heartbeat? ==> m.listed == s.agent.tasks)
  {
    match a
    case Write => WriteKeepsPipe(s);
    case SendAck => QueuedPipe(s, Ack(s.acking.id));
    case EndQueue(id, res) => QueuedPipe(s, Result(id, res));
    case Beat => QueuedPipe(s, Heartbeat(s.agent.tasks));
    case SendOther => QueuedPipe(s, Other);
    case _ =>
  }

  lemma Taken(s: State, a: Action, at: nat)
    requires Enabled(s, a) && (a == Lose(at) || (a == Handle && at == 0))
    ensures at < |s.wire| && s.wire[at] == Pipe(s)[at] && Pipe(Next(s, a)) == Without(Pipe(s), at)
  {
    TakenFromWire(s, at);
  }

  lemma OmissionAfterTaking(s: State, a: Action, at: nat, i: nat, id: Id)
    requires Inv(s) && Enabled(s, a) && (a == Lose(at) || (a == Handle && at == 0))
    requires i < |Pipe(Next(s, a))| && Omits(Pipe(Next(s, a))[i], id) && TaskTold(Next(s, a), i, id)
    ensures id in Next(s, a).gone && Accounted(Next(s, a), i, id)
  {
    var t := Next(s, a);
    Taken(s, a, at);
    assert Pipe(t)[i] == Pipe(s)[Before(at, i)];
    if Told(Pipe(t), i, id) {
      ToldWithout(Pipe(s), at, i, id);
    } else {
      KnownBefore(s, a, id);
      assert a.Handle? && Tells(s.wire[0], id) ==> Tells(Pipe(s)[0], id);
    }
    AccountedWithout(s, t, at, i, id);
  }

  lemma OmissionAfterRestart(s: State, i: nat, id: Id)
    requires Inv(s) && i < |Pipe(Next(s, Restart))| && Omits(Pipe(Next(s, Restart))[i], id)
    requires TaskTold(Next(s, Restart), i, id)
    ensures id in Next(s, Restart).gone && Accounted(Next(s, Restart), i, id)
  {
    var t := Next(s, Restart);
    if Told(Pipe(t), i, id) {
      var j :| 0 <= j < i && j < |Pipe(t)| && Tells(Pipe(t)[j], id);
      assert Pipe(t)[j] == Pipe(s)[j];
    }
    assert Pipe(t)[i] == Pipe(s)[i];
    AccountedRestart(s, i, i, id);
  }

  lemma OmissionsMeanStep(s: State, a: Action)
    requires Inv(s) && Enabled(s, a)
    ensures OmissionsMean(Next(s, a))
  {
    var t := Next(s, a);
    forall i, id | 0 <= i < |Pipe(t)| && Omits(Pipe(t)[i], id) && TaskTold(t, i, id)
      ensures id in t.gone && Accounted(t, i, id)
    {
      match a
      case Lose(at) => OmissionAfterTaking(s, a, at, i, id);
      case Handle => OmissionAfterTaking(s, a, 0, i, id);
      case Restart => OmissionAfterRestart(s, i, id);
      case _ => OmissionWhileGrowing(s, a, i, id);
    }
  }

  /** Handling a message of the agent keeps its watches true. */
  lemma WatchAfterHandle(s: State, id: Id)
    requires Inv(s) && s.wire != [] && Mine(Next(s, Handle), id)
    ensures WatchTrue(Next(s, Handle), id, Next(s, Handle).watches[id])
  {
    var m := s.wire[0];
    assert m == Pipe(s)[0] && m in Pipe(s);
    assert WatchTrue(s, id, s.watches[id]);
    if m.Result? {
      IdsHas([m], m);
    }
    if Omits(m, id) && s.watches[id].known {
      assert TaskTold(s, 0, id);
    }
  }

  lemma WatchesTrueStep(s: State, a: Action)
    requires Inv(s) && Enabled(s, a)
    ensures WatchesTrue(Next(s, a))
  {
    var t := Next(s, a);
    forall id | Mine(t, id)
      ensures WatchTrue(t, id, t.watches[id])
    {
      if a.Handle? {
        WatchAfterHandle(s, id);
      } else {
        WatchElsewhere(s, a, id);
      }
    }
    forall m | m in Pipe(t) && m.Result?
      ensures (m.id, m.res) in t.produced
    {
      ResultsProduced(s, a, m);
    }
  }

  lemma WatchElsewhere(s: State, a: Action, id: Id)
    requires Inv(s) && Enabled(s, a) && !a.Handle? && Mine(Next(s, a), id)
    ensures WatchTrue(Next(s, a), id, Next(s, a).watches[id])
  {
    if Mine(s, id) {
      assert WatchTrue(s, id, s.watches[id]);
    }
  }

  lemma ResultsProduced(s: State, a: Action, m: Msg)
    requires WatchesTrue(s) && Enabled(s, a) && m in Pipe(Next(s, a)) && m.Result?
    ensures (m.id, m.res) in Next(s, a).produced
  {
    var t := Next(s, a);
    match a
    case Lose(at) => TakenFromWire(s, at);
    case Handle => TakenFromWire(s, 0);
    case Write => WriteKeepsPipe(s);
    case SendAck => QueuedPipe(s, Ack(s.acking.id));
    case EndQueue(id, res) => QueuedPipe(s, Result(id, res));
    case Beat => QueuedPipe(s, Heartbeat(s.agent.tasks));
    case SendOther => QueuedPipe(s, Other);
    case _ =>
  }

  lemma InvStep(s: State, a: Action)
    requires Inv(s) && Enabled(s, a)
    ensures Inv(Next(s, a))
  {
    GroundedStep(s, a);
    AllAccountedStep(s, a);
    OmissionsMeanStep(s, a);
    WatchesTrueStep(s, a);
  }

  lemma {:induction false} InvAlways(s: State, acts: seq<Action>, t: State)
    requires Inv(s) && Reaches(s, acts, t)
    ensures Inv(t)
    decreases |acts|
  {
    if acts != [] {
      InvStep(s, acts[0]);
      InvAlways(Next(s, acts[0]), acts[1..], t);
    }
  }
}
