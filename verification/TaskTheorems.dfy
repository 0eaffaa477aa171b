/** What the task protocol guarantees in every run, and the one exception. */
module TaskTheorems {
  import opened Transfer
  import opened Plans
  import opened TaskProtocol
  import opened TaskInvariants

  // ---------------------------------------------------------------- results

  lemma InitInv(self: Node)
    ensures Inv(Init(self))
  {
  }

  /**
   * A task is taken as lost only after the agent ended it or restarted; so never while it is
   * queued or running, unless the agent was given it once more after that.
   */
  lemma LostMeansGone(self: Node, acts: seq<Action>, t: State, id: Id)
    requires Reaches(Init(self), acts, t) && Mine(t, id) && t.watches[id].lost
    ensures id in t.gone && (id in t.agent.tasks ==> id in t.again)
  {
    InitInv(self);
    InvAlways(Init(self), acts, t);
    assert WatchTrue(t, id, t.watches[id]);
  }

  /**
   * When a task is taken as lost, its result, if it was queued and not lost on the way, has
   * been handled: the watch holds a result the agent produced for that task.
   */
  lemma LostMeansAnswered(self: Node, acts: seq<Action>, t: State, id: Id)
    requires Reaches(Init(self), acts, t) && Mine(t, id) && t.watches[id].lost
    ensures id in t.missing || (t.watches[id].result.Some? && (id, t.watches[id].result.value) in t.produced)
  {
    InitInv(self);
    InvAlways(Init(self), acts, t);
    assert WatchTrue(t, id, t.watches[id]);
  }

  /** A result a watch holds is one the agent produced for that very task. */
  lemma ResultIsReal(self: Node, acts: seq<Action>, t: State, id: Id)
    requires Reaches(Init(self), acts, t) && Mine(t, id) && t.watches[id].result.Some?
    ensures (id, t.watches[id].result.value) in t.produced
  {
    InitInv(self);
    InvAlways(Init(self), acts, t);
    assert WatchTrue(t, id, t.watches[id]);
  }

  // ---------------------------------------------------------------- when a task held is lost

  /** A heartbeat on its way leaves the task out, and is preceded by news of it. */
  ghost predicate Doomed(s: State, id: Id) {
    exists i :: 0 <= i < |Pipe(s)| && Omits(Pipe(s)[i], id) && TaskTold(s, i, id)
  }

  /** Steps in which the agent keeps the task and the conductor keeps following it. */
  predicate Keeps(id: Id, a: Action) {
    a != Delist(id) && a != Restart && a != Unwatch(id)
  }

  /** By steps that all keep the task it is taken as lost, with the agent still holding it. */
  ghost predicate LosesBy(s: State, id: Id, acts: seq<Action>, t: State) {
    && Reaches(s, acts, t) && (forall i :: 0 <= i < |acts| ==> Keeps(id, acts[i]))
    && Mine(t, id) && t.watches[id].lost && id in t.agent.tasks
  }

  /** The agent holds the task, and the conductor follows it and hasn't lost it. */
  predicate Held(s: State, id: Id) {
    Mine(s, id) && !s.watches[id].lost && id in s.agent.tasks
  }

  /** A step that keeps the task loses it, or dooms it, only if it was doomed. */
  lemma DoomedBefore(s: State, a: Action, id: Id)
    requires Held(s, id) && Enabled(s, a) && Keeps(id, a)
    ensures Mine(Next(s, a), id) && id in Next(s, a).agent.tasks
    ensures Next(s, a).watches[id].lost || Doomed(Next(s, a), id) ==> Doomed(s, id)
  {
    var t := Next(s, a);
    if t.watches[id].lost {
      assert s.wire[0] == Pipe(s)[0] && Omits(Pipe(s)[0], id) && TaskTold(s, 0, id);
    } else if i :| 0 <= i < |Pipe(t)| && Omits(Pipe(t)[i], id) && TaskTold(t, i, id) {
      if a.Lose? || a.Handle? {
        DoomedBeforeTaking(s, a, if a.Lose? then a.at else 0, i, id);
      } else {
        PipeGrows(s, a);
        GrowsByOne(s, a);
        assert i < |Pipe(s)| && Pipe(t)[i] == Pipe(s)[i];
        ToldBefore(s, a, i, id);
      }
    }
  }

  lemma DoomedBeforeTaking(s: State, a: Action, at: nat, i: nat, id: Id)
    requires Held(s, id) && Enabled(s, a) && (a == Lose(at) || (a == Handle && at == 0))
    requires i < |Pipe(Next(s, a))| && Omits(Pipe(Next(s, a))[i], id) && TaskTold(Next(s, a), i, id)
    ensures Doomed(s, id)
  {
    var t := Next(s, a);
    Taken(s, a, at);
    var k := Before(at, i);
    assert Pipe(t)[i] == Pipe(s)[k];
    if Told(Pipe(t), i, id) {
      ToldWithout(Pipe(s), at, i, id);
    } else {
      KnownBefore(s, a, id);
      assert a.Handle? && Tells(s.wire[0], id) ==> Tells(Pipe(s)[0], id);
    }
    assert TaskTold(s, k, id);
  }

  lemma {:induction false} LostOnlyIfDoomed(s: State, id: Id, acts: seq<Action>, t: State)
    requires Held(s, id) && LosesBy(s, id, acts, t)
    ensures Doomed(s, id)
    decreases |acts|
  {
    assert acts != [] && Keeps(id, acts[0]);
    DoomedBefore(s, acts[0], id);
    if !Next(s, acts[0]).watches[id].lost {
      LostOnlyIfDoomed(Next(s, acts[0]), id, acts[1..], t);
    }
  }

  /** Handling the messages up to the one that omits the task loses it. */
  lemma {:induction false} DoomedIsLost(s: State, id: Id, i: nat) returns (acts: seq<Action>, t: State)
    requires Mine(s, id) && id in s.agent.tasks
    requires i < |Pipe(s)| && Omits(Pipe(s)[i], id) && TaskTold(s, i, id)
    ensures LosesBy(s, id, acts, t)
    decreases i, |s.agent.outbound|
  {
    var a := if s.wire == [] then Write else Handle;
    var u := Next(s, a);
    if s.wire == [] {
      WriteKeepsPipe(s);
      acts, t := DoomedIsLost(u, id, i);
    } else if i == 0 {
      assert Pipe(s)[0] == s.wire[0];
      acts, t := [], u;
    } else {
      ToldAfterHandle(s, id, i);
      acts, t := DoomedIsLost(u, id, i - 1);
    }
    assert ([a] + acts)[1..] == acts;
    acts := [a] + acts;
  }

  lemma ToldAfterHandle(s: State, id: Id, i: nat)
    requires Mine(s, id) && s.wire != [] && 0 < i < |Pipe(s)| && TaskTold(s, i, id)
    ensures var u := Next(s, Handle);
      Mine(u, id) && i - 1 < |Pipe(u)| && Pipe(u)[i - 1] == Pipe(s)[i] && TaskTold(u, i - 1, id)
  {
    var u := Next(s, Handle);
    Taken(s, Handle, 0);
    if !u.watches[id].known {
      var j :| 0 <= j < i && j < |Pipe(s)| && Tells(Pipe(s)[j], id);
      assert j > 0 && Pipe(u)[j - 1] == Pipe(s)[j];
    }
  }

  /**
   * Exactly when a task can be taken as lost although the agent holds it all along: if and only
   * if a heartbeat that omits it is on its way, with news of the task handled or on its way
   * before it. In every run such a task has ended once before and was given out again.
   */
  lemma HeldIsLostExactly(self: Node, acts: seq<Action>, s: State, id: Id)
    requires Reaches(Init(self), acts, s) && Held(s, id)
    ensures (exists more, t :: LosesBy(s, id, more, t)) <==> Doomed(s, id)
    ensures Doomed(s, id) ==> id in s.again
  {
    if more, t :| LosesBy(s, id, more, t) {
      LostOnlyIfDoomed(s, id, more, t);
    }
    if i :| 0 <= i < |Pipe(s)| && Omits(Pipe(s)[i], id) && TaskTold(s, i, id) {
      var more, t := DoomedIsLost(s, id, i);
      InitInv(self);
      InvAlways(Init(self), acts, s);
    }
  }

  const DONE: Res := Res(true, "", "")

  lemma {:induction false} ReachesOneMore(s: State, acts: seq<Action>, t: State, a: Action)
    requires Reaches(s, acts, t) && Enabled(t, a)
    ensures Reaches(s, acts + [a], Next(t, a))
    decreases |acts|
  {
    if acts == [] {
      assert acts + [a] == [a] && [a][1..] == [];
    } else {
      ReachesOneMore(Next(s, acts[0]), acts[1..], t, a);
      assert (acts + [a])[1..] == acts[1..] + [a];
    }
  }

  /** Task 1, of the agent 0, at some point of its life. */
  function One(tasks: set<Id>, outbound: seq<Msg>, acking: Acking, wire: seq<Msg>, known: bool): State {
    State(0, Agent(tasks, outbound), acking, {}, wire, map[1 := Watch(0, known, false, None)], {}, {}, {}, {}, {})
  }

  lemma Given(s: State) returns (acts: seq<Action>)
    requires s == Init(0)
    ensures Reaches(s, acts, One({1}, [Ack(1)], Nothing, [], false))
  {
    var s1, s2 := One({}, [], Nothing, [], false), One({1}, [], Acking(1, true), [], false);
    var s3 := One({1}, [Ack(1)], Nothing, [], false);
    assert Next(s, WatchTask(1, 0)) == s1;
    assert Next(s1, List(1)) == s2;
    assert Next(s2, SendAck) == s3;
    ReachesOneMore(s, [], s, WatchTask(1, 0));
    ReachesOneMore(s, [WatchTask(1, 0)], s1, List(1));
    acts := [WatchTask(1, 0)] + [List(1)] + [SendAck];
    ReachesOneMore(s, [WatchTask(1, 0)] + [List(1)], s2, SendAck);
  }

  lemma GivenAndKnown() returns (acts: seq<Action>)
    ensures Reaches(Init(0), acts, One({1}, [], Nothing, [], true))
  {
    var front := Given(Init(0));
    var s3, s4 := One({1}, [Ack(1)], Nothing, [], false), One({1}, [], Nothing, [Ack(1)], false);
    var s5 := One({1}, [], Nothing, [], true);
    assert Next(s3, Write) == s4;
    assert Next(s4, Handle) == s5;
    ReachesOneMore(Init(0), front, s3, Write);
    ReachesOneMore(Init(0), front + [Write], s4, Handle);
    acts := front + [Write] + [Handle];
  }

  /** Task 1 has ended; its result and a heartbeat without it are queued, then written. */
  function OneEnded(tasks: set<Id>, outbound: seq<Msg>, acking: Acking, wire: seq<Msg>, again: set<Id>): State {
    State(0, Agent(tasks, outbound), acking, {}, wire, map[1 := Watch(0, true, false, None)], {1}, again, {}, {},
          {(1, DONE)})
  }

  lemma Ended() returns (acts: seq<Action>)
    ensures Reaches(Init(0), acts, OneEnded({}, [Result(1, DONE), Heartbeat({})], Nothing, [], {}))
  {
    var front := GivenAndKnown();
    var s := One({1}, [], Nothing, [], true);
    var r := Result(1, DONE);
    var s1 := s.(agent := Agent({1}, [r]), ending := {1}, produced := {(1, DONE)});
    var s2 := OneEnded({}, [r], Nothing, [], {});
    assert Next(s, EndQueue(1, DONE)) == s1;
    assert Next(s1, Delist(1)) == s2;
    assert Next(s2, Beat) == OneEnded({}, [r, Heartbeat({})], Nothing, [], {});
    ReachesOneMore(Init(0), front, s, EndQueue(1, DONE));
    ReachesOneMore(Init(0), front + [EndQueue(1, DONE)], s1, Delist(1));
    ReachesOneMore(Init(0), front + [EndQueue(1, DONE)] + [Delist(1)], s2, Beat);
    acts := front + [EndQueue(1, DONE)] + [Delist(1)] + [Beat];
  }

  lemma EndedAndGivenAgain() returns (acts: seq<Action>)
    ensures Reaches(Init(0), acts, OneEnded({1}, [], Acking(1, true), [Result(1, DONE), Heartbeat({})], {1}))
  {
    var front := Ended();
    var r, b := Result(1, DONE), Heartbeat({});
    var s, s1 := OneEnded({}, [r, b], Nothing, [], {}), OneEnded({}, [b], Nothing, [r], {});
    var s2 := OneEnded({}, [], Nothing, [r, b], {});
    assert Next(s, Write) == s1;
    assert Next(s1, Write) == s2;
    assert Next(s2, List(1)) == OneEnded({1}, [], Acking(1, true), [r, b], {1});
    ReachesOneMore(Init(0), front, s, Write);
    ReachesOneMore(Init(0), front + [Write], s1, Write);
    ReachesOneMore(Init(0), front + [Write] + [Write], s2, List(1));
    acts := front + [Write] + [Write] + [List(1)];
  }

  /**
   * The exception is real: a task given out a second time can be taken as lost while the
   * agent holds it, from a heartbeat sent between its two lives.
   */
  lemma LostWhileHeld() returns (acts: seq<Action>, t: State)
    ensures Reaches(Init(0), acts, t) && Mine(t, 1) && t.watches[1].lost && 1 in t.agent.tasks
  {
    var front := EndedAndGivenAgain();
    var s := OneEnded({1}, [], Acking(1, true), [Result(1, DONE), Heartbeat({})], {1});
    var s1 := Next(s, Handle);
    assert s1.wire == [Heartbeat({})] && s1.watches == map[1 := Watch(0, true, false, Some(DONE))];
    ReachesOneMore(Init(0), front, s, Handle);
    ReachesOneMore(Init(0), front + [Handle], s1, Handle);
    acts, t := front + [Handle] + [Handle], Next(s1, Handle);
  }
}
