/**
 * Tracked tasks: one agent, the messages it sends, and the conductor's watches. The agent
 * lists a task in heartbeats before acking it and until its result is queued; the conductor
 * takes a task it knows of, missing from a heartbeat, as lost.
 */
module TaskProtocol {
  import opened Transfer
  import opened Plans

  type Id = nat

  datatype Res = Res(success: bool, output: string, error: string)

  /** The agent's messages: those about tasks, and any others (chunks, listings), which share the buffer. */
  datatype Msg =
    | Ack(id: Id)
    | Result(id: Id, res: Res)
    | Heartbeat(listed: set<Id>)
    | Other

  /** Messages the outbound buffer holds at most. */
  const BUFFER: nat := 64

  // ---------------------------------------------------------------- the agent

  /** The agent's client: the tasks it lists in heartbeats and its outbound buffer. */
  datatype Agent = Agent(tasks: set<Id>, outbound: seq<Msg>)

  function Listing(a: Agent, id: Id): Agent {
    a.(tasks := a.tasks + {id})
  }

  function Delisting(a: Agent, id: Id): Agent {
    a.(tasks := a.tasks - {id})
  }

  predicate HasRoom(a: Agent) {
    |a.outbound| < BUFFER
  }

  /** Queues a message, or drops it if the buffer is full. */
  function Queued(a: Agent, m: Msg): Agent {
    if HasRoom(a) then a.(outbound := a.outbound + [m]) else a
  }

  // ---------------------------------------------------------------- the conductor's watches

  datatype Watch = Watch(node: Node, known: bool, lost: bool, result: Option<Res>)

  type Watches = map<Id, Watch>

  function Watching(ws: Watches, id: Id, node: Node): Watches {
    ws[id := Watch(node, false, false, None)]
  }

  /** An ack: the agent has the task. */
  function Acked(ws: Watches, id: Id): Watches {
    if id in ws then ws[id := ws[id].(known := true)] else ws
  }

  /** A result: the first one is kept. */
  function Answered(ws: Watches, id: Id, res: Res): Watches {
    if id in ws && ws[id].result.None? then ws[id := ws[id].(result := Some(res))] else ws
  }

  /** A watch after a heartbeat of `node`. */
  function Checked(id: Id, w: Watch, node: Node, listed: set<Id>): Watch {
    if w.node != node then w
    else if id in listed then w.(known := true)
    else if w.known then w.(lost := true)
    else w
  }

  function CheckedAll(ws: Watches, node: Node, listed: set<Id>): Watches {
    map id | id in ws :: Checked(id, ws[id], node, listed)
  }

  /** What the conductor does with a message of `node`. */
  function Handled(ws: Watches, node: Node, m: Msg): Watches {
    match m
    case Ack(id) => Acked(ws, id)
    case Result(id, res) => Answered(ws, id, res)
    case Heartbeat(listed) => CheckedAll(ws, node, listed)
    case Other => ws
  }

  // ---------------------------------------------------------------- the whole system

  /** The read loop between listing a task and sending its ack. */
  datatype Acking = Nothing | Acking(id: Id, isNew: bool)

  /**
   * The system as seen from one agent, `self`. The last five fields are history: tasks that
   * ended or were dropped by a restart, those taken up again after that, those whose result
   * was (once) never queued or was lost on the way, those whose result was handled, and every
   * result the agent produced.
   */
  datatype State = State(
    self: Node,
    agent: Agent,
    acking: Acking,
    ending: set<Id>,      // result queued (or given up on), not yet delisted
    wire: seq<Msg>,       // written to the connection, not yet handled
    watches: Watches,
    gone: set<Id>,
    again: set<Id>,
    missing: set<Id>,
    handled: set<Id>,
    produced: set<(Id, Res)>)

  function Init(self: Node): State {
    State(self, Agent({}, []), Nothing, {}, [], map[], {}, {}, {}, {}, {})
  }

  /** Every task the agent ever held. */
  function Begun(s: State): set<Id> {
    s.agent.tasks + s.gone
  }

  /** The agent's messages not handled yet, in the order sent. */
  function Pipe(s: State): seq<Msg> {
    s.wire + s.agent.outbound
  }

  datatype Action =
    | WatchTask(id: Id, node: Node)     // the conductor follows a new task, before dispatching it
    | Unwatch(id: Id)                   // it stops following one
    | List(id: Id)                      // the agent got a task (or got it again): it is listed
    | SendAck                           // and acked, if the buffer has room
    | EndQueue(id: Id, res: Res)        // a task finished: its result is queued
    | EndGiveUp(id: Id)                 // or there was no room for it in time
    | Delist(id: Id)                    // then the task is delisted
    | Beat                              // heartbeat: list and send together
    | SendOther                         // a message that isn't about tasks takes a place in the buffer
    | Write                             // the oldest queued message is written
    | Lose(at: nat)                     // a message written is lost on the way
    | Restart                           // the agent starts over
    | Handle                            // the conductor handles the oldest message written
    | Foreign(node: Node, m: Msg)       // or one of another node

  predicate Enabled(s: State, a: Action) {
    match a
    case WatchTask(id, node) => id !in s.watches && id !in Begun(s)
    case Unwatch(id) => true
    case List(id) => s.acking.Nothing?
    case SendAck => s.acking.Acking?
    case EndQueue(id, _) => CanEnd(s, id) && HasRoom(s.agent)
    case EndGiveUp(id) => CanEnd(s, id)
    case Delist(id) => id in s.ending
    case Beat => true
    case SendOther => true
    case Write => s.agent.outbound != []
    case Lose(at) => at < |s.wire|
    case Restart => true
    case Handle => s.wire != []
    case Foreign(node, m) => node != s.self && (m.Ack? || m.Result? ==> !Mine(s, m.id))
  }

  /** A task held ends once, and not before it was handed out. */
  predicate CanEnd(s: State, id: Id) {
    id in s.agent.tasks && id !in s.ending && s.acking != Acking(id, true)
  }

  function Ids(ms: seq<Msg>): set<Id> {
    set m | m in ms && m.Result? :: m.id
  }

  function Next(s: State, a: Action): State
    requires Enabled(s, a)
  {
    match a
    case WatchTask(id, node) => s.(watches := Watching(s.watches, id, node))
    case Unwatch(id) => s.(watches := s.watches - {id})
    case List(id) =>
      s.(agent := Listing(s.agent, id), acking := Acking(id, id !in s.agent.tasks),
         again := if id in s.gone && id !in s.agent.tasks then s.again + {id} else s.again)
    case SendAck => s.(agent := Queued(s.agent, Ack(s.acking.id)), acking := Nothing)
    case EndQueue(id, res) =>
      s.(agent := Queued(s.agent, Result(id, res)), ending := s.ending + {id}, produced := s.produced + {(id, res)})
    case EndGiveUp(id) => s.(ending := s.ending + {id}, missing := s.missing + {id})
    case Delist(id) => s.(agent := Delisting(s.agent, id), ending := s.ending - {id}, gone := s.gone + {id})
    case Beat => s.(agent := Queued(s.agent, Heartbeat(s.agent.tasks)))
    case SendOther => s.(agent := Queued(s.agent, Other))
    case Write => s.(agent := s.agent.(outbound := s.agent.outbound[1..]), wire := s.wire + [s.agent.outbound[0]])
    case Lose(at) =>
      s.(wire := s.wire[..at] + s.wire[at + 1..], missing := s.missing + Ids([s.wire[at]]))
    case Restart =>
      s.(agent := Agent({}, []), acking := Nothing, ending := {}, gone := s.gone + s.agent.tasks,
         missing := s.missing + (s.agent.tasks - s.ending) + Ids(s.agent.outbound))
    case Handle =>
      s.(wire := s.wire[1..], watches := Handled(s.watches, s.self, s.wire[0]), handled := s.handled + Ids([s.wire[0]]))
    case Foreign(node, m) => s.(watches := Handled(s.watches, node, m))
  }

  /** The states of a run are reached one enabled step at a time. */
  ghost predicate Reaches(s: State, acts: seq<Action>, t: State)
    decreases |acts|
  {
    if acts == [] then s == t
    else Enabled(s, acts[0]) && Reaches(Next(s, acts[0]), acts[1..], t)
  }

  // ---------------------------------------------------------------- invariants

  predicate Tells(m: Msg, id: Id) {
    m == Ack(id) || (m.Heartbeat? && id in m.listed)
  }

  predicate Omits(m: Msg, id: Id) {
    m.Heartbeat? && id !in m.listed
  }

  predicate Answers(m: Msg, id: Id) {
    m.Result? && m.id == id
  }

  /** One of the first `i` messages shows the agent has the task. */
  predicate Told(pipe: seq<Msg>, i: nat, id: Id) {
    exists j :: 0 <= j < i && j < |pipe| && Tells(pipe[j], id)
  }

  /** One of the first `i` messages is the task's result. */
  predicate Replied(pipe: seq<Msg>, i: nat, id: Id) {
    exists j :: 0 <= j < i && j < |pipe| && Answers(pipe[j], id)
  }

  predicate Known(ws: Watches, id: Id) {
    id in ws && ws[id].known
  }

  /** Its result is missing, was handled, or is among the first `i` messages on their way. */
  predicate Accounted(s: State, i: nat, id: Id) {
    id in s.missing || id in s.handled || Replied(Pipe(s), i, id)
  }

  /** Whatever mentions a task was sent after the agent got it. */
  ghost predicate Grounded(s: State) {
    && s.ending <= s.agent.tasks && (s.acking.Acking? ==> s.acking.id in Begun(s))
    && (s.acking.Acking? && s.acking.isNew ==> s.acking.id !in s.ending)
    && (forall m, id :: m in Pipe(s) && (Tells(m, id) || Answers(m, id)) ==> id in Begun(s))
    && s.handled <= Begun(s) && (forall id :: id in s.gone && id !in s.again ==> id !in s.agent.tasks)
  }

  /** A task that ended, or is ending, has its result accounted for. */
  ghost predicate AllAccounted(s: State) {
    forall id :: id in s.gone || id in s.ending ==> Accounted(s, |Pipe(s)|, id)
  }

  /**
   * A heartbeat on its way that omits a task, once the conductor was told of it by an earlier
   * message, was sent after the task was gone, and after its result.
   */
  ghost predicate OmissionsMean(s: State) {
    forall i, id :: 0 <= i < |Pipe(s)| && Omits(Pipe(s)[i], id) && TaskTold(s, i, id) ==>
      id in s.gone && Accounted(s, i, id)
  }

  predicate TaskTold(s: State, i: nat, id: Id) {
    (Mine(s, id) && s.watches[id].known) || Told(Pipe(s), i, id)
  }

  predicate Mine(s: State, id: Id) {
    id in s.watches && s.watches[id].node == s.self
  }

  /** What a watch of one of the agent's tasks says is true. */
  ghost predicate WatchTrue(s: State, id: Id, w: Watch) {
    && (w.known ==> id in Begun(s))
    && (w.lost ==> id in s.gone && (id in s.missing || id in s.handled))
    && (id in s.handled ==> w.result.Some?)
    && (w.result.Some? ==> (id, w.result.value) in s.produced)
  }

  ghost predicate WatchesTrue(s: State) {
    && (forall id :: Mine(s, id) ==> WatchTrue(s, id, s.watches[id]))
    && (forall m :: m in Pipe(s) && m.Result? ==> (m.id, m.res) in s.produced)
  }

  ghost predicate Inv(s: State) {
    Grounded(s) && AllAccounted(s) && OmissionsMean(s) && WatchesTrue(s)
  }
}
