/**
 * The ownership protocol of WebSocket upgrades, as a state machine.
 *
 * One action is one atomic access, one lock section, or one channel send or receive.
 * Reservers, upgrade callbacks, failed-upgrade closures, the drop of the shared upgrade
 * record, connection tasks, the server handle and the supervisor interleave freely.
 */
module ConnectionProtocol {
  import opened Prelude
  import opened ConnectionRegistry

  /** WEBSOCKET_CONNECTION_LIMIT: the permits the semaphore starts with. */
  const PERMITS: nat := 32

  datatype Event =
    | Activate(id: Id)
    | CallbackCompleted(id: Id, callback: CallbackOutcome)
    | UpgradeCompleted(id: Id, terminal: TerminalOutcome)
    | Stop(abort: bool)

  /** A request between acquiring its permit and the insertion of its entry. */
  datatype Reserver = HasPermit | SawAccepting | Issued(id: Id) | Locked(id: Id)

  datatype Stage = Pending | Activated | Terminal

  /** The upgrade callback and the drop of its guard run in one task, in this order. */
  datatype Callback =
    | Idle
    | Running
    | WonActivation
    | CarriesPermit
    | Returning
    | WonTerminal(panicked: bool)
    | ClearedSlot(panicked: bool)
    | LostRace(panicked: bool)
    | SawActivated(panicked: bool)
    | Done

  /** The failed-upgrade closure, or the drop of the shared record. */
  datatype Racer = Waiting | Won(outcome: TerminalOutcome) | Cleared(outcome: TerminalOutcome) | Gone

  datatype Upgrade = Upgrade(stage: Stage, slot: bool, callback: Callback, failed: Racer, dropped: Racer)

  datatype TaskOutcome = Completed | Raised | Aborted

  datatype Task = Task(id: Id, running: bool, outcome: TaskOutcome)

  datatype Supervisor =
    | Looping
    | Handling(event: Event)
    | ClosingAll(abort: bool)
    | CancellingAll
    | Joined(id: Id, panicked: bool)
    | Returned

  /** Requests, the registry lock they contend for and the semaphore; `burned` counts ids refused inside the lock. */
  datatype Requests = Requests(lock: Option<nat>, at: map<nat, Reserver>, available: nat, burned: nat)

  /**
   * The supervisor's own state; `sealed` records that it has closed the entries after it stopped
   * admission.
   */
  datatype Desk = Desk(
    pc: Supervisor,
    stopping: bool,
    sealed: bool,
    tasks: map<nat, Task>,
    taskConnections: map<nat, Id>,
    nextTask: nat)

  /**
   * History: every callback observation, consumed completion and entry removal; and whether the
   * supervisor saw a false answer or a broken assertion, an activation was refused, or the permit
   * slot was empty when an activation needed it.
   */
  datatype Log = Log(
    observed: multiset<Id>,
    consumed: multiset<Id>,
    removed: multiset<Id>,
    failure: bool,
    refused: bool,
    permitMissing: bool)

  datatype State = State(
    reg: Registry,
    requests: Requests,
    upgrades: map<Id, Upgrade>,
    channel: seq<Event>,
    desk: Desk,
    log: Log)

  const INITIAL := State(EMPTY, Requests(None, map[], PERMITS, 0), map[], [],
                         Desk(Looping, false, false, map[], map[], 0),
                         Log(multiset{}, multiset{}, multiset{}, false, false, false))

  /** What the parties of one upgrade do. */
  datatype Op =
    | StartCallback
    | TryActivate
    | TakePermit
    | SendActivate
    | FinishCallback(panicked: bool)
    | ClearSlot
    | SendFinished
    | LoadStage
    | SendReturned
    | FailUpgrade
    | FailClear
    | FailSend
    | DropRecord(panicked: bool)
    | DropClear
    | DropSend

  predicate Ready(u: Upgrade, op: Op) {
    match op
    case StartCallback => u.callback == Idle && u.dropped == Waiting
    case TryActivate => u.callback == Running
    case TakePermit => u.callback == WonActivation
    case SendActivate => u.callback == CarriesPermit
    case FinishCallback(_) => u.callback in {Running, Returning}
    case ClearSlot => u.callback.WonTerminal?
    case SendFinished => u.callback.ClearedSlot?
    case LoadStage => u.callback.LostRace?
    case SendReturned => u.callback.SawActivated?
    case FailUpgrade => u.failed == Waiting && u.dropped == Waiting
    case FailClear => u.failed.Won?
    case FailSend => u.failed.Cleared?
    // the record is dropped once nothing that could still use it is alive
    case DropRecord(_) => u.callback in {Idle, Done} && u.failed in {Waiting, Gone} && u.dropped == Waiting
    case DropClear => u.dropped.Won?
    case DropSend => u.dropped.Cleared?
  }

  /** The stage cell's compare-and-exchange from Pending. */
  function CompareExchange(u: Upgrade, next: Stage): Upgrade {
    if u.stage == Pending then u.(stage := next) else u
  }

  function Advance(u: Upgrade, op: Op): Upgrade
    requires Ready(u, op)
  {
    match op
    case StartCallback => u.(callback := Running)
    case TryActivate =>
      CompareExchange(u, Activated).(callback := if u.stage == Pending then WonActivation else Returning)
    case TakePermit => u.(slot := false, callback := CarriesPermit)
    case SendActivate => u.(callback := Returning)
    case FinishCallback(panicked) =>
      CompareExchange(u, Terminal).(callback := if u.stage == Pending then WonTerminal(panicked) else LostRace(panicked))
    case ClearSlot => u.(slot := false, callback := ClearedSlot(u.callback.panicked))
    case SendFinished => u.(callback := Done)
    case LoadStage => u.(callback := if u.stage == Activated then SawActivated(u.callback.panicked) else Done)
    case SendReturned => u.(callback := Done)
    case FailUpgrade => CompareExchange(u, Terminal).(failed := if u.stage == Pending then Won(Failed) else Gone)
    case FailClear => u.(slot := false, failed := Cleared(u.failed.outcome))
    case FailSend => u.(failed := Gone)
    case DropRecord(panicked) =>
      CompareExchange(u, Terminal).(dropped := if u.stage != Pending then Gone
      else Won(if panicked then Panicked else Cancelled))
    case DropClear => u.(slot := false, dropped := Cleared(u.dropped.outcome))
    case DropSend => u.(dropped := Gone)
  }

  /** The event an operation sends, if any. */
  function Emitted(u: Upgrade, id: Id, op: Op): seq<Event>
    requires Ready(u, op)
  {
    match op
    case SendActivate => [Activate(id)]
    case SendFinished => [UpgradeCompleted(id, if u.callback.panicked then CallbackPanicked else CallbackCancelled)]
    case SendReturned => [CallbackCompleted(id, if u.callback.panicked then CallbackRaised else CallbackReturned)]
    case FailSend => [UpgradeCompleted(id, u.failed.outcome)]
    case DropSend => [UpgradeCompleted(id, u.dropped.outcome)]
    case _ => []
  }

  /** Whether the operation drops a permit it found in the slot. */
  predicate Releases(u: Upgrade, op: Op) {
    (op.ClearSlot? || op.FailClear? || op.DropClear?) && u.slot
  }

  datatype Action =
    | Acquire(r: nat)
    | GiveUp(r: nat)
    | CheckAccepting(r: nat)
    | IssueId(r: nat)
    | LockAndRecheck(r: nat)
    | InsertEntry(r: nat)
    | StopAccepting
    | CloseWebsockets
    | SendStop(abort: bool)
    | Operate(id: Id, op: Op)
    | Receive
    | Handle
    | CloseAll
    | CancelAll
    | EndTask(t: nat, outcome: TaskOutcome)
    | Join(t: nat)
    | ObserveJoined
    | Return

  predicate At(q: Requests, r: nat, where: Reserver) {
    r in q.at && q.at[r] == where
  }

  predicate Enabled(s: State, a: Action) {
    match a
    case Acquire(r) => r !in s.requests.at && s.requests.available > 0
    case GiveUp(r) => At(s.requests, r, HasPermit)
    case CheckAccepting(r) => At(s.requests, r, HasPermit)
    case IssueId(r) => At(s.requests, r, SawAccepting)
    case LockAndRecheck(r) => r in s.requests.at && s.requests.at[r].Issued? && s.requests.lock == None
    case InsertEntry(r) => r in s.requests.at && s.requests.at[r].Locked?
    case StopAccepting => true
    case CloseWebsockets => s.requests.lock == None
    case SendStop(_) => true
    case Operate(id, op) => id in s.upgrades && Ready(s.upgrades[id], op)
    case Receive => s.desk.pc == Looping && s.channel != []
    case Handle => s.desk.pc.Handling? && (s.desk.pc.event.Stop? || s.requests.lock == None)
    case CloseAll => s.desk.pc.ClosingAll? && s.requests.lock == None
    case CancelAll => s.desk.pc == CancellingAll && s.requests.lock == None
    case EndTask(t, _) => t in s.desk.tasks && s.desk.tasks[t].running
    case Join(t) => s.desk.pc == Looping && t in s.desk.tasks && !s.desk.tasks[t].running
    case ObserveJoined => s.desk.pc.Joined? && s.requests.lock == None
    case Return =>
      s.desk.pc == Looping && s.desk.stopping && s.desk.tasks == map[] && s.requests.lock == None &&
      s.reg.entries == map[]
  }

  function Enter(q: Requests, r: nat): Requests
    requires q.available > 0
  {
    q.(at := q.at[r := HasPermit], available := q.available - 1)
  }

  /** A refused request: its permit is released, and with it the ids it had been issued. */
  function Leave(q: Requests, r: nat, issued: nat): Requests {
    q.(at := q.at - {r}, available := q.available + 1, burned := q.burned + issued)
  }

  function Move(q: Requests, r: nat, next: Reserver, lock: Option<nat>): Requests {
    q.(at := q.at[r := next], lock := lock)
  }

  function Release(q: Requests, permits: nat): Requests {
    q.(available := q.available + permits)
  }

  function Requested(s: State, q: Requests): State {
    s.(requests := q)
  }

  function IssuedId(s: State, r: nat): State {
    s.(requests := Move(s.requests, r, Issued(s.reg.nextId), s.requests.lock),
    reg := s.reg.(nextId := s.reg.nextId + 1))
  }

  function Inserted(s: State, r: nat, id: Id): State {
    s.(reg := s.reg.Insert(id),
    requests := s.requests.(lock := None, at := s.requests.at - {r}),
    upgrades := s.upgrades[id := Upgrade(Pending, true, Idle, Waiting, Waiting)],
    log := s.log.(failure := s.log.failure || id in s.reg.entries))
  }

  /** After the supervisor has dropped its receiver, a send loses its event, and with it an activation's permit. */
  function Send(s: State, events: seq<Event>): State {
    if s.desk.pc.Returned?
    then s.(requests := Release(s.requests, if events != [] && events[0].Activate? then 1 else 0))
    else s.(channel := s.channel + events)
  }

  function Operated(s: State, id: Id, op: Op): State
    requires id in s.upgrades && Ready(s.upgrades[id], op)
  {
    var u := s.upgrades[id];
    Send(s.(upgrades := s.upgrades[id := Advance(u, op)],
         requests := Release(s.requests, if Releases(u, op) then 1 else 0),
         log := s.log.(permitMissing := s.log.permitMissing || (op.TakePermit? && !u.slot))),
         Emitted(u, id, op))
  }

  function One(id: Id, yes: bool): multiset<Id> {
    if yes then multiset{id} else multiset{}
  }

  /** The history of a lock section that may observe a callback, consume a completion and remove an entry. */
  function Record(l: Log, r: Registry, id: Id, answer: Answer, consumes: bool): Log {
    l.(observed := l.observed + One(id, answer.ok && !consumes),
    consumed := l.consumed + One(id, answer.ok && consumes),
    removed := l.removed + One(id, id in r.entries && id !in answer.reg.entries),
    failure := l.failure || !answer.ok || (consumes && r.completions >= r.nextId - 1))
  }

  function Decided(s: State, id: Id, answer: Answer, consumes: bool): State {
    s.(reg := answer.reg, log := Record(s.log, s.reg, id, answer, consumes), desk := s.desk.(pc := Looping))
  }

  function Spawn(d: Desk, id: Id): Desk {
    d.(pc := Looping, tasks := d.tasks[d.nextTask := Task(id, true, Completed)],
    taskConnections := d.taskConnections[d.nextTask := id], nextTask := d.nextTask + 1)
  }

  function HandleActivate(s: State, id: Id): State {
    var answer := s.reg.MarkActive(id);
    if answer.ok then s.(reg := answer.reg, desk := Spawn(s.desk, id))
    else s.(desk := s.desk.(pc := Looping), log := s.log.(refused := true), requests := Release(s.requests, 1))
  }

  function HandleStop(s: State, abort: bool): State {
    s.(reg := s.reg.(accepting := false), desk := s.desk.(stopping := true, pc := ClosingAll(abort)))
  }

  function HandleEvent(s: State, e: Event): State {
    match e
    case Activate(id) => HandleActivate(s, id)
    case CallbackCompleted(id, outcome) => Decided(s, id, s.reg.ObserveCallback(id, outcome), false)
    case UpgradeCompleted(id, outcome) => Decided(s, id, s.reg.ObserveTerminal(id, outcome), true)
    case Stop(abort) => HandleStop(s, abort)
  }

  function Take(s: State): State
    requires s.channel != []
  {
    s.(desk := s.desk.(pc := Handling(s.channel[0])), channel := s.channel[1..])
  }

  function TaskEnded(s: State, n: nat, outcome: TaskOutcome): State
    requires n in s.desk.tasks
  {
    s.(desk := s.desk.(tasks := s.desk.tasks[n := s.desk.tasks[n].(running := false, outcome := outcome)]),
    requests := Release(s.requests, 1))
  }

  function Forget(d: Desk, n: nat, pc: Supervisor): Desk {
    d.(tasks := d.tasks - {n}, taskConnections := d.taskConnections - {n}, pc := pc)
  }

  /** A task that returned reports its own connection; one that panicked or was aborted is looked up. */
  function TaskJoined(s: State, n: nat): State
    requires n in s.desk.tasks
  {
    var task := s.desk.tasks[n];
    if task.outcome == Completed then s.(desk := Forget(s.desk, n, Joined(task.id, false)))
    else if n in s.desk.taskConnections then
      s.(desk := Forget(s.desk, n, Joined(s.desk.taskConnections[n], task.outcome == Raised)))
    else
      s.(desk := Forget(s.desk, n, Looping), log := s.log.(failure := true))
  }

  function EveryEntry(s: State, r: Registry, d: Desk): State {
    s.(reg := r, desk := d)
  }

  function Apply(s: State, a: Action): State
    requires Enabled(s, a)
  {
    match a
    case Acquire(r) => Requested(s, Enter(s.requests, r))
    case GiveUp(r) => Requested(s, Leave(s.requests, r, 0))
    case CheckAccepting(r) =>
      Requested(s, if s.reg.accepting then Move(s.requests, r, SawAccepting, s.requests.lock) else Leave(s.requests, r, 0))
    case IssueId(r) => IssuedId(s, r)
    case LockAndRecheck(r) =>
      Requested(s, if s.reg.accepting then Move(s.requests, r, Locked(s.requests.at[r].id), Some(r)) else Leave(s.requests, r, 1))
    case InsertEntry(r) => Inserted(s, r, s.requests.at[r].id)
    case StopAccepting => s.(reg := s.reg.(accepting := false))
    case CloseWebsockets => EveryEntry(s, s.reg.BeginClosing(), s.desk)
    case SendStop(abort) => Send(s, [Stop(abort)])
    case Operate(id, op) => Operated(s, id, op)
    case Receive => Take(s)
    case Handle => HandleEvent(s, s.desk.pc.event)
    case CloseAll =>
      EveryEntry(s, s.reg.BeginClosing(), s.desk.(sealed := true, pc := if s.desk.pc.abort then CancellingAll else Looping))
    case CancelAll => EveryEntry(s, s.reg.CancelOwned(), s.desk.(pc := Looping))
    case EndTask(t, outcome) => TaskEnded(s, t, outcome)
    case Join(t) => TaskJoined(s, t)
    case ObserveJoined => Decided(s, s.desk.pc.id, s.reg.ObserveCompletion(s.desk.pc.id, s.desk.pc.panicked), true)
    case Return => s.(desk := s.desk.(pc := Returned))
  }

  /** A run: every action is enabled where it is taken. */
  predicate Valid(s: State, run: seq<Action>)
    decreases |run|
  {
    run == [] || (Enabled(s, run[0]) && Valid(Apply(s, run[0]), run[1..]))
  }

  function Final(s: State, run: seq<Action>): State
    requires Valid(s, run)
    decreases |run|
  {
    if run == [] then s else Final(Apply(s, run[0]), run[1..])
  }
}
