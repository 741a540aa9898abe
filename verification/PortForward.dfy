/**
 * The port-forward session manager as a protocol. A task is a program counter; a lock is held by
 * the task whose counter lies inside the locked region; one step is what a task does between two
 * points where it may wait. Waiting for joins, timers and sockets is a choice of step.
 */
module PortForward {
  import opened Wrappers

  const MAX_SESSIONS: nat := 16
  const OPEN_FAILURE_THRESHOLD: nat := 3

  type SessionId = nat
  type Task = nat

  datatype SessionState = Starting | Active | Stopping | Stopped | Failed {
    predicate IsTerminal() { Stopped? || Failed? }

    function Rank(): nat {
      match this
      case Starting => 0
      case Active => 1
      case Stopping => 2
      case _ => 3
    }
  }

  datatype PortSelector = Number(number: nat) | Name(name: string)

  /** A requested target; its context is checked before any session exists. */
  datatype Target =
    | Service(uid: string, port: PortSelector)
    | Pod(uid: string, container: string, remotePort: nat)

  /** Active-session equivalence, fixed by resolution. */
  datatype TargetKey =
    | ServiceKey(uid: string, sourcePort: nat)
    | PodKey(uid: string, container: string, remotePort: nat)

  function KeyFromResolved(target: Target, sourcePort: nat): TargetKey {
    match target
    case Service(uid, _) => ServiceKey(uid, sourcePort)
    case Pod(uid, container, remotePort) => PodKey(uid, container, remotePort)
  }

  datatype Session = Session(
    context: string, target: Target, key: Option<TargetKey>, state: SessionState,
    revision: nat, openFailures: nat, cancelled: bool)
  {
    predicate Live() { !state.IsTerminal() }
  }

  datatype Event = Event(revision: nat, id: SessionId, state: SessionState)

  datatype Row = Row(revision: nat, state: SessionState)

  datatype Pc =
    // start: lookup, insertion, resolution, admission, publication
    | StartIdle(context: string, target: Target)
    | StartScan(context: string, target: Target, todo: set<SessionId>)
    | StartResolve(id: SessionId, context: string, epoch: nat)
    | StartWait(id: SessionId, context: string, epoch: nat, key: TargetKey)
    | StartAdmit(id: SessionId, context: string, epoch: nat, key: TargetKey)
    | StartKeys(id: SessionId, context: string, key: TargetKey, todo: set<SessionId>)
    | StartCount(id: SessionId, context: string, key: TargetKey, todo: set<SessionId>, seen: set<SessionId>)
    | StartBind(id: SessionId, context: string, key: TargetKey, seen: set<SessionId>)
    | StartPublish(id: SessionId, context: string, key: TargetKey, seen: set<SessionId>, revision: nat)
    | StartDiscard(id: SessionId)
    | StartFail(id: SessionId)
    | StartFailed(id: SessionId)
    | StartFailedSend(id: SessionId, revision: nat)
    // stop
    | StopLookup(id: SessionId)
    | StopWait(id: SessionId)
    | StopMarked(id: SessionId)
    | StopJoin(id: SessionId)
    | StopEnded(id: SessionId)
    // a failed stream, and the finalizer the third one spawns
    | FailureSeen(id: SessionId)
    | FailureJoin(id: SessionId)
    | FailureEnded(id: SessionId)
    // context transition
    | SwitchIdle(to: string)
    | SwitchMark(to: string, todo: set<SessionId>, joins: set<SessionId>)
    | SwitchMarked(to: string, todo: set<SessionId>, joins: set<SessionId>, id: SessionId)
    | SwitchJoin(to: string, joins: set<SessionId>)
    | SwitchEnded(to: string, joins: set<SessionId>, id: SessionId)
    // shutdown
    | ShutIdle
    | ShutWait
    | ShutMark(todo: set<SessionId>)
    // list snapshot
    | ListIdle
    | ListWait(base: nat)
    | ListPrune(base: nat)
    | ListRead(base: nat, todo: set<SessionId>, rows: map<SessionId, Row>)
    | Listed(base: nat, rows: map<SessionId, Row>)
    | Finished
  {
    predicate HoldsManager() {
      StartScan? || StartAdmit? || StartKeys? || StartCount? || StartBind? || StartPublish?
      || SwitchMark? || SwitchMarked? || SwitchJoin? || SwitchEnded? || ListPrune? || ListRead?
    }

    predicate HoldsGate() { StartPublish? || StartFailedSend? }

    /** Holding the lock of session `sid`. */
    predicate HoldsSession(sid: SessionId) {
      (StartFailed? || StopMarked? || StopEnded? || FailureEnded? || SwitchMarked? || SwitchEnded?) && id == sid
    }

    /** Where a request enters the manager. */
    predicate IsEntry() {
      StartIdle? || StopLookup? || FailureSeen? || SwitchIdle? || ShutIdle? || ListIdle?
    }
  }

  datatype State = State(
    sessions: map<SessionId, Session>,
    listed: set<SessionId>,
    context: string,
    epoch: nat,
    clock: nat,
    log: seq<Event>,
    shutdown: bool,
    tasks: map<Task, Pc>)

  predicate Init(s: State) {
    s.sessions == map[] && s.listed == {} && s.epoch == 0 && s.clock == 1 && s.log == []
    && !s.shutdown && s.tasks == map[]
  }

  predicate ManagerFree(s: State) { forall t :: t in s.tasks ==> !s.tasks[t].HoldsManager() }

  predicate GateFree(s: State) { forall t :: t in s.tasks ==> !s.tasks[t].HoldsGate() }

  predicate SessionFree(s: State, id: SessionId) { forall t :: t in s.tasks ==> !s.tasks[t].HoldsSession(id) }

  function At(s: State, t: Task, pc: Pc): State {
    s.(tasks := s.tasks[t := pc])
  }

  function Write(s: State, id: SessionId, x: Session): State {
    s.(sessions := s.sessions[id := x])
  }

  function Unlist(s: State, id: SessionId): State {
    s.(listed := s.listed - {id})
  }

  /** Allocate the next revision for a session and publish its state under it. */
  function Publish(s: State, id: SessionId): State
    requires id in s.sessions
  {
    Write(s, id, s.sessions[id].(revision := s.clock))
      .(clock := s.clock + 1, log := s.log + [Event(s.clock, id, s.sessions[id].state)])
  }

  // --- what one task does when it takes a lock ----------------------------------------------

  /** Counters that wait for the manager lock. */
  predicate WantsManager(pc: Pc) {
    pc.StartIdle? || pc.StartWait? || pc.StartDiscard? || pc.StartFailedSend? || pc.StopLookup?
    || pc.SwitchIdle? || pc.ShutWait? || (pc.ShutMark? && pc.todo == {}) || pc.ListWait?
  }

  function Acquired(s: State, t: Task): State
    requires t in s.tasks && WantsManager(s.tasks[t])
    requires s.tasks[t].StartDiscard? ==> s.tasks[t].id in s.sessions
  {
    match s.tasks[t]
    case StartIdle(context, target) =>
      if s.context != context then At(s, t, Finished) else At(s, t, StartScan(context, target, s.listed))
    case StartWait(id, context, epoch, key) => At(s, t, StartAdmit(id, context, epoch, key))
    case StartDiscard(id) =>
      if id in s.listed && s.sessions[id].state == Starting then At(Unlist(s, id), t, Finished)
      else At(s, t, Finished)
    case StartFailedSend(id, revision) =>
      At(s.(log := s.log + [Event(revision, id, Failed)]), t, Finished)
    case StopLookup(id) => At(s, t, if id in s.listed then StopWait(id) else Finished)
    case SwitchIdle(to) => At(s.(epoch := s.epoch + 1), t, SwitchMark(to, s.listed, {}))
    case ShutWait => At(s, t, ShutMark(s.listed))
    case ShutMark(_) => At(s.(listed := {}), t, Finished)
    case ListWait(base) => At(s, t, ListPrune(base))
  }

  /** Counters that scan the listed sessions one by one. */
  predicate Inspects(pc: Pc, id: SessionId) {
    (pc.StartScan? || pc.StartKeys? || pc.StartCount? || pc.ListRead?) && id in pc.todo
  }

  function Inspected(s: State, t: Task, id: SessionId): State
    requires t in s.tasks && Inspects(s.tasks[t], id) && id in s.sessions
  {
    var x := s.sessions[id];
    match s.tasks[t]
    case StartScan(context, target, todo) =>
      if x.Live() && x.target == target then At(s, t, Finished)
      else At(s, t, StartScan(context, target, todo - {id}))
    case StartKeys(own, context, key, todo) =>
      if x.Live() && x.key == Some(key) then At(Unlist(s, own), t, Finished)
      else At(s, t, StartKeys(own, context, key, todo - {id}))
    case StartCount(own, context, key, todo, seen) =>
      At(s, t, StartCount(own, context, key, todo - {id}, if id != own && x.Live() then seen + {id} else seen))
    case ListRead(base, todo, rows) =>
      At(s, t, ListRead(base, todo - {id}, rows[id := Row(x.revision, x.state)]))
  }

  /** Counters that lock one session to move it on. */
  predicate Seizes(pc: Pc, id: SessionId) {
    ((pc.StartFail? || pc.StopWait? || pc.StopJoin? || pc.FailureSeen? || pc.FailureJoin?) && pc.id == id)
    || ((pc.SwitchMark? || pc.ShutMark?) && id in pc.todo)
    || (pc.SwitchJoin? && id in pc.joins)
  }

  /** The state a task moves a session to under its lock, if it still applies. */
  function Goal(pc: Pc, x: Session): Option<SessionState> {
    match pc
    case StartFail(_) => if x.state == Starting then Some(Failed) else None
    case StopWait(_) => if x.state == Starting || x.state == Active then Some(Stopping) else None
    case StopJoin(_) => if x.state == Stopping then Some(Stopped) else None
    case FailureSeen(_) =>
      if x.state == Active && x.openFailures + 1 >= OPEN_FAILURE_THRESHOLD then Some(Stopping) else None
    case FailureJoin(_) => if x.state == Stopping then Some(Failed) else None
    case SwitchMark(_, _, _) => if x.Live() then Some(Stopping) else None
    case SwitchJoin(_, _) => if x.state == Stopping then Some(Stopped) else None
    case ShutMark(_) => if x.Live() then Some(Stopping) else None
    case _ => None
  }

  function AfterSeize(pc: Pc, id: SessionId, moved: bool): Pc {
    match pc
    case StartFail(_) => if moved then StartFailed(id) else Finished
    case StopWait(_) => if moved then StopMarked(id) else Finished
    case StopJoin(_) => if moved then StopEnded(id) else Finished
    case FailureSeen(_) => if moved then FailureJoin(id) else Finished
    case FailureJoin(_) => if moved then FailureEnded(id) else Finished
    case SwitchMark(to, todo, joins) =>
      if moved then SwitchMarked(to, todo - {id}, joins, id) else SwitchMark(to, todo - {id}, joins)
    case SwitchJoin(to, joins) => if moved then SwitchEnded(to, joins - {id}, id) else SwitchJoin(to, joins - {id})
    case ShutMark(todo) => ShutMark(todo - {id})
    case _ => pc
  }

  /** The session after a task has had its lock. */
  function SeizedSession(pc: Pc, x: Session): Session {
    var goal := Goal(pc, x);
    var failures := if pc.FailureSeen? && x.state == Active then x.openFailures + 1 else x.openFailures;
    var cancels := pc.ShutMark? || (goal.Some? && (pc.StopWait? || pc.FailureSeen? || pc.SwitchMark?));
    x.(state := if goal.Some? then goal.value else x.state,
       openFailures := failures,
       cancelled := x.cancelled || cancels)
  }

  function Seized(s: State, t: Task, id: SessionId): State
    requires t in s.tasks && Seizes(s.tasks[t], id) && id in s.sessions
  {
    var pc, x := s.tasks[t], s.sessions[id];
    At(Write(s, id, SeizedSession(pc, x)), t, AfterSeize(pc, id, Goal(pc, x).Some?))
  }

  /** Counters that hold a session lock and now publish its state under the gate. */
  predicate Publishes(pc: Pc) {
    pc.StopMarked? || pc.StopEnded? || pc.FailureEnded? || pc.SwitchMarked? || pc.SwitchEnded?
  }

  function AfterPublish(pc: Pc): Pc {
    match pc
    case StopMarked(id) => StopJoin(id)
    case SwitchMarked(to, todo, joins, id) => SwitchMark(to, todo, joins + {id})
    case SwitchEnded(to, joins, _) => SwitchJoin(to, joins)
    case _ => Finished
  }

  // --- the remaining moves of a task --------------------------------------------------------

  datatype Choice =
    | Proceed                    // fall through to the next region
    | Resolved(sourcePort: nat)
    | Unresolved
    | RequestCancelled
    | BindFailed
    | GiveUp                     // session cancelled, or the bound address is unreadable

  function Cancel(s: State, id: SessionId): State
    requires id in s.sessions
  {
    Write(s, id, s.sessions[id].(cancelled := true))
  }

  /** Falling through to the next region; absent when not possible. */
  function Proceeded(s: State, t: Task): Option<State>
    requires t in s.tasks
  {
    match s.tasks[t]
    case StartAdmit(id, context, epoch, key) =>
      if s.epoch != epoch || s.context != context then Some(At(s, t, StartFail(id)))
      else Some(At(s, t, StartKeys(id, context, key, s.listed)))
    case StartKeys(id, context, key, todo) =>
      if todo == {} then Some(At(s, t, StartCount(id, context, key, s.listed, {}))) else None
    case StartCount(id, context, key, todo, seen) =>
      if todo != {} then None
      else if |seen| >= MAX_SESSIONS then Some(At(Unlist(s, id), t, Finished))
      else Some(At(s, t, StartBind(id, context, key, seen)))
    case SwitchMark(to, todo, joins) =>
      if todo == {} then Some(At(s, t, SwitchJoin(to, joins))) else None
    case ShutIdle => Some(At(s.(shutdown := true), t, ShutWait))
    case ListIdle => if s.clock > 0 then Some(At(s, t, ListWait(s.clock - 1))) else None
    case ListPrune(base) => Some(At(s, t, ListRead(base, s.listed, map[])))
    case ListRead(base, todo, rows) => if todo == {} then Some(At(s, t, Listed(base, rows))) else None
    case _ => None
  }

  /** The request is cancelled where a start listens for it. */
  function Withdrawn(s: State, t: Task): Option<State>
    requires t in s.tasks
  {
    var pc := s.tasks[t];
    if pc.StartIdle? then Some(At(s, t, Finished))
    else if !(pc.StartResolve? || pc.StartWait? || pc.StartBind?) || pc.id !in s.sessions then None
    else if pc.StartBind? then Some(At(Unlist(Cancel(s, pc.id), pc.id), t, Finished))
    else Some(At(Cancel(s, pc.id), t, StartDiscard(pc.id)))
  }

  /** What resolving the target or binding the local port came to. */
  function Answered(s: State, t: Task, choice: Choice): Option<State>
    requires t in s.tasks && choice != Proceed && choice != RequestCancelled
  {
    var pc := s.tasks[t];
    match choice
    case Resolved(port) =>
      if pc.StartResolve? && pc.id in s.sessions then
        Some(At(s, t, StartWait(pc.id, pc.context, pc.epoch, KeyFromResolved(s.sessions[pc.id].target, port))))
      else None
    case Unresolved => if pc.StartResolve? then Some(At(s, t, StartFail(pc.id))) else None
    case BindFailed => if pc.StartBind? then Some(At(Unlist(s, pc.id), t, Finished)) else None
    case GiveUp => if pc.StartResolve? || pc.StartBind? then Some(At(s, t, Finished)) else None
  }

  /** The state after a move that takes no further lock; absent when not possible. */
  function Moved(s: State, t: Task, choice: Choice): Option<State>
    requires t in s.tasks
  {
    match choice
    case Proceed => Proceeded(s, t)
    case RequestCancelled => Withdrawn(s, t)
    case _ => Answered(s, t, choice)
  }

  /** Insert a fresh Starting session and publish it. */
  function Inserted(s: State, t: Task, id: SessionId): State
    requires t in s.tasks && s.tasks[t].StartScan?
  {
    var pc := s.tasks[t];
    var x := Session(pc.context, pc.target, None, Starting, s.clock, 0, false);
    At(Publish(Write(s, id, x), id).(listed := s.listed + {id}), t, StartResolve(id, pc.context, s.epoch))
  }

  /** The linearization point of a start: Active, or nothing if somebody else won. */
  function Committed(s: State, t: Task): State
    requires t in s.tasks && s.tasks[t].StartPublish? && s.tasks[t].id in s.sessions
  {
    var pc := s.tasks[t];
    var x := s.sessions[pc.id];
    if x.state != Starting || x.cancelled || s.shutdown then At(s, t, Finished)
    else
      At(Write(s, pc.id, x.(key := Some(pc.key), state := Active, revision := pc.revision))
           .(log := s.log + [Event(pc.revision, pc.id, Active)]), t, Finished)
  }

  /** A failed start stamps its row and lets the session go, still holding the gate. */
  function FailureStamped(s: State, t: Task): State
    requires t in s.tasks && s.tasks[t].StartFailed? && s.tasks[t].id in s.sessions
  {
    var id := s.tasks[t].id;
    At(Write(s, id, s.sessions[id].(revision := s.clock)).(clock := s.clock + 1), t, StartFailedSend(id, s.clock))
  }

  datatype Step =
    | Spawn(task: Task, entry: Pc)
    | Acquire(task: Task)
    | Inspect(task: Task, id: SessionId)
    | Seize(task: Task, id: SessionId)
    | Announce(task: Task)
    | Move(task: Task, choice: Choice)
    | Insert(task: Task, id: SessionId)
    | TakeGate(task: Task)
    | Commit(task: Task)
    | StampFailure(task: Task)
    | Prune(task: Task, gone: set<SessionId>)
    | SwitchCommit(task: Task, committed: bool)
    | CleanEof(id: SessionId)

  predicate CanAcquire(s: State, t: Task) {
    && t in s.tasks && WantsManager(s.tasks[t]) && ManagerFree(s)
    && (s.tasks[t].StartDiscard? ==> s.tasks[t].id in s.sessions && SessionFree(s, s.tasks[t].id))
  }

  predicate CanInspect(s: State, t: Task, id: SessionId) {
    t in s.tasks && Inspects(s.tasks[t], id) && id in s.sessions && SessionFree(s, id)
  }

  predicate CanSeize(s: State, t: Task, id: SessionId) {
    t in s.tasks && Seizes(s.tasks[t], id) && id in s.sessions && SessionFree(s, id)
  }

  predicate CanAnnounce(s: State, t: Task) {
    t in s.tasks && Publishes(s.tasks[t]) && s.tasks[t].id in s.sessions && GateFree(s)
  }

  predicate CanMove(s: State, t: Task, choice: Choice) {
    t in s.tasks && Moved(s, t, choice).Some?
  }

  predicate CanInsert(s: State, t: Task, id: SessionId) {
    t in s.tasks && s.tasks[t].StartScan? && s.tasks[t].todo == {} && id !in s.sessions && GateFree(s)
  }

  predicate CanCommit(s: State, t: Task) {
    t in s.tasks && s.tasks[t].StartPublish? && s.tasks[t].id in s.sessions && SessionFree(s, s.tasks[t].id)
  }

  predicate CanStamp(s: State, t: Task) {
    t in s.tasks && s.tasks[t].StartFailed? && s.tasks[t].id in s.sessions && GateFree(s)
  }

  /** Steps that neither take the manager lock or a session's, nor fall through. */
  predicate IsDirect(step: Step) {
    !step.Acquire? && !step.Inspect? && !step.Seize? && !step.Move?
  }

  predicate CanDirectly(s: State, step: Step)
    requires IsDirect(step)
  {
    match step
    case Spawn(t, entry) => t !in s.tasks && entry.IsEntry() && (entry.FailureSeen? ==> entry.id in s.sessions)
    case Announce(t) => CanAnnounce(s, t)
    case Insert(t, id) => CanInsert(s, t, id)
    case TakeGate(t) => t in s.tasks && s.tasks[t].StartBind? && GateFree(s) && !s.shutdown
    case Commit(t) => CanCommit(s, t)
    case StampFailure(t) => CanStamp(s, t)
    case Prune(t, gone) =>
      && t in s.tasks && gone <= s.listed
      && (s.tasks[t].StartAdmit? || s.tasks[t].ListPrune? || (s.tasks[t].StartScan? && s.tasks[t].todo == {}))
      && forall id :: id in gone ==> id in s.sessions && s.sessions[id].state.IsTerminal()
    case SwitchCommit(t, _) => t in s.tasks && s.tasks[t].SwitchJoin? && s.tasks[t].joins == {}
    case CleanEof(id) => id in s.sessions && SessionFree(s, id)
  }

  function Announced(s: State, t: Task): State
    requires CanAnnounce(s, t)
  {
    At(Publish(s, s.tasks[t].id), t, AfterPublish(s.tasks[t]))
  }

  function Directly(s: State, step: Step): State
    requires IsDirect(step) && CanDirectly(s, step)
  {
    match step
    case Spawn(t, entry) => At(s, t, entry)
    case Announce(t) => Announced(s, t)
    case Insert(t, id) => Inserted(s, t, id)
    case TakeGate(t) =>
      var pc := s.tasks[t];
      At(s.(clock := s.clock + 1), t, StartPublish(pc.id, pc.context, pc.key, pc.seen, s.clock))
    case Commit(t) => Committed(s, t)
    case StampFailure(t) => FailureStamped(s, t)
    case Prune(t, gone) => s.(listed := s.listed - gone)
    case SwitchCommit(t, committed) =>
      At(if committed then s.(context := s.tasks[t].to) else s, t, Finished)
    case CleanEof(id) => Write(s, id, s.sessions[id].(openFailures := 0))
  }

  predicate Enabled(s: State, step: Step) {
    match step
    case Acquire(t) => CanAcquire(s, t)
    case Inspect(t, id) => CanInspect(s, t, id)
    case Seize(t, id) => CanSeize(s, t, id)
    case Move(t, choice) => CanMove(s, t, choice)
    case _ => CanDirectly(s, step)
  }

  function Exec(s: State, step: Step): State
    requires Enabled(s, step)
  {
    match step
    case Acquire(t) => Acquired(s, t)
    case Inspect(t, id) => Inspected(s, t, id)
    case Seize(t, id) => Seized(s, t, id)
    case Move(t, choice) => Moved(s, t, choice).value
    case _ => Directly(s, step)
  }

  ghost predicate IsRun(states: seq<State>, steps: seq<Step>) {
    && |states| == |steps| + 1 && Init(states[0])
    && forall i :: 0 <= i < |steps| ==> Enabled(states[i], steps[i]) && states[i + 1] == Exec(states[i], steps[i])
  }
}
