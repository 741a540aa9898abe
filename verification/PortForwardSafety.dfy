/**
 * Safety of the port-forward protocol, by rely and guarantee: every step changes the shared state
 * only in the ways `Rely` allows, and what each task has established survives such changes.
 */
module PortForwardSafety {
  import opened Wrappers
  import opened PortForward

  /** The counter of the task a step moves, if there is one. */
  function Mover(s: State, step: Step): Pc {
    if step.CleanEof? || step.task !in s.tasks then Finished else s.tasks[step.task]
  }

  // --- lock ownership -----------------------------------------------------------------------

  predicate Clash(p: Pc, q: Pc) {
    (p.HoldsManager() && q.HoldsManager()) || (p.HoldsGate() && q.HoldsGate())
  }

  ghost predicate Exclusive(s: State) {
    forall t, u :: t in s.tasks && u in s.tasks && t != u ==>
      && !Clash(s.tasks[t], s.tasks[u])
      && forall id :: !(s.tasks[t].HoldsSession(id) && s.tasks[u].HoldsSession(id))
  }

  /** A counter that moves on holds only locks that were free or already its own. */
  ghost predicate TakesFree(s: State, pc: Pc, next: Pc) {
    && (next.HoldsManager() ==> ManagerFree(s) || pc.HoldsManager())
    && (next.HoldsGate() ==> GateFree(s) || pc.HoldsGate())
    && forall id :: next.HoldsSession(id) ==> SessionFree(s, id) || pc.HoldsSession(id)
  }

  /** One step moves one task. */
  ghost predicate OneTask(s: State, r: State, step: Step) {
    if step.Prune? || step.CleanEof? then r.tasks == s.tasks
    else step.task in r.tasks && r.tasks == s.tasks[step.task := r.tasks[step.task]]
  }

  /** The mover's new counter shares no lock with another task's. */
  lemma MoverExclusive(s: State, pc: Pc, next: Pc, other: Pc)
    requires TakesFree(s, pc, next)
    requires !Clash(pc, other) && forall id :: !(pc.HoldsSession(id) && other.HoldsSession(id))
    requires exists u :: u in s.tasks && s.tasks[u] == other
    ensures !Clash(next, other) && forall id :: !(next.HoldsSession(id) && other.HoldsSession(id))
  {
  }

  lemma ExclusiveAfter(s: State, r: State, step: Step)
    requires Exclusive(s) && OneTask(s, r, step)
    requires !step.Prune? && !step.CleanEof? ==> TakesFree(s, Mover(s, step), r.tasks[step.task])
    ensures Exclusive(r)
  {
    if !step.Prune? && !step.CleanEof? {
      forall u | u in s.tasks && u != step.task
        ensures !Clash(r.tasks[step.task], s.tasks[u])
        ensures forall id :: !(r.tasks[step.task].HoldsSession(id) && s.tasks[u].HoldsSession(id))
      {
        MoverExclusive(s, Mover(s, step), r.tasks[step.task], s.tasks[u]);
      }
    }
  }

  // --- what a step may do to the shared state -----------------------------------------------

  /** The start that inserted session `sid` and has not finished with it. */
  predicate Owns(pc: Pc, sid: SessionId) {
    (pc.StartResolve? || pc.StartWait? || pc.StartAdmit? || pc.StartKeys? || pc.StartCount? || pc.StartBind?
     || pc.StartPublish? || pc.StartDiscard? || pc.StartFail?) && pc.id == sid
  }

  /** How one session may change under another task's feet. */
  predicate Follows(pc: Pc, id: SessionId, x: Session, y: Session) {
    && y.context == x.context && y.target == x.target
    && (y.key == x.key || (pc.StartPublish? && pc.id == id && y.key == Some(pc.key) && x.state == Starting))
    && (y.state == x.state || x.state.Rank() < y.state.Rank())
    && (y.state == Active && x.state != Active ==>
          pc.StartPublish? && pc.id == id && y.key == Some(pc.key) && x.state == Starting)
    && (x.cancelled ==> y.cancelled)
  }

  /** Sessions only move forward, and a session's state changes only under its lock. */
  ghost predicate SessionsFollow(s: State, r: State, pc: Pc) {
    && s.sessions.Keys <= r.sessions.Keys
    && (forall id :: id in s.sessions ==>
          && Follows(pc, id, s.sessions[id], r.sessions[id])
          && (r.sessions[id].state == s.sessions[id].state || SessionFree(s, id)))
    && (forall id :: id in r.sessions && id !in s.sessions ==>
          pc.StartScan? && r.sessions[id].state == Starting && r.sessions[id].key.None?
          && r.sessions[id].context == pc.context)
  }

  /** Who may list, unlist, switch or shut down. */
  ghost predicate ListingFollows(s: State, r: State, pc: Pc) {
    && (forall id :: id in s.listed && id !in r.listed ==>
          || (s.shutdown && pc.ShutMark? && pc.todo == {})
          || Owns(pc, id)
          || (id in s.sessions && s.sessions[id].state.IsTerminal()))
    && (forall id :: id in r.listed && id !in s.listed ==> pc.StartScan? && id !in s.sessions && id in r.sessions)
    && (r.context == s.context || (pc.SwitchJoin? && r.sessions == s.sessions && r.listed == s.listed))
    && (s.shutdown ==> r.shutdown)
    && (r.shutdown && !s.shutdown ==> r.sessions == s.sessions && r.listed == s.listed)
    && (pc.StartPublish? && r.sessions != s.sessions ==> !r.shutdown && r.listed == s.listed)
  }

  ghost predicate Rely(s: State, r: State, pc: Pc) {
    SessionsFollow(s, r, pc) && ListingFollows(s, r, pc)
  }

  /** What a step promises the other tasks. */
  ghost predicate Guaranteed(s: State, r: State, step: Step) {
    && OneTask(s, r, step)
    && (!step.Prune? && !step.CleanEof? ==> TakesFree(s, Mover(s, step), r.tasks[step.task]))
    && Rely(s, r, Mover(s, step))
  }

  ghost predicate Guarantee(s: State, step: Step)
    requires Enabled(s, step)
  {
    Guaranteed(s, Exec(s, step), step)
  }

  lemma AcquireGuarantee(s: State, t: Task)
    requires CanAcquire(s, t) && (s.tasks[t].ShutMark? ==> s.shutdown)
    ensures Guaranteed(s, Acquired(s, t), Acquire(t))
  {
    AcquireTakesFree(s, t);
    AcquireRely(s, t);
  }

  lemma AcquireTakesFree(s: State, t: Task)
    requires CanAcquire(s, t)
    ensures OneTask(s, Acquired(s, t), Acquire(t)) && TakesFree(s, s.tasks[t], Acquired(s, t).tasks[t])
  {
  }

  lemma AcquireRely(s: State, t: Task)
    requires CanAcquire(s, t) && (s.tasks[t].ShutMark? ==> s.shutdown)
    ensures Rely(s, Acquired(s, t), s.tasks[t])
  {
    AcquireListing(s, t);
    StillRely(s, Acquired(s, t), s.tasks[t]);
  }

  lemma AcquireListing(s: State, t: Task)
    requires CanAcquire(s, t) && (s.tasks[t].ShutMark? ==> s.shutdown)
    ensures Acquired(s, t).sessions == s.sessions && ListingFollows(s, Acquired(s, t), s.tasks[t])
  {
  }

  lemma StillRely(s: State, r: State, pc: Pc)
    requires r.sessions == s.sessions && ListingFollows(s, r, pc)
    ensures Rely(s, r, pc)
  {
  }

  lemma InspectTakesFree(s: State, t: Task, id: SessionId)
    requires CanInspect(s, t, id)
    ensures TakesFree(s, s.tasks[t], Inspected(s, t, id).tasks[t])
  {
  }

  lemma InspectRely(s: State, t: Task, id: SessionId)
    requires CanInspect(s, t, id)
    ensures Rely(s, Inspected(s, t, id), s.tasks[t])
  {
    InspectQuiet(s, t, id);
    QuietRely(s, Inspected(s, t, id), s.tasks[t]);
  }

  lemma InspectQuiet(s: State, t: Task, id: SessionId)
    requires CanInspect(s, t, id)
    ensures var r, pc := Inspected(s, t, id), s.tasks[t];
            && r.sessions == s.sessions && r.context == s.context && r.shutdown == s.shutdown
            && (r.listed == s.listed || (WorksOn(pc) && r.listed == s.listed - {pc.id}))
  {
  }

  lemma InspectGuarantee(s: State, t: Task, id: SessionId)
    requires CanInspect(s, t, id)
    ensures Guaranteed(s, Inspected(s, t, id), Inspect(t, id))
  {
    InspectTakesFree(s, t, id);
    InspectRely(s, t, id);
  }

  lemma SeizedFollows(pc: Pc, id: SessionId, x: Session)
    requires Seizes(pc, id)
    ensures Follows(pc, id, x, SeizedSession(pc, x))
  {
  }

  lemma SeizeTakesFree(s: State, pc: Pc, id: SessionId, moved: bool)
    requires Seizes(pc, id) && SessionFree(s, id)
    ensures TakesFree(s, pc, AfterSeize(pc, id, moved))
  {
  }

  /** Writing one free session forward keeps to the rely. */
  lemma WriteRely(s: State, r: State, pc: Pc, id: SessionId, y: Session)
    requires id in s.sessions && SessionFree(s, id) && Follows(pc, id, s.sessions[id], y)
    requires r == Write(s, id, y).(tasks := r.tasks) && !pc.StartPublish?
    ensures Rely(s, r, pc)
  {
  }

  lemma SeizeGuarantee(s: State, t: Task, id: SessionId)
    requires CanSeize(s, t, id)
    ensures Guaranteed(s, Seized(s, t, id), Seize(t, id))
  {
    var pc, x := s.tasks[t], s.sessions[id];
    SeizedFollows(pc, id, x);
    SeizeTakesFree(s, pc, id, Goal(pc, x).Some?);
    WriteRely(s, Seized(s, t, id), pc, id, SeizedSession(pc, x));
  }

  lemma AnnounceGuarantee(s: State, t: Task)
    requires CanAnnounce(s, t)
    ensures Guaranteed(s, Announced(s, t), Announce(t))
  {
  }

  /** A cancelled request marks its own session and may unlist it. */
  lemma CancelRely(s: State, r: State, pc: Pc, id: SessionId)
    requires id in s.sessions && Owns(pc, id)
    requires r.sessions == s.sessions[id := s.sessions[id].(cancelled := true)]
    requires r.listed == s.listed || r.listed == s.listed - {id}
    requires r.context == s.context && r.shutdown == s.shutdown && !pc.StartPublish?
    ensures Rely(s, r, pc)
  {
  }

  lemma MoveTakesFree(s: State, t: Task, choice: Choice)
    requires CanMove(s, t, choice)
    ensures OneTask(s, Moved(s, t, choice).value, Move(t, choice))
    ensures TakesFree(s, s.tasks[t], Moved(s, t, choice).value.tasks[t])
  {
    if choice == Proceed {
      ProceedLocks(s, t);
    } else {
      ResultLocks(s, t, choice);
    }
  }

  /** A move takes no lock, though it may keep the manager's. */
  predicate TakesNoLock(s: State, r: State, t: Task)
    requires t in s.tasks
  {
    && t in r.tasks && r.tasks == s.tasks[t := r.tasks[t]]
    && !r.tasks[t].HoldsGate() && (r.tasks[t].HoldsManager() ==> s.tasks[t].HoldsManager())
    && !r.tasks[t].StartFailed? && !r.tasks[t].StopMarked? && !r.tasks[t].StopEnded? && !r.tasks[t].FailureEnded?
    && !r.tasks[t].SwitchMarked? && !r.tasks[t].SwitchEnded?
  }

  lemma ProceedLocks(s: State, t: Task)
    requires t in s.tasks && Proceeded(s, t).Some?
    ensures TakesNoLock(s, Proceeded(s, t).value, t)
  {
  }

  lemma ResultLocks(s: State, t: Task, choice: Choice)
    requires CanMove(s, t, choice) && choice != Proceed
    ensures TakesNoLock(s, Moved(s, t, choice).value, t)
  {
  }

  lemma MoveCancelRely(s: State, t: Task)
    requires t in s.tasks && Withdrawn(s, t).Some?
    ensures Rely(s, Withdrawn(s, t).value, s.tasks[t])
  {
    if !s.tasks[t].StartIdle? {
      CancelRely(s, Withdrawn(s, t).value, s.tasks[t], s.tasks[t].id);
    }
  }

  /** A step that leaves sessions and context alone, and unlists at most the mover's own session. */
  lemma QuietRely(s: State, r: State, pc: Pc)
    requires r.sessions == s.sessions && r.context == s.context && (s.shutdown ==> r.shutdown)
    requires r.listed == s.listed || (r.shutdown == s.shutdown && WorksOn(pc) && r.listed == s.listed - {pc.id})
    ensures Rely(s, r, pc)
  {
  }

  predicate WorksOn(pc: Pc) {
    (pc.StartKeys? || pc.StartCount?) && Owns(pc, pc.id)
  }

  lemma MoveProceedRely(s: State, t: Task)
    requires t in s.tasks && Proceeded(s, t).Some?
    ensures Rely(s, Proceeded(s, t).value, s.tasks[t])
  {
    ProceedQuiet(s, t);
    QuietRely(s, Proceeded(s, t).value, s.tasks[t]);
  }

  lemma ProceedQuiet(s: State, t: Task)
    requires t in s.tasks && Proceeded(s, t).Some?
    ensures var r, pc := Proceeded(s, t).value, s.tasks[t];
            && r.sessions == s.sessions && r.context == s.context && (s.shutdown ==> r.shutdown)
            && (r.listed == s.listed || (r.shutdown == s.shutdown && WorksOn(pc) && r.listed == s.listed - {pc.id}))
  {
  }

  lemma MoveResultRely(s: State, t: Task, choice: Choice)
    requires CanMove(s, t, choice) && choice != Proceed && choice != RequestCancelled
    ensures Rely(s, Moved(s, t, choice).value, s.tasks[t])
  {
  }

  lemma MoveGuarantee(s: State, t: Task, choice: Choice)
    requires CanMove(s, t, choice)
    ensures Guaranteed(s, Moved(s, t, choice).value, Move(t, choice))
  {
    MoveTakesFree(s, t, choice);
    if choice == Proceed {
      MoveProceedRely(s, t);
    } else if choice == RequestCancelled {
      MoveCancelRely(s, t);
    } else {
      MoveResultRely(s, t, choice);
    }
  }

  lemma InsertGuarantee(s: State, t: Task, id: SessionId)
    requires CanInsert(s, t, id)
    ensures Guaranteed(s, Inserted(s, t, id), Insert(t, id))
  {
  }

  lemma CommitGuarantee(s: State, t: Task)
    requires CanCommit(s, t)
    ensures Guaranteed(s, Committed(s, t), Commit(t))
  {
  }

  lemma StampGuarantee(s: State, t: Task)
    requires CanStamp(s, t)
    ensures Guaranteed(s, FailureStamped(s, t), StampFailure(t))
  {
  }

  /** The direct steps that leave every session as it is. */
  predicate IsQuiet(step: Step) {
    step.Spawn? || step.TakeGate? || step.Prune? || step.SwitchCommit?
  }

  lemma QuietListing(s: State, step: Step)
    requires IsQuiet(step) && CanDirectly(s, step)
    ensures Directly(s, step).sessions == s.sessions && ListingFollows(s, Directly(s, step), Mover(s, step))
  {
  }

  lemma QuietTask(s: State, step: Step)
    requires IsQuiet(step) && CanDirectly(s, step)
    ensures OneTask(s, Directly(s, step), step)
    ensures !step.Prune? ==> TakesFree(s, Mover(s, step), Directly(s, step).tasks[step.task])
  {
  }

  lemma QuietGuarantee(s: State, step: Step)
    requires IsQuiet(step) && CanDirectly(s, step)
    ensures Guaranteed(s, Directly(s, step), step)
  {
    QuietListing(s, step);
    QuietTask(s, step);
    StillRely(s, Directly(s, step), Mover(s, step));
  }

  lemma CleanGuarantee(s: State, id: SessionId)
    requires CanDirectly(s, CleanEof(id))
    ensures Guaranteed(s, Directly(s, CleanEof(id)), CleanEof(id))
  {
  }

  lemma DirectGuarantee(s: State, step: Step)
    requires IsDirect(step) && CanDirectly(s, step)
    ensures Guaranteed(s, Directly(s, step), step)
  {
    match step {
      case Announce(t) => AnnounceGuarantee(s, t);
      case Insert(t, id) => InsertGuarantee(s, t, id);
      case Commit(t) => CommitGuarantee(s, t);
      case StampFailure(t) => StampGuarantee(s, t);
      case CleanEof(id) => CleanGuarantee(s, id);
      case _ => QuietGuarantee(s, step);
    }
  }

  /** Every step keeps to its guarantee. */
  lemma StepGuarantee(s: State, step: Step)
    requires Enabled(s, step)
    requires step.Acquire? && s.tasks[step.task].ShutMark? ==> s.shutdown
    ensures Guarantee(s, step)
  {
    match step {
      case Acquire(t) => AcquireGuarantee(s, t);
      case Inspect(t, id) => InspectGuarantee(s, t, id);
      case Seize(t, id) => SeizeGuarantee(s, t, id);
      case Move(t, choice) => MoveGuarantee(s, t, choice);
      case _ => DirectGuarantee(s, step);
    }
  }

  // --- a start and its session --------------------------------------------------------------

  predicate CarriesContext(pc: Pc) {
    pc.StartResolve? || pc.StartWait? || pc.StartAdmit? || pc.StartKeys? || pc.StartCount? || pc.StartBind?
    || pc.StartPublish?
  }

  /** An owned session is not Active, has no key yet, keeps its start's context, and while Starting stays listed. */
  ghost predicate OwnerOk(s: State, pc: Pc) {
    forall id :: Owns(pc, id) ==>
      && id in s.sessions && s.sessions[id].key.None? && s.sessions[id].state != Active
      && (CarriesContext(pc) ==> s.sessions[id].context == pc.context)
      && (s.sessions[id].state == Starting ==> id in s.listed || s.shutdown)
  }

  ghost predicate Ownership(s: State) {
    && (forall t, u, id :: t in s.tasks && u in s.tasks && t != u && Owns(s.tasks[t], id) ==> !Owns(s.tasks[u], id))
    && (forall t :: t in s.tasks ==> OwnerOk(s, s.tasks[t]))
  }

  lemma OwnerStable(s: State, r: State, pc: Pc, other: Pc)
    requires Rely(s, r, pc) && OwnerOk(s, other) && forall id :: Owns(other, id) ==> !Owns(pc, id)
    ensures OwnerOk(r, other)
  {
    forall id | Owns(other, id)
      ensures id in r.sessions && r.sessions[id].key.None? && r.sessions[id].state != Active
      ensures CarriesContext(other) ==> r.sessions[id].context == other.context
      ensures r.sessions[id].state == Starting ==> id in r.listed || r.shutdown
    {
      assert Follows(pc, id, s.sessions[id], r.sessions[id]);
    }
  }

  /** What a moving task must show about the session it owns afterwards. */
  ghost predicate OwnsSameOrFresh(s: State, r: State, pc: Pc, next: Pc) {
    && OwnerOk(r, next)
    && forall id :: Owns(next, id) ==> Owns(pc, id) || id !in s.sessions
  }

  lemma OwnershipAfter(s: State, r: State, step: Step)
    requires Ownership(s) && OneTask(s, r, step) && Rely(s, r, Mover(s, step))
    requires !step.Prune? && !step.CleanEof? ==> OwnsSameOrFresh(s, r, Mover(s, step), r.tasks[step.task])
    requires step.Prune? ==> step.task in s.tasks && OwnerOk(r, s.tasks[step.task])
    ensures Ownership(r)
  {
    var pc := Mover(s, step);
    forall u | u in r.tasks ensures OwnerOk(r, r.tasks[u]) {
      if step.CleanEof? || u != step.task {
        OwnerStable(s, r, pc, s.tasks[u]);
      }
    }
  }

  lemma OwnsAcquire(s: State, t: Task)
    requires CanAcquire(s, t) && OwnerOk(s, s.tasks[t])
    ensures OwnsSameOrFresh(s, Acquired(s, t), s.tasks[t], Acquired(s, t).tasks[t])
  {
  }

  lemma OwnsCancelled(s: State, t: Task)
    requires t in s.tasks && Withdrawn(s, t).Some? && OwnerOk(s, s.tasks[t])
    ensures OwnsSameOrFresh(s, Withdrawn(s, t).value, s.tasks[t], Withdrawn(s, t).value.tasks[t])
  {
  }

  lemma OwnsProceeded(s: State, t: Task)
    requires t in s.tasks && Proceeded(s, t).Some? && OwnerOk(s, s.tasks[t])
    ensures OwnsSameOrFresh(s, Proceeded(s, t).value, s.tasks[t], Proceeded(s, t).value.tasks[t])
  {
  }

  lemma OwnsMove(s: State, t: Task, choice: Choice)
    requires CanMove(s, t, choice) && OwnerOk(s, s.tasks[t])
    ensures OwnsSameOrFresh(s, Moved(s, t, choice).value, s.tasks[t], Moved(s, t, choice).value.tasks[t])
  {
    if choice == RequestCancelled {
      OwnsCancelled(s, t);
    } else if choice == Proceed {
      OwnsProceeded(s, t);
    }
  }

  lemma OwnsInspect(s: State, t: Task, id: SessionId)
    requires CanInspect(s, t, id) && OwnerOk(s, s.tasks[t])
    ensures OwnsSameOrFresh(s, Inspected(s, t, id), s.tasks[t], Inspected(s, t, id).tasks[t])
  {
  }

  lemma OwnsSeize(s: State, t: Task, id: SessionId)
    requires CanSeize(s, t, id)
    ensures OwnsSameOrFresh(s, Seized(s, t, id), s.tasks[t], Seized(s, t, id).tasks[t])
  {
  }

  lemma OwnsInsert(s: State, t: Task, id: SessionId)
    requires CanInsert(s, t, id)
    ensures OwnsSameOrFresh(s, Inserted(s, t, id), s.tasks[t], Inserted(s, t, id).tasks[t])
  {
  }

  lemma OwnsGate(s: State, t: Task)
    requires CanDirectly(s, TakeGate(t)) && OwnerOk(s, s.tasks[t])
    ensures OwnsSameOrFresh(s, Directly(s, TakeGate(t)), s.tasks[t], Directly(s, TakeGate(t)).tasks[t])
  {
  }

  lemma OwnsNothing(s: State, step: Step)
    requires IsDirect(step) && CanDirectly(s, step) && !step.CleanEof? && !step.Prune? && !step.Insert? && !step.TakeGate?
    ensures step.task in Directly(s, step).tasks && forall id :: !Owns(Directly(s, step).tasks[step.task], id)
  {
  }

  lemma OwnsDirect(s: State, step: Step)
    requires IsDirect(step) && CanDirectly(s, step) && !step.CleanEof? && !step.Prune? && OwnerOk(s, Mover(s, step))
    ensures step.task in Directly(s, step).tasks
    ensures OwnsSameOrFresh(s, Directly(s, step), Mover(s, step), Directly(s, step).tasks[step.task])
  {
    match step {
      case Insert(t, id) => OwnsInsert(s, t, id);
      case TakeGate(t) => OwnsGate(s, t);
      case _ => OwnsNothing(s, step);
    }
  }

  lemma MoverOwns(s: State, step: Step)
    requires Enabled(s, step) && !step.CleanEof? && !step.Prune? && OwnerOk(s, Mover(s, step))
    ensures step.task in Exec(s, step).tasks
    ensures OwnsSameOrFresh(s, Exec(s, step), Mover(s, step), Exec(s, step).tasks[step.task])
  {
    hide OwnsSameOrFresh, CanDirectly;
    if IsDirect(step) {
      OwnsDirect(s, step);
    } else if step.Acquire? {
      OwnsAcquire(s, step.task);
    } else if step.Move? {
      OwnsMove(s, step.task, step.choice);
    } else if step.Inspect? {
      OwnsInspect(s, step.task, step.id);
    } else {
      OwnsSeize(s, step.task, step.id);
    }
  }

  /** Pruning takes only ended sessions. */
  lemma PruneOwns(s: State, r: State, t: Task, gone: set<SessionId>, pc: Pc)
    requires CanDirectly(s, Prune(t, gone)) && r == Directly(s, Prune(t, gone)) && OwnerOk(s, pc)
    ensures OwnerOk(r, pc)
  {
  }

  lemma StepOwnership(s: State, step: Step)
    requires Ownership(s) && Enabled(s, step) && Guarantee(s, step)
    ensures Ownership(Exec(s, step))
  {
    if step.Prune? {
      PruneOwns(s, Exec(s, step), step.task, step.gone, s.tasks[step.task]);
    } else if !step.CleanEof? {
      MoverOwns(s, step);
    }
    OwnershipAfter(s, Exec(s, step), step);
  }

  // --- distinct keys ------------------------------------------------------------------------

  predicate HoldsKey(x: Session, key: TargetKey) {
    x.Live() && x.key == Some(key)
  }

  ghost predicate NobodyHolds(s: State, key: TargetKey, except: set<SessionId>) {
    forall id :: id in s.sessions && HoldsKey(s.sessions[id], key) ==> id in except
  }

  /** What a start has established about its key so far. */
  ghost predicate KeyOk(s: State, pc: Pc) {
    && (pc.StartKeys? ==> s.shutdown || NobodyHolds(s, pc.key, pc.todo))
    && (pc.StartCount? || pc.StartBind? || pc.StartPublish? ==> s.shutdown || NobodyHolds(s, pc.key, {}))
  }

  /** Live sessions holding a key are listed and hold pairwise distinct keys. */
  ghost predicate DistinctKeys(s: State) {
    && (forall id :: id in s.sessions && s.sessions[id].Live() && s.sessions[id].key.Some? ==>
          id in s.listed || s.shutdown)
    && (forall i, j :: i in s.sessions && j in s.sessions && i != j && s.sessions[i].Live() && s.sessions[j].Live() ==>
          s.sessions[i].key.None? || s.sessions[i].key != s.sessions[j].key)
  }

  lemma KeyStable(s: State, r: State, pc: Pc, other: Pc)
    requires Rely(s, r, pc) && KeyOk(s, other) && (other.HoldsManager() ==> !pc.HoldsManager())
    ensures KeyOk(r, other)
  {
    if other.StartKeys? {
      NobodyStill(s, r, pc, other.key, other.todo);
    } else if other.StartCount? || other.StartBind? || other.StartPublish? {
      NobodyStill(s, r, pc, other.key, {});
    }
  }

  /** While another task holds the manager lock, nobody comes to hold a key. */
  lemma NobodyStill(s: State, r: State, pc: Pc, key: TargetKey, except: set<SessionId>)
    requires Rely(s, r, pc) && !pc.HoldsManager() && (s.shutdown || NobodyHolds(s, key, except))
    ensures r.shutdown || NobodyHolds(r, key, except)
  {
    if !s.shutdown {
      forall id | id in r.sessions && HoldsKey(r.sessions[id], key) ensures id in except {
        assert id in s.sessions && Follows(pc, id, s.sessions[id], r.sessions[id]);
      }
    }
  }

  /** A session that holds a key while live. */
  predicate Keyed(s: State, id: SessionId) {
    id in s.sessions && s.sessions[id].Live() && s.sessions[id].key.Some?
  }

  /** A session comes to hold a key only by its own start's publication. */
  lemma KeyedOrigin(s: State, r: State, pc: Pc, id: SessionId)
    requires Rely(s, r, pc) && OwnerOk(s, pc) && Keyed(r, id)
    ensures id in s.sessions && s.sessions[id].Live()
    ensures if r.sessions[id].key == s.sessions[id].key then Keyed(s, id)
            else pc.StartPublish? && pc.id == id && r.sessions[id].key == Some(pc.key)
  {
    assert id in s.sessions ==> Follows(pc, id, s.sessions[id], r.sessions[id]);
  }

  lemma KeyedListed(s: State, r: State, pc: Pc, id: SessionId)
    requires Rely(s, r, pc) && DistinctKeys(s) && OwnerOk(s, pc) && Keyed(r, id)
    ensures id in r.listed || r.shutdown
  {
    KeyedOrigin(s, r, pc, id);
    assert Keyed(s, id) ==> !Owns(pc, id);
  }

  lemma KeysApart(s: State, r: State, pc: Pc, i: SessionId, j: SessionId)
    requires Rely(s, r, pc) && DistinctKeys(s) && OwnerOk(s, pc) && KeyOk(s, pc)
    requires Keyed(r, i) && Keyed(r, j) && i != j
    ensures r.sessions[i].key != r.sessions[j].key
  {
    KeyedOrigin(s, r, pc, i);
    KeyedOrigin(s, r, pc, j);
  }

  lemma DistinctAfter(s: State, r: State, pc: Pc)
    requires Rely(s, r, pc) && DistinctKeys(s) && OwnerOk(s, pc) && KeyOk(s, pc)
    ensures DistinctKeys(r)
  {
    forall id | Keyed(r, id) ensures id in r.listed || r.shutdown {
      KeyedListed(s, r, pc, id);
    }
    forall i, j | Keyed(r, i) && Keyed(r, j) && i != j ensures r.sessions[i].key != r.sessions[j].key {
      KeysApart(s, r, pc, i, j);
    }
  }
}
