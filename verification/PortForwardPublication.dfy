/** Publication order, terminal outcomes and the list watermark, for every interleaving. */
module PortForwardPublication {
  import opened PortForward
  import opened PortForwardSafety

  // --- what a step may publish --------------------------------------------------------------

  predicate Mirrors(x: Session, e: Event) {
    x.revision == e.revision && x.state == e.state
  }

  /** A row that shows an event's effect, or a later one. */
  predicate Reflects(revision: nat, state: SessionState, e: Event) {
    e.revision <= revision && e.state.Rank() <= state.Rank()
  }

  /** Nothing is published, or one event: under a fresh revision, or under the mover's reserved one. */
  ghost predicate LogFollows(s: State, r: State, pc: Pc) {
    && s.clock <= r.clock
    && (r.log == s.log
        || (exists e :: r.log == s.log + [e] && e.id in r.sessions
              && ((GateFree(s) && e.revision == s.clock < r.clock && Mirrors(r.sessions[e.id], e))
                  || (pc.HoldsGate() && e.revision == pc.revision && e.id == pc.id))))
  }

  /** A row's revision changes only to a fresh one under a free gate, or to the mover's reserved one. */
  ghost predicate RevisionsFollow(s: State, r: State, pc: Pc) {
    && (forall id :: id in s.sessions && id in r.sessions ==>
          || r.sessions[id].revision == s.sessions[id].revision
          || (GateFree(s) && r.sessions[id].revision == s.clock < r.clock)
          || (pc.StartPublish? && pc.id == id && r.sessions[id].revision == pc.revision))
    && (forall id :: id in r.sessions && id !in s.sessions ==> r.sessions[id].revision == s.clock < r.clock)
  }

  ghost predicate Publication(s: State, r: State, pc: Pc) {
    LogFollows(s, r, pc) && RevisionsFollow(s, r, pc)
  }

  lemma DirectPublishes(s: State, step: Step)
    requires IsDirect(step) && CanDirectly(s, step) && (step.Announce? || step.Insert? || step.Commit?)
    ensures Publication(s, Directly(s, step), Mover(s, step))
  {
    var r := Directly(s, step);
    if r.log != s.log {
      assert r.log == s.log + [r.log[|s.log|]];
    }
  }

  lemma AcquirePublishes(s: State, t: Task)
    requires CanAcquire(s, t) && (s.tasks[t].StartFailedSend? ==> s.tasks[t].id in s.sessions)
    ensures Publication(s, Acquired(s, t), s.tasks[t])
  {
    var r := Acquired(s, t);
    if r.log != s.log {
      assert r.log == s.log + [r.log[|s.log|]];
    }
  }

  lemma DirectSilent(s: State, step: Step)
    requires IsDirect(step) && CanDirectly(s, step) && !step.Announce? && !step.Insert? && !step.Commit?
    ensures Publication(s, Directly(s, step), Mover(s, step))
  {
  }

  lemma LockSilent(s: State, t: Task, id: SessionId)
    ensures CanInspect(s, t, id) ==> Publication(s, Inspected(s, t, id), s.tasks[t])
    ensures CanSeize(s, t, id) ==> Publication(s, Seized(s, t, id), s.tasks[t])
  {
  }

  lemma MovePublishes(s: State, t: Task, choice: Choice)
    requires CanMove(s, t, choice)
    ensures Publication(s, Moved(s, t, choice).value, s.tasks[t])
  {
    MoveSilent(s, t, choice);
  }

  lemma MoveSilent(s: State, t: Task, choice: Choice)
    requires CanMove(s, t, choice)
    ensures var r := Moved(s, t, choice).value;
            && r.log == s.log && r.clock == s.clock && r.sessions.Keys == s.sessions.Keys
            && forall id :: id in s.sessions ==> r.sessions[id].revision == s.sessions[id].revision
  {
  }

  lemma StepPublication(s: State, step: Step)
    requires Enabled(s, step)
    requires step.Acquire? && s.tasks[step.task].StartFailedSend? ==> s.tasks[step.task].id in s.sessions
    ensures Publication(s, Exec(s, step), Mover(s, step))
  {
    match step {
      case Acquire(t) => AcquirePublishes(s, t);
      case Move(t, choice) => MovePublishes(s, t, choice);
      case Inspect(t, id) => LockSilent(s, t, id);
      case Seize(t, id) => LockSilent(s, t, id);
      case _ =>
        if step.Announce? || step.Insert? || step.Commit? {
          DirectPublishes(s, step);
        } else {
          DirectSilent(s, step);
        }
    }
  }

  // --- revision order -----------------------------------------------------------------------

  ghost predicate EventOk(s: State, e: Event) {
    e.revision < s.clock && e.id in s.sessions && Reflects(s.sessions[e.id].revision, s.sessions[e.id].state, e)
  }

  /** Events carry strictly increasing revisions, and no row lags behind what was published for it. */
  ghost predicate Ordered(s: State) {
    && (forall i, j :: 0 <= i < j < |s.log| ==> s.log[i].revision < s.log[j].revision)
    && (forall e :: e in s.log ==> EventOk(s, e))
    && (forall id :: id in s.sessions ==> s.sessions[id].revision < s.clock)
  }

  /** A reserved revision is newer than everything published, and older than the next one. */
  ghost predicate ReservedOk(s: State, pc: Pc) {
    pc.HoldsGate() ==>
      && pc.id in s.sessions && pc.revision < s.clock
      && (forall e :: e in s.log ==> e.revision < pc.revision)
      && (pc.StartPublish? ==> s.sessions[pc.id].revision < pc.revision)
      && (pc.StartFailedSend? ==> pc.revision <= s.sessions[pc.id].revision && s.sessions[pc.id].state == Failed)
  }

  lemma ReservedStable(s: State, r: State, pc: Pc, other: Pc)
    requires Rely(s, r, pc) && Publication(s, r, pc) && ReservedOk(s, other)
    requires other.HoldsGate() ==> !GateFree(s) && !pc.HoldsGate()
    ensures ReservedOk(r, other)
  {
  }

  lemma RevisionGrows(s: State, r: State, pc: Pc, id: SessionId)
    requires Rely(s, r, pc) && Publication(s, r, pc) && Ordered(s) && ReservedOk(s, pc) && id in s.sessions
    ensures id in r.sessions && s.sessions[id].revision <= r.sessions[id].revision < r.clock
  {
  }

  lemma EventStays(s: State, r: State, pc: Pc, e: Event)
    requires Rely(s, r, pc) && Publication(s, r, pc) && Ordered(s) && ReservedOk(s, pc) && EventOk(s, e)
    ensures EventOk(r, e)
  {
    RevisionGrows(s, r, pc, e.id);
    assert Follows(pc, e.id, s.sessions[e.id], r.sessions[e.id]);
  }

  /** The state behind a reserved revision is the one it is published with. */
  ghost predicate ReservedShown(s: State, r: State, pc: Pc) {
    pc.HoldsGate() && r.log != s.log ==>
      pc.id in r.sessions && |r.log| == |s.log| + 1
      && (if pc.StartPublish? then Mirrors(r.sessions[pc.id], r.log[|s.log|]) else r.log[|s.log|].state == Failed)
  }

  lemma NewEventLast(s: State, r: State, pc: Pc)
    requires Publication(s, r, pc) && Ordered(s) && ReservedOk(s, pc) && r.log != s.log
    ensures |r.log| == |s.log| + 1 && r.log == s.log + [r.log[|s.log|]] && r.log[|s.log|].revision < r.clock
    ensures forall e :: e in s.log ==> e.revision < r.log[|s.log|].revision
  {
    assert forall e :: e in s.log ==> EventOk(s, e);
  }

  lemma NewEventShown(s: State, r: State, pc: Pc)
    requires Rely(s, r, pc) && Publication(s, r, pc) && Ordered(s) && ReservedOk(s, pc) && ReservedShown(s, r, pc)
    requires r.log != s.log && |r.log| == |s.log| + 1 && r.log == s.log + [r.log[|s.log|]]
    ensures var e := r.log[|s.log|];
            e.id in r.sessions && Reflects(r.sessions[e.id].revision, r.sessions[e.id].state, e)
  {
    hide EventOk;
    var e := r.log[|s.log|];
    if pc.StartFailedSend? && e.id == pc.id && pc.id in s.sessions {
      RevisionGrows(s, r, pc, pc.id);
      assert Follows(pc, pc.id, s.sessions[pc.id], r.sessions[pc.id]);
    }
  }

  lemma OrderedAfter(s: State, r: State, pc: Pc)
    requires Rely(s, r, pc) && Publication(s, r, pc) && Ordered(s) && ReservedOk(s, pc) && ReservedShown(s, r, pc)
    ensures Ordered(r)
  {
    if r.log != s.log {
      NewEventLast(s, r, pc);
      NewEventShown(s, r, pc);
    }
    forall e | e in r.log ensures EventOk(r, e) {
      if e in s.log {
        EventStays(s, r, pc, e);
      }
    }
    forall id | id in r.sessions ensures r.sessions[id].revision < r.clock {
      if id in s.sessions {
        RevisionGrows(s, r, pc, id);
      }
    }
  }

  lemma ReservedMover(s: State, step: Step)
    requires Enabled(s, step) && !step.CleanEof? && !step.Prune? && Ordered(s) && ReservedOk(s, Mover(s, step))
    requires step.StampFailure? ==> s.sessions[s.tasks[step.task].id].state == Failed
    requires step.TakeGate? ==> s.tasks[step.task].id in s.sessions
    ensures step.task in Exec(s, step).tasks && ReservedOk(Exec(s, step), Exec(s, step).tasks[step.task])
  {
    if IsDirect(step) {
      ReservedDirect(s, step);
    } else {
      GateUntaken(s, step);
    }
  }

  /** Only direct steps take the gate. */
  lemma GateUntaken(s: State, step: Step)
    requires Enabled(s, step) && !IsDirect(step)
    ensures step.task in Exec(s, step).tasks && !Exec(s, step).tasks[step.task].HoldsGate()
  {
    match step {
      case Acquire(t) => ReservedAcquire(s, t);
      case Move(t, choice) => ReservedMove(s, t, choice);
      case Seize(t, id) => ReservedSeize(s, t, id);
      case Inspect(t, id) => ReservedInspect(s, t, id);
    }
  }

  lemma ReservedDirect(s: State, step: Step)
    requires IsDirect(step) && CanDirectly(s, step) && !step.CleanEof? && !step.Prune? && Ordered(s)
    requires step.StampFailure? ==> s.sessions[s.tasks[step.task].id].state == Failed
    requires step.TakeGate? ==> s.tasks[step.task].id in s.sessions
    ensures step.task in Directly(s, step).tasks && ReservedOk(Directly(s, step), Directly(s, step).tasks[step.task])
  {
  }

  lemma ReservedAcquire(s: State, t: Task)
    requires CanAcquire(s, t)
    ensures !Acquired(s, t).tasks[t].HoldsGate()
  {
  }

  lemma ReservedMove(s: State, t: Task, choice: Choice)
    requires CanMove(s, t, choice)
    ensures !Moved(s, t, choice).value.tasks[t].HoldsGate()
  {
  }

  lemma ReservedSeize(s: State, t: Task, id: SessionId)
    requires CanSeize(s, t, id)
    ensures !Seized(s, t, id).tasks[t].HoldsGate()
  {
  }

  lemma ReservedInspect(s: State, t: Task, id: SessionId)
    requires CanInspect(s, t, id)
    ensures !Inspected(s, t, id).tasks[t].HoldsGate()
  {
  }

  lemma ShownBy(s: State, step: Step)
    requires Enabled(s, step) && ReservedOk(s, Mover(s, step))
    ensures ReservedShown(s, Exec(s, step), Mover(s, step))
  {
    if Mover(s, step).HoldsGate() {
      match step {
        case Acquire(t) => ShownAcquire(s, t);
        case Move(t, choice) => MoveSilent(s, t, choice);
        case Inspect(t, id) =>
        case Seize(t, id) =>
        case _ => ShownDirect(s, step);
      }
    }
  }

  lemma ShownAcquire(s: State, t: Task)
    requires CanAcquire(s, t) && ReservedOk(s, s.tasks[t])
    ensures ReservedShown(s, Acquired(s, t), s.tasks[t])
  {
  }

  lemma ShownDirect(s: State, step: Step)
    requires IsDirect(step) && CanDirectly(s, step) && ReservedOk(s, Mover(s, step)) && Mover(s, step).HoldsGate()
    ensures ReservedShown(s, Directly(s, step), Mover(s, step))
  {
  }

  // --- exactly one terminal outcome ---------------------------------------------------------

  /** A task about to publish how session `sid` ended. */
  predicate Right(pc: Pc, sid: SessionId) {
    (pc.StopEnded? || pc.FailureEnded? || pc.SwitchEnded? || pc.StartFailed? || pc.StartFailedSend?) && pc.id == sid
  }

  function Outcome(pc: Pc): SessionState {
    if pc.StopEnded? || pc.SwitchEnded? then Stopped else Failed
  }

  predicate EndEvent(e: Event, sid: SessionId) {
    e.id == sid && e.state.IsTerminal()
  }

  /** A right to publish an end is for the state the session has, not published before. */
  ghost predicate OutcomeOk(s: State, pc: Pc) {
    && (forall id :: Right(pc, id) ==>
          id in s.sessions && s.sessions[id].state == Outcome(pc) && forall e :: e in s.log ==> !EndEvent(e, id))
    && (pc.StopMarked? || pc.SwitchMarked? ==> pc.id in s.sessions && s.sessions[pc.id].state == Stopping)
  }

  /** The log shows at most one end per session, and it is the state the session has. */
  ghost predicate OneEnd(s: State) {
    && (forall e :: e in s.log && e.state.IsTerminal() ==> e.id in s.sessions && s.sessions[e.id].state == e.state)
    && (forall i, j :: 0 <= i < j < |s.log| && EndEvent(s.log[i], s.log[j].id) ==> !s.log[j].state.IsTerminal())
  }

  ghost predicate Outcomes(s: State) {
    && OneEnd(s)
    && (forall t :: t in s.tasks ==> OutcomeOk(s, s.tasks[t]))
    && (forall t, u, id :: t in s.tasks && u in s.tasks && t != u && Right(s.tasks[t], id) ==> !Right(s.tasks[u], id))
  }

  /** An end is published only by the task holding the right to it. */
  ghost predicate EndsByRight(s: State, r: State, pc: Pc) {
    && s.log <= r.log && |r.log| <= |s.log| + 1
    && (|r.log| > |s.log| ==>
          var e := r.log[|s.log|];
          e.id in r.sessions && (e.state.IsTerminal() ==> Right(pc, e.id) && r.sessions[e.id].state == e.state))
  }

  lemma OutcomeStable(s: State, r: State, pc: Pc, other: Pc)
    requires Rely(s, r, pc) && EndsByRight(s, r, pc) && OutcomeOk(s, other)
    requires forall id :: Right(other, id) ==> !Right(pc, id)
    requires other.StopMarked? || other.SwitchMarked? ==> !SessionFree(s, other.id)
    ensures OutcomeOk(r, other)
  {
    forall id | Right(other, id)
      ensures id in r.sessions && r.sessions[id].state == Outcome(other) && forall e :: e in r.log ==> !EndEvent(e, id)
    {
      RightStable(s, r, pc, other, id);
    }
  }

  lemma RightStable(s: State, r: State, pc: Pc, other: Pc, id: SessionId)
    requires Rely(s, r, pc) && EndsByRight(s, r, pc) && OutcomeOk(s, other) && Right(other, id) && !Right(pc, id)
    ensures id in r.sessions && r.sessions[id].state == Outcome(other) && forall e :: e in r.log ==> !EndEvent(e, id)
  {
    EndStays(s, r, pc, id);
    forall e | e in r.log ensures !EndEvent(e, id) {
      OldOrNew(s, r, pc, e);
    }
  }

  /** A logged event was there before, or is the one the mover published. */
  lemma OldOrNew(s: State, r: State, pc: Pc, e: Event)
    requires EndsByRight(s, r, pc) && e in r.log
    ensures e in s.log || (e.state.IsTerminal() ==> Right(pc, e.id) && e.id in r.sessions && r.sessions[e.id].state == e.state)
  {
    var k :| 0 <= k < |r.log| && r.log[k] == e;
    assert k < |s.log| ==> s.log[k] == e;
  }

  lemma EndStays(s: State, r: State, pc: Pc, id: SessionId)
    requires SessionsFollow(s, r, pc) && id in s.sessions && s.sessions[id].state.IsTerminal()
    ensures id in r.sessions && r.sessions[id].state == s.sessions[id].state
  {
    assert Follows(pc, id, s.sessions[id], r.sessions[id]);
  }

  lemma EndsMatch(s: State, r: State, pc: Pc, e: Event)
    requires Rely(s, r, pc) && EndsByRight(s, r, pc) && OneEnd(s) && e in r.log && e.state.IsTerminal()
    ensures e.id in r.sessions && r.sessions[e.id].state == e.state
  {
    OldOrNew(s, r, pc, e);
    if e in s.log {
      EndStays(s, r, pc, e.id);
    }
  }

  lemma EndsOnce(s: State, r: State, pc: Pc, i: nat, j: nat)
    requires EndsByRight(s, r, pc) && OneEnd(s) && OutcomeOk(s, pc)
    requires i < j < |r.log| && EndEvent(r.log[i], r.log[j].id)
    ensures !r.log[j].state.IsTerminal()
  {
    assert r.log[i] == s.log[i];
    if j < |s.log| {
      assert r.log[j] == s.log[j];
    } else {
      assert s.log[i] in s.log;
    }
  }

  lemma OneEndAfter(s: State, r: State, pc: Pc)
    requires Rely(s, r, pc) && EndsByRight(s, r, pc) && OneEnd(s) && OutcomeOk(s, pc)
    ensures OneEnd(r)
  {
    forall e | e in r.log && e.state.IsTerminal() ensures e.id in r.sessions && r.sessions[e.id].state == e.state {
      EndsMatch(s, r, pc, e);
    }
    forall i, j | 0 <= i < j < |r.log| && EndEvent(r.log[i], r.log[j].id) ensures !r.log[j].state.IsTerminal() {
      EndsOnce(s, r, pc, i, j);
    }
  }

  lemma EndsAnnounce(s: State, t: Task)
    requires CanAnnounce(s, t) && OutcomeOk(s, s.tasks[t])
    ensures EndsByRight(s, Announced(s, t), s.tasks[t])
  {
  }

  lemma EndsAcquire(s: State, t: Task)
    requires CanAcquire(s, t) && OutcomeOk(s, s.tasks[t])
    ensures EndsByRight(s, Acquired(s, t), s.tasks[t])
  {
  }

  lemma EndsDirect(s: State, step: Step)
    requires IsDirect(step) && CanDirectly(s, step) && !step.Announce?
    ensures EndsByRight(s, Directly(s, step), Mover(s, step))
  {
  }

  lemma EndsUnderLock(s: State, t: Task, id: SessionId)
    ensures CanInspect(s, t, id) ==> EndsByRight(s, Inspected(s, t, id), s.tasks[t])
    ensures CanSeize(s, t, id) ==> EndsByRight(s, Seized(s, t, id), s.tasks[t])
  {
  }

  lemma EndsMove(s: State, t: Task, choice: Choice)
    requires CanMove(s, t, choice)
    ensures EndsByRight(s, Moved(s, t, choice).value, s.tasks[t])
  {
    assert Moved(s, t, choice).value.log == s.log;
  }

  lemma StepEnds(s: State, step: Step)
    requires Enabled(s, step) && OutcomeOk(s, Mover(s, step))
    ensures EndsByRight(s, Exec(s, step), Mover(s, step))
  {
    match step {
      case Announce(t) => EndsAnnounce(s, t);
      case Acquire(t) => EndsAcquire(s, t);
      case Move(t, choice) => EndsMove(s, t, choice);
      case Inspect(t, id) => EndsUnderLock(s, t, id);
      case Seize(t, id) => EndsUnderLock(s, t, id);
      case _ => EndsDirect(s, step);
    }
  }

  /** A right is gained only over a session that was still live. */
  ghost predicate GainsLive(s: State, pc: Pc, next: Pc) {
    forall id :: Right(next, id) ==> Right(pc, id) || (id in s.sessions && s.sessions[id].Live())
  }

  /** Counters with no state of a session to publish. */
  predicate EndsNothing(pc: Pc) {
    !Publishes(pc) && !pc.StartFailed? && !pc.StartFailedSend?
  }

  lemma OutcomeSeize(s: State, t: Task, id: SessionId)
    requires CanSeize(s, t, id) && OneEnd(s)
    ensures OutcomeOk(Seized(s, t, id), Seized(s, t, id).tasks[t])
    ensures GainsLive(s, s.tasks[t], Seized(s, t, id).tasks[t])
  {
  }

  lemma OutcomeMove(s: State, t: Task, choice: Choice)
    requires CanMove(s, t, choice)
    ensures OutcomeOk(Moved(s, t, choice).value, Moved(s, t, choice).value.tasks[t])
    ensures GainsLive(s, s.tasks[t], Moved(s, t, choice).value.tasks[t])
  {
    MoveEndsNothing(s, t, choice);
  }

  lemma MoveEndsNothing(s: State, t: Task, choice: Choice)
    requires CanMove(s, t, choice)
    ensures EndsNothing(Moved(s, t, choice).value.tasks[t])
  {
  }

  lemma OutcomeAcquire(s: State, t: Task)
    requires CanAcquire(s, t)
    ensures OutcomeOk(Acquired(s, t), Acquired(s, t).tasks[t])
    ensures GainsLive(s, s.tasks[t], Acquired(s, t).tasks[t])
  {
    AcquireEndsNothing(s, t);
  }

  lemma AcquireEndsNothing(s: State, t: Task)
    requires CanAcquire(s, t)
    ensures EndsNothing(Acquired(s, t).tasks[t])
  {
  }

  lemma OutcomeInspect(s: State, t: Task, id: SessionId)
    requires CanInspect(s, t, id)
    ensures OutcomeOk(Inspected(s, t, id), Inspected(s, t, id).tasks[t])
    ensures GainsLive(s, s.tasks[t], Inspected(s, t, id).tasks[t])
  {
  }

  lemma OutcomeAnnounce(s: State, t: Task)
    requires CanAnnounce(s, t) && OutcomeOk(s, s.tasks[t])
    ensures OutcomeOk(Announced(s, t), Announced(s, t).tasks[t])
    ensures GainsLive(s, s.tasks[t], Announced(s, t).tasks[t])
  {
  }

  lemma OutcomeStamp(s: State, t: Task)
    requires CanStamp(s, t) && OutcomeOk(s, s.tasks[t])
    ensures OutcomeOk(FailureStamped(s, t), FailureStamped(s, t).tasks[t])
    ensures GainsLive(s, s.tasks[t], FailureStamped(s, t).tasks[t])
  {
  }

  lemma OutcomeNone(s: State, step: Step)
    requires IsDirect(step) && CanDirectly(s, step) && !step.CleanEof? && !step.Announce? && !step.StampFailure?
    ensures step.task in Directly(s, step).tasks && EndsNothing(Directly(s, step).tasks[step.task])
  {
  }

  lemma OutcomeDirect(s: State, step: Step)
    requires IsDirect(step) && CanDirectly(s, step) && !step.CleanEof? && OutcomeOk(s, Mover(s, step))
    ensures step.task in Directly(s, step).tasks
    ensures OutcomeOk(Directly(s, step), Directly(s, step).tasks[step.task])
    ensures GainsLive(s, Mover(s, step), Directly(s, step).tasks[step.task])
  {
    match step {
      case Announce(t) => OutcomeAnnounce(s, t);
      case StampFailure(t) => OutcomeStamp(s, t);
      case _ => OutcomeNone(s, step);
    }
  }

  lemma OutcomeMover(s: State, step: Step)
    requires Enabled(s, step) && !step.CleanEof? && OutcomeOk(s, Mover(s, step)) && OneEnd(s)
    ensures step.task in Exec(s, step).tasks
    ensures OutcomeOk(Exec(s, step), Exec(s, step).tasks[step.task])
    ensures GainsLive(s, Mover(s, step), Exec(s, step).tasks[step.task])
  {
    hide OutcomeOk, GainsLive;
    if IsDirect(step) {
      OutcomeDirect(s, step);
    } else {
      OutcomeLocking(s, step);
    }
  }

  lemma OutcomeLocking(s: State, step: Step)
    requires Enabled(s, step) && !IsDirect(step) && OutcomeOk(s, Mover(s, step)) && OneEnd(s)
    ensures step.task in Exec(s, step).tasks
    ensures OutcomeOk(Exec(s, step), Exec(s, step).tasks[step.task])
    ensures GainsLive(s, Mover(s, step), Exec(s, step).tasks[step.task])
  {
    hide OutcomeOk, GainsLive;
    if step.Seize? {
      OutcomeSeize(s, step.task, step.id);
    } else if step.Move? {
      OutcomeMove(s, step.task, step.choice);
    } else if step.Acquire? {
      OutcomeAcquire(s, step.task);
    } else {
      OutcomeInspect(s, step.task, step.id);
    }
  }

  lemma OutcomesAfter(s: State, r: State, step: Step)
    requires Outcomes(s) && Exclusive(s) && Guaranteed(s, r, step) && EndsByRight(s, r, Mover(s, step))
    requires !step.CleanEof? ==>
               step.task in r.tasks && OutcomeOk(r, r.tasks[step.task])
               && GainsLive(s, Mover(s, step), r.tasks[step.task])
    ensures Outcomes(r)
  {
    OneEndAfter(s, r, Mover(s, step));
    forall u | u in r.tasks ensures OutcomeOk(r, r.tasks[u]) {
      if step.CleanEof? || u != step.task {
        OutcomeKept(s, r, step, u);
      }
    }
    RightsApart(s, r, step);
  }

  lemma OutcomeKept(s: State, r: State, step: Step, u: Task)
    requires Outcomes(s) && Exclusive(s) && Guaranteed(s, r, step) && EndsByRight(s, r, Mover(s, step))
    requires u in s.tasks && (step.CleanEof? || u != step.task)
    ensures OutcomeOk(r, s.tasks[u])
  {
    var other := s.tasks[u];
    assert other.StopMarked? || other.SwitchMarked? ==> other.HoldsSession(other.id);
    OutcomeStable(s, r, Mover(s, step), other);
  }

  lemma StepOutcomes(s: State, step: Step)
    requires Outcomes(s) && Exclusive(s) && Enabled(s, step) && Guarantee(s, step)
    ensures Outcomes(Exec(s, step))
  {
    StepEnds(s, step);
    if !step.CleanEof? {
      OutcomeMover(s, step);
    }
    OutcomesAfter(s, Exec(s, step), step);
  }

  lemma RightsApart(s: State, r: State, step: Step)
    requires Outcomes(s) && OneTask(s, r, step)
    requires !step.CleanEof? && !step.Prune? ==> GainsLive(s, Mover(s, step), r.tasks[step.task])
    ensures forall t, u, id :: t in r.tasks && u in r.tasks && t != u && Right(r.tasks[t], id) ==> !Right(r.tasks[u], id)
  {
    forall t, u, id | t in r.tasks && u in r.tasks && t != u && Right(r.tasks[t], id) ensures !Right(r.tasks[u], id) {
      if t in s.tasks {
        assert OutcomeOk(s, s.tasks[t]);
      }
      if u in s.tasks {
        assert OutcomeOk(s, s.tasks[u]);
      }
    }
  }

  // --- the list watermark -------------------------------------------------------------------

  predicate Lists(pc: Pc) {
    pc.ListPrune? || pc.ListRead? || pc.Listed?
  }

  function RowsOf(pc: Pc): map<SessionId, Row> {
    if pc.ListRead? || pc.Listed? then pc.rows else map[]
  }

  /** The sessions a reader has read or still means to read. */
  function Covered(pc: Pc): set<SessionId> {
    if pc.ListRead? then pc.todo + pc.rows.Keys else if pc.Listed? then pc.rows.Keys else {}
  }

  predicate Shows(rows: map<SessionId, Row>, e: Event) {
    e.id in rows ==> Reflects(rows[e.id].revision, rows[e.id].state, e)
  }

  /** Every event at or below the baseline shows in its session's row, which is missing only if unlisted. */
  ghost predicate ListOk(s: State, pc: Pc) {
    && (pc.ListWait? || Lists(pc) ==> pc.base < s.clock)
    && (Lists(pc) ==> forall e :: e in s.log && e.revision <= pc.base ==> Shows(RowsOf(pc), e))
    && (pc.ListRead? || pc.Listed? ==>
          forall e :: e in s.log && e.revision <= pc.base && e.id in s.listed ==> e.id in Covered(pc))
  }

  /** A revision reserved at or below a baseline already shows in the rows read since. */
  predicate ReservedListed(listed: set<SessionId>, reader: Pc, writer: Pc) {
    && (Lists(reader) && writer.StartPublish? ==> reader.base < writer.revision)
    && (Lists(reader) && writer.StartFailedSend? && writer.revision <= reader.base ==>
          && Shows(RowsOf(reader), Event(writer.revision, writer.id, Failed))
          && (!reader.ListPrune? && writer.id in listed ==> writer.id in Covered(reader)))
  }

  ghost predicate Listings(s: State) {
    && (forall t :: t in s.tasks ==> ListOk(s, s.tasks[t]))
    && (forall t, u :: t in s.tasks && u in s.tasks ==> ReservedListed(s.listed, s.tasks[t], s.tasks[u]))
  }

  lemma ListStable(s: State, r: State, pc: Pc, other: Pc)
    requires Rely(s, r, pc) && Publication(s, r, pc) && Ordered(s) && ListOk(s, other) && ReservedListed(s.listed, other, pc)
    requires pc.StartFailedSend? ==> pc.id in s.sessions
    requires pc.StartFailedSend? && r.log != s.log ==> |r.log| == |s.log| + 1 && r.log[|s.log|].state == Failed
    ensures ListOk(r, other)
  {
    hide Reflects, Covered;
    forall e | Lists(other) && e in r.log && e.revision <= other.base
      ensures Shows(RowsOf(other), e) && (!other.ListPrune? && e.id in r.listed ==> e.id in Covered(other))
    {
      if e in s.log {
        OldEvent(s, r, pc, e);
      } else {
        LateEvent(s, r, pc, other.base, e);
      }
    }
  }

  /** A session that has published is not listed again. */
  lemma OldEvent(s: State, r: State, pc: Pc, e: Event)
    requires Rely(s, r, pc) && Ordered(s) && e in s.log
    ensures e.id in r.listed ==> e.id in s.listed
  {
    assert EventOk(s, e);
  }

  /** Only a failed start publishes at or below a baseline already read. */
  lemma LateEvent(s: State, r: State, pc: Pc, base: nat, e: Event)
    requires Publication(s, r, pc) && e in r.log && e !in s.log && e.revision <= base < s.clock
    requires pc.StartFailedSend? && r.log != s.log ==> |r.log| == |s.log| + 1 && r.log[|s.log|].state == Failed
    ensures pc.HoldsGate() && e.revision == pc.revision && e.id == pc.id
    ensures pc.StartFailedSend? ==> e == Event(pc.revision, pc.id, Failed)
  {
    var last :| r.log == s.log + [last] && last.id in r.sessions
              && ((GateFree(s) && last.revision == s.clock < r.clock && Mirrors(r.sessions[last.id], last))
                  || (pc.HoldsGate() && last.revision == pc.revision && last.id == pc.id));
    assert e == last == r.log[|s.log|];
  }

  /** What a reader's rows show after it reads one more. */
  lemma RowShows(s: State, base: nat, todo: set<SessionId>, rows: map<SessionId, Row>, id: SessionId)
    requires Ordered(s) && ListOk(s, ListRead(base, todo, rows)) && id in s.sessions
    ensures ListOk(s, ListRead(base, todo - {id}, rows[id := Row(s.sessions[id].revision, s.sessions[id].state)]))
  {
    forall e | e in s.log && e.revision <= base
      ensures Shows(rows[id := Row(s.sessions[id].revision, s.sessions[id].state)], e)
    {
      assert EventOk(s, e) && Shows(rows, e);
    }
  }

  lemma ListMover(s: State, step: Step)
    requires Enabled(s, step) && !step.CleanEof? && !step.Prune? && Ordered(s) && ListOk(s, Mover(s, step))
    ensures step.task in Exec(s, step).tasks && ListOk(Exec(s, step), Exec(s, step).tasks[step.task])
  {
    if IsDirect(step) {
      DirectUnlisted(s, step);
    } else {
      ListLocking(s, step);
    }
  }

  lemma ListLocking(s: State, step: Step)
    requires Enabled(s, step) && !IsDirect(step) && Ordered(s) && ListOk(s, Mover(s, step))
    ensures step.task in Exec(s, step).tasks && ListOk(Exec(s, step), Exec(s, step).tasks[step.task])
  {
    hide ListOk;
    if step.Acquire? {
      ListAcquire(s, step.task);
    } else if step.Move? {
      ListMove(s, step.task, step.choice);
    } else if step.Inspect? {
      ListInspect(s, step.task, step.id);
    } else {
      ListSeize(s, step.task, step.id);
    }
  }

  lemma ListSeize(s: State, t: Task, id: SessionId)
    requires CanSeize(s, t, id)
    ensures ListOk(Seized(s, t, id), Seized(s, t, id).tasks[t])
  {
    SeizeUnlisted(s, t, id);
  }

  /** Counters outside the list operation, or not yet at its baseline. */
  predicate Unlisting(pc: Pc) {
    !Lists(pc) && !pc.ListWait?
  }

  lemma ListInspect(s: State, t: Task, id: SessionId)
    requires CanInspect(s, t, id) && Ordered(s) && ListOk(s, s.tasks[t])
    ensures ListOk(Inspected(s, t, id), Inspected(s, t, id).tasks[t])
  {
    var pc := s.tasks[t];
    if pc.ListRead? {
      RowShows(s, pc.base, pc.todo, pc.rows, id);
    } else {
      InspectUnlisted(s, t, id);
    }
  }

  lemma InspectUnlisted(s: State, t: Task, id: SessionId)
    requires CanInspect(s, t, id) && !s.tasks[t].ListRead?
    ensures Unlisting(Inspected(s, t, id).tasks[t])
  {
  }

  lemma SeizeUnlisted(s: State, t: Task, id: SessionId)
    requires CanSeize(s, t, id)
    ensures Unlisting(Seized(s, t, id).tasks[t])
  {
  }

  lemma DirectUnlisted(s: State, step: Step)
    requires IsDirect(step) && CanDirectly(s, step) && !step.CleanEof? && !step.Prune?
    ensures step.task in Directly(s, step).tasks && Unlisting(Directly(s, step).tasks[step.task])
  {
  }

  lemma ListAcquire(s: State, t: Task)
    requires CanAcquire(s, t) && ListOk(s, s.tasks[t])
    ensures ListOk(Acquired(s, t), Acquired(s, t).tasks[t])
  {
    if !s.tasks[t].ListWait? {
      AcquireUnlisted(s, t);
    }
  }

  lemma AcquireUnlisted(s: State, t: Task)
    requires CanAcquire(s, t) && !s.tasks[t].ListWait?
    ensures Unlisting(Acquired(s, t).tasks[t])
  {
  }

  lemma ListMove(s: State, t: Task, choice: Choice)
    requires CanMove(s, t, choice) && ListOk(s, s.tasks[t])
    ensures ListOk(Moved(s, t, choice).value, Moved(s, t, choice).value.tasks[t])
  {
    if !ListsNext(s.tasks[t]) {
      MoveUnlisted(s, t, choice);
    }
  }

  /** Counters from which a move stays in, or enters, the list operation. */
  predicate ListsNext(pc: Pc) {
    pc.ListIdle? || pc.ListPrune? || pc.ListRead?
  }

  lemma MoveUnlisted(s: State, t: Task, choice: Choice)
    requires CanMove(s, t, choice) && !ListsNext(s.tasks[t])
    ensures Unlisting(Moved(s, t, choice).value.tasks[t])
  {
  }

  /** The mover against an unmoved writer: what it reads includes the writer's reserved revision. */
  lemma ReadsReserved(s: State, step: Step, writer: Pc)
    requires Enabled(s, step) && !step.CleanEof? && !step.Prune?
    requires ReservedListed(s.listed, Mover(s, step), writer) && ReservedOk(s, writer)
    requires step.Acquire? ==> !writer.HoldsManager()
    ensures step.task in Exec(s, step).tasks && ReservedListed(s.listed, Exec(s, step).tasks[step.task], writer)
  {
    if IsDirect(step) {
      DirectUnlisted(s, step);
    } else if step.Move? {
      ReadsMove(s, step.task, step.choice, writer);
    } else if step.Acquire? {
      ReadsAcquire(s, step.task, writer);
    } else if step.Inspect? {
      ReadsInspect(s, step.task, step.id, writer);
    } else {
      SeizeUnlisted(s, step.task, step.id);
    }
  }

  lemma ReadsInspect(s: State, t: Task, id: SessionId, writer: Pc)
    requires CanInspect(s, t, id) && ReservedListed(s.listed, s.tasks[t], writer) && ReservedOk(s, writer)
    ensures ReservedListed(s.listed, Inspected(s, t, id).tasks[t], writer)
  {
    if s.tasks[t].ListRead? {
      ReadsOneMore(s, t, id, writer);
    } else {
      InspectUnlisted(s, t, id);
    }
  }

  lemma ReadsOneMore(s: State, t: Task, id: SessionId, writer: Pc)
    requires CanInspect(s, t, id) && s.tasks[t].ListRead?
    requires ReservedListed(s.listed, s.tasks[t], writer) && ReservedOk(s, writer)
    ensures ReservedListed(s.listed, Inspected(s, t, id).tasks[t], writer)
  {
  }

  lemma ReadsMove(s: State, t: Task, choice: Choice, writer: Pc)
    requires CanMove(s, t, choice) && ReservedListed(s.listed, s.tasks[t], writer)
    ensures ReservedListed(s.listed, Moved(s, t, choice).value.tasks[t], writer)
  {
    if !ListsNext(s.tasks[t]) {
      MoveUnlisted(s, t, choice);
    }
  }

  lemma ReadsAcquire(s: State, t: Task, writer: Pc)
    requires CanAcquire(s, t) && !writer.HoldsManager()
    ensures ReservedListed(s.listed, Acquired(s, t).tasks[t], writer)
  {
  }

  /** The mover against an unmoved reader: a newly reserved revision is above every baseline. */
  lemma WritesAbove(s: State, step: Step, reader: Pc)
    requires Enabled(s, step) && !step.CleanEof? && !step.Prune?
    requires ReservedListed(s.listed, reader, Mover(s, step)) && (Lists(reader) ==> reader.base < s.clock)
    ensures step.task in Exec(s, step).tasks && ReservedListed(s.listed, reader, Exec(s, step).tasks[step.task])
    ensures StampedKnown(s, Exec(s, step).tasks[step.task])
  {
    if IsDirect(step) {
      WritesDirect(s, step, reader);
    } else {
      GateUntaken(s, step);
    }
  }

  lemma WritesDirect(s: State, step: Step, reader: Pc)
    requires IsDirect(step) && CanDirectly(s, step) && !step.CleanEof? && !step.Prune?
    requires Lists(reader) ==> reader.base < s.clock
    ensures step.task in Directly(s, step).tasks && ReservedListed(s.listed, reader, Directly(s, step).tasks[step.task])
    ensures StampedKnown(s, Directly(s, step).tasks[step.task])
  {
    if !step.TakeGate? && !step.StampFailure? {
      GateUnreserved(s, step);
    }
  }

  lemma GateUnreserved(s: State, step: Step)
    requires IsDirect(step) && CanDirectly(s, step) && !step.CleanEof? && !step.Prune?
    requires !step.TakeGate? && !step.StampFailure?
    ensures step.task in Directly(s, step).tasks && !Directly(s, step).tasks[step.task].HoldsGate()
  {
  }

  predicate StampedKnown(s: State, writer: Pc) {
    writer.StartFailedSend? ==> writer.id in s.sessions
  }

  /** An unlisted session never comes back, so a reader's cover stays one. */
  lemma RelistedNever(s: State, r: State, pc: Pc, reader: Pc, writer: Pc)
    requires ListingFollows(s, r, pc) && StampedKnown(s, writer) && ReservedListed(s.listed, reader, writer)
    ensures ReservedListed(r.listed, reader, writer)
  {
  }

  /** How the mover's new counter stands to the unmoved ones, as reader and as writer. */
  ghost predicate PairsOf(s: State, t: Task, next: Pc) {
    && StampedKnown(s, next)
    && forall u :: u in s.tasks && u != t ==>
         ReservedListed(s.listed, next, s.tasks[u]) && ReservedListed(s.listed, s.tasks[u], next)
  }

  lemma MoverPair(s: State, step: Step, u: Task)
    requires Listings(s) && Exclusive(s) && Enabled(s, step) && !step.CleanEof? && !step.Prune?
    requires u in s.tasks && u != step.task && ReservedOk(s, s.tasks[u])
    ensures step.task in Exec(s, step).tasks
    ensures ReservedListed(s.listed, Exec(s, step).tasks[step.task], s.tasks[u])
    ensures ReservedListed(s.listed, s.tasks[u], Exec(s, step).tasks[step.task])
  {
    assert ListOk(s, s.tasks[u]);
    ReadsReserved(s, step, s.tasks[u]);
    WritesAbove(s, step, s.tasks[u]);
  }

  lemma MoverPairs(s: State, step: Step)
    requires Listings(s) && Exclusive(s) && Enabled(s, step) && !step.CleanEof? && !step.Prune?
    requires forall t :: t in s.tasks ==> ReservedOk(s, s.tasks[t])
    ensures step.task in Exec(s, step).tasks && PairsOf(s, step.task, Exec(s, step).tasks[step.task])
  {
    WritesAbove(s, step, Finished);
    forall u | u in s.tasks && u != step.task
      ensures ReservedListed(s.listed, Exec(s, step).tasks[step.task], s.tasks[u])
      ensures ReservedListed(s.listed, s.tasks[u], Exec(s, step).tasks[step.task])
    {
      MoverPair(s, step, u);
    }
  }

  lemma PairAfter(s: State, r: State, step: Step, t: Task, u: Task)
    requires Listings(s) && Guaranteed(s, r, step) && t in r.tasks && u in r.tasks
    requires forall v :: v in s.tasks ==> ReservedOk(s, s.tasks[v])
    requires !step.CleanEof? && !step.Prune? ==> step.task in r.tasks && PairsOf(s, step.task, r.tasks[step.task])
    ensures ReservedListed(r.listed, r.tasks[t], r.tasks[u])
  {
    var moved := !step.CleanEof? && !step.Prune?;
    if !(moved && t == u == step.task) {
      assert u in s.tasks && !(moved && u == step.task) ==> ReservedOk(s, s.tasks[u]);
      RelistedNever(s, r, Mover(s, step), r.tasks[t], r.tasks[u]);
    }
  }

  lemma ListAfter(s: State, r: State, step: Step, u: Task)
    requires Listings(s) && Ordered(s) && Guaranteed(s, r, step)
    requires forall t :: t in s.tasks ==> ReservedOk(s, s.tasks[t])
    requires Publication(s, r, Mover(s, step)) && ReservedShown(s, r, Mover(s, step)) && u in s.tasks
    ensures ListOk(r, s.tasks[u])
  {
    ListStable(s, r, Mover(s, step), s.tasks[u]);
  }

  lemma ListingsAfter(s: State, r: State, step: Step)
    requires Listings(s) && Ordered(s) && Guaranteed(s, r, step)
    requires forall t :: t in s.tasks ==> ReservedOk(s, s.tasks[t])
    requires Publication(s, r, Mover(s, step)) && ReservedShown(s, r, Mover(s, step))
    requires !step.CleanEof? && !step.Prune? ==>
               step.task in r.tasks && ListOk(r, r.tasks[step.task]) && PairsOf(s, step.task, r.tasks[step.task])
    ensures Listings(r)
  {
    forall u | u in r.tasks ensures ListOk(r, r.tasks[u]) {
      if step.CleanEof? || step.Prune? || u != step.task {
        ListAfter(s, r, step, u);
      }
    }
    forall t, u | t in r.tasks && u in r.tasks ensures ReservedListed(r.listed, r.tasks[t], r.tasks[u]) {
      PairAfter(s, r, step, t, u);
    }
  }

  lemma StepListings(s: State, step: Step)
    requires Listings(s) && Ordered(s) && Exclusive(s) && Enabled(s, step) && Guarantee(s, step)
    requires forall t :: t in s.tasks ==> ReservedOk(s, s.tasks[t])
    requires Publication(s, Exec(s, step), Mover(s, step)) && ReservedShown(s, Exec(s, step), Mover(s, step))
    ensures Listings(Exec(s, step))
  {
    if !step.CleanEof? && !step.Prune? {
      ListMover(s, step);
      MoverPairs(s, step);
    }
    ListingsAfter(s, Exec(s, step), step);
  }
}
