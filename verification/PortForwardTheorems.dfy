/** What holds of the port-forward manager in every state of every run. */
module PortForwardTheorems {
  import opened Wrappers
  import opened PortForward
  import opened PortForwardSafety
  import opened PortForwardActive
  import opened PortForwardPublication

  // --- every end is published ---------------------------------------------------------------

  ghost predicate Ended(s: State, id: SessionId) {
    exists e :: e in s.log && EndEvent(e, id)
  }

  ghost predicate Ending(s: State, id: SessionId) {
    exists t :: t in s.tasks && Right(s.tasks[t], id)
  }

  /** A terminal session has had its end published, or some task is about to publish it. */
  ghost predicate Settled(s: State) {
    forall id :: id in s.sessions && s.sessions[id].state.IsTerminal() ==> Ended(s, id) || Ending(s, id)
  }

  /** A session ends only into a right to publish that end. */
  ghost predicate EndsIntoRight(s: State, r: State, next: Pc) {
    forall id :: id in r.sessions && r.sessions[id].state.IsTerminal() ==>
      (id in s.sessions && s.sessions[id].state.IsTerminal()) || Right(next, id)
  }

  /** A right is given up only by publishing. */
  ghost predicate Discharges(r: State, pc: Pc, next: Pc) {
    forall id :: Right(pc, id) ==> Right(next, id) || Ended(r, id)
  }

  /** What a moving task owes: an end it brings about is its own to publish, and a right is used, not dropped. */
  ghost predicate Settles(s: State, r: State, pc: Pc, next: Pc) {
    EndsIntoRight(s, r, next) && Discharges(r, pc, next)
  }

  lemma SettleSeize(s: State, t: Task, id: SessionId)
    requires CanSeize(s, t, id)
    ensures Settles(s, Seized(s, t, id), s.tasks[t], Seized(s, t, id).tasks[t])
  {
  }

  lemma SettleAnnounce(s: State, t: Task)
    requires CanAnnounce(s, t) && OutcomeOk(s, s.tasks[t])
    ensures Settles(s, Announced(s, t), s.tasks[t], Announced(s, t).tasks[t])
  {
    var r, id := Announced(s, t), s.tasks[t].id;
    assert r.log[|s.log|] in r.log && r.log[|s.log|].id == id && r.log[|s.log|].state == s.sessions[id].state;
  }

  lemma SettleAcquire(s: State, t: Task)
    requires CanAcquire(s, t)
    ensures Settles(s, Acquired(s, t), s.tasks[t], Acquired(s, t).tasks[t])
  {
    var r := Acquired(s, t);
    if s.tasks[t].StartFailedSend? {
      assert r.log[|s.log|] in r.log && EndEvent(r.log[|s.log|], s.tasks[t].id);
    }
  }

  lemma SettleMove(s: State, t: Task, choice: Choice)
    requires CanMove(s, t, choice)
    ensures Settles(s, Moved(s, t, choice).value, s.tasks[t], Moved(s, t, choice).value.tasks[t])
  {
    MovedEndsNothing(s, t, choice);
  }

  lemma MovedEndsNothing(s: State, t: Task, choice: Choice)
    requires CanMove(s, t, choice)
    ensures forall i :: !Right(s.tasks[t], i)
    ensures var r := Moved(s, t, choice).value;
            forall id :: id in r.sessions ==> id in s.sessions && r.sessions[id].state == s.sessions[id].state
  {
  }

  lemma SettleInspect(s: State, t: Task, id: SessionId)
    requires CanInspect(s, t, id)
    ensures Settles(s, Inspected(s, t, id), s.tasks[t], Inspected(s, t, id).tasks[t])
  {
  }

  lemma SettleStamp(s: State, t: Task)
    requires CanStamp(s, t)
    ensures Settles(s, FailureStamped(s, t), s.tasks[t], FailureStamped(s, t).tasks[t])
  {
  }

  lemma SettleQuiet(s: State, step: Step)
    requires IsDirect(step) && CanDirectly(s, step) && !step.CleanEof? && !step.Announce? && !step.StampFailure?
    ensures step.task in Directly(s, step).tasks
    ensures Settles(s, Directly(s, step), Mover(s, step), Directly(s, step).tasks[step.task])
  {
  }

  lemma SettleDirect(s: State, step: Step)
    requires IsDirect(step) && CanDirectly(s, step) && !step.CleanEof? && OutcomeOk(s, Mover(s, step))
    ensures step.task in Directly(s, step).tasks
    ensures Settles(s, Directly(s, step), Mover(s, step), Directly(s, step).tasks[step.task])
  {
    match step {
      case Announce(t) => SettleAnnounce(s, t);
      case StampFailure(t) => SettleStamp(s, t);
      case _ => SettleQuiet(s, step);
    }
  }

  lemma SettleMover(s: State, step: Step)
    requires Enabled(s, step) && !step.CleanEof? && OutcomeOk(s, Mover(s, step))
    ensures step.task in Exec(s, step).tasks
    ensures Settles(s, Exec(s, step), Mover(s, step), Exec(s, step).tasks[step.task])
  {
    hide Settles;
    if IsDirect(step) {
      SettleDirect(s, step);
    } else if step.Seize? {
      SettleSeize(s, step.task, step.id);
    } else if step.Acquire? {
      SettleAcquire(s, step.task);
    } else if step.Move? {
      SettleMove(s, step.task, step.choice);
    } else {
      SettleInspect(s, step.task, step.id);
    }
  }

  /** A step that cleans a failure count ends nothing. */
  lemma CleanSettles(s: State, id: SessionId)
    requires CanDirectly(s, CleanEof(id)) && Settled(s)
    ensures Settled(Directly(s, CleanEof(id)))
  {
    var r := Directly(s, CleanEof(id));
    assert forall i :: Ended(s, i) ==> Ended(r, i);
    assert forall i :: Ending(s, i) ==> Ending(r, i);
  }

  lemma SettledAfter(s: State, r: State, t: Task, pc: Pc)
    requires Settled(s) && t in r.tasks && r.tasks == s.tasks[t := r.tasks[t]] && s.log <= r.log
    requires pc == if t in s.tasks then s.tasks[t] else Finished
    requires EndsIntoRight(s, r, r.tasks[t]) && Discharges(r, pc, r.tasks[t])
    ensures Settled(r)
  {
    forall id | id in r.sessions && r.sessions[id].state.IsTerminal() ensures Ended(r, id) || Ending(r, id) {
      if Right(r.tasks[t], id) {
        assert Ending(r, id);
      } else {
        StillSettled(s, r, t, pc, id);
      }
    }
  }

  lemma StillSettled(s: State, r: State, t: Task, pc: Pc, id: SessionId)
    requires t in r.tasks && r.tasks == s.tasks[t := r.tasks[t]] && s.log <= r.log && (Ended(s, id) || Ending(s, id))
    requires pc == if t in s.tasks then s.tasks[t] else Finished
    requires Discharges(r, pc, r.tasks[t])
    ensures Ended(r, id) || Ending(r, id)
  {
    if Ended(s, id) {
      var e :| e in s.log && EndEvent(e, id);
      assert e in r.log;
    } else {
      var u :| u in s.tasks && Right(s.tasks[u], id);
      if u == t {
        assert Right(r.tasks[t], id) ==> Ending(r, id);
      } else {
        assert u in r.tasks && r.tasks[u] == s.tasks[u];
      }
    }
  }

  lemma StepSettled(s: State, step: Step)
    requires Settled(s) && Outcomes(s) && Enabled(s, step) && Guarantee(s, step)
    ensures Settled(Exec(s, step))
  {
    if step.CleanEof? {
      CleanSettles(s, step.id);
    } else {
      StepEnds(s, step);
      SettleMover(s, step);
      SettledAfter(s, Exec(s, step), step.task, Mover(s, step));
    }
  }

  // --- every run ----------------------------------------------------------------------------

  lemma MoverReserved(s: State, step: Step)
    requires Enabled(s, step) && !step.CleanEof? && !step.Prune? && Ordered(s)
    requires ReservedOk(s, Mover(s, step)) && OutcomeOk(s, Mover(s, step)) && OwnerOk(s, Mover(s, step))
    ensures step.task in Exec(s, step).tasks && ReservedOk(Exec(s, step), Exec(s, step).tasks[step.task])
  {
    var pc := Mover(s, step);
    assert step.StampFailure? ==> Right(pc, pc.id);
    assert step.TakeGate? ==> Owns(pc, pc.id);
    ReservedMover(s, step);
  }

  ghost predicate Reserves(s: State) {
    forall t :: t in s.tasks ==> ReservedOk(s, s.tasks[t])
  }

  lemma ReservesAfter(s: State, r: State, step: Step)
    requires Exclusive(s) && Reserves(s) && Guaranteed(s, r, step) && Publication(s, r, Mover(s, step))
    requires step.Prune? ==> !Mover(s, step).HoldsGate()
    requires !step.CleanEof? && !step.Prune? ==> step.task in r.tasks && ReservedOk(r, r.tasks[step.task])
    ensures Reserves(r)
  {
    var pc := Mover(s, step);
    forall u | u in r.tasks ensures ReservedOk(r, r.tasks[u]) {
      if step.CleanEof? || step.Prune? || u != step.task {
        OthersReserved(s, r, step, u);
      }
    }
  }

  lemma OthersReserved(s: State, r: State, step: Step, u: Task)
    requires Exclusive(s) && Reserves(s) && Guaranteed(s, r, step) && Publication(s, r, Mover(s, step))
    requires step.Prune? ==> !Mover(s, step).HoldsGate()
    requires u in s.tasks && (step.CleanEof? || step.Prune? || u != step.task)
    ensures ReservedOk(r, s.tasks[u])
  {
    ReservedStable(s, r, Mover(s, step), s.tasks[u]);
  }

  /** The parts of the invariant about publication. */
  ghost predicate Published(s: State) {
    Ordered(s) && Reserves(s) && Outcomes(s) && Listings(s) && Settled(s)
  }

  ghost predicate Inv(s: State) {
    Safe(s) && Published(s)
  }

  lemma InitInv(s: State)
    requires Init(s)
    ensures Inv(s)
  {
    assert ActiveIds(s) == {};
  }

  lemma StepShown(s: State, step: Step)
    requires Reserves(s) && Enabled(s, step)
    ensures Publication(s, Exec(s, step), Mover(s, step)) && ReservedShown(s, Exec(s, step), Mover(s, step))
  {
    StepPublication(s, step);
    ShownBy(s, step);
  }

  /** What the invariant says of the task a step moves. */
  lemma MoverClaims(s: State, step: Step)
    requires Reserves(s) && Outcomes(s) && Ownership(s)
    ensures ReservedOk(s, Mover(s, step)) && OutcomeOk(s, Mover(s, step)) && OwnerOk(s, Mover(s, step))
  {
  }

  lemma PrunerWithoutGate(s: State, step: Step)
    requires Enabled(s, step)
    ensures step.Prune? ==> !Mover(s, step).HoldsGate()
  {
  }

  lemma StepReserves(s: State, step: Step)
    requires Inv(s) && Enabled(s, step) && Guarantee(s, step) && Publication(s, Exec(s, step), Mover(s, step))
    ensures Reserves(Exec(s, step))
  {
    MoverClaims(s, step);
    PrunerWithoutGate(s, step);
    if !step.CleanEof? && !step.Prune? {
      MoverReserved(s, step);
    }
    ReservesAfter(s, Exec(s, step), step);
  }

  lemma StepOrdered(s: State, step: Step)
    requires Inv(s) && Enabled(s, step) && Guarantee(s, step)
    ensures Publication(s, Exec(s, step), Mover(s, step)) && ReservedShown(s, Exec(s, step), Mover(s, step))
    ensures Ordered(Exec(s, step)) && Reserves(Exec(s, step))
  {
    StepShown(s, step);
    OrderedAfter(s, Exec(s, step), Mover(s, step));
    StepReserves(s, step);
  }

  lemma StepPublished(s: State, step: Step)
    requires Inv(s) && Enabled(s, step) && Guarantee(s, step)
    ensures Publication(s, Exec(s, step), Mover(s, step)) && Published(Exec(s, step))
  {
    StepOrdered(s, step);
    StepOutcomes(s, step);
    StepListings(s, step);
    StepSettled(s, step);
  }

  lemma StepInv(s: State, step: Step)
    requires Inv(s) && Enabled(s, step)
    ensures Inv(Exec(s, step)) && Guarantee(s, step) && Publication(s, Exec(s, step), Mover(s, step))
  {
    StepSafe(s, step);
    StepPublished(s, step);
  }

  lemma {:induction false} RunInv(states: seq<State>, steps: seq<Step>, i: nat)
    requires IsRun(states, steps) && i < |states|
    ensures Inv(states[i])
  {
    if i == 0 {
      InitInv(states[0]);
    } else {
      RunInv(states, steps, i - 1);
      StepInv(states[i - 1], steps[i - 1]);
    }
  }

  /** What one step of a run does to the shared state and the log. */
  lemma RunFollows(states: seq<State>, steps: seq<Step>, i: nat)
    requires IsRun(states, steps) && i < |steps|
    ensures Enabled(states[i], steps[i]) && states[i + 1] == Exec(states[i], steps[i])
    ensures OneTask(states[i], states[i + 1], steps[i])
    ensures Rely(states[i], states[i + 1], Mover(states[i], steps[i]))
    ensures LogFollows(states[i], states[i + 1], Mover(states[i], steps[i]))
  {
    RunInv(states, steps, i);
    StepInv(states[i], steps[i]);
  }

  predicate SameKey(x: Session, y: Session) {
    x.Live() && y.Live() && x.key.Some? && x.key == y.key
  }

  /** With the manager lock free or not: Active sessions are listed, in the committed context, few, and distinct. */
  lemma ActiveSessions(states: seq<State>, steps: seq<Step>, i: nat)
    requires IsRun(states, steps) && i < |states|
    ensures var s := states[i];
            && |ActiveIds(s)| <= MAX_SESSIONS
            && (forall id :: id in ActiveIds(s) ==> id in s.listed && s.sessions[id].context == s.context)
            && (forall a, b :: a in s.sessions && b in s.sessions && a != b ==> !SameKey(s.sessions[a], s.sessions[b]))
  {
    RunInv(states, steps, i);
  }

  /** A committed switch leaves no Active session behind, and none becomes Active until the lock is released. */
  lemma SwitchLeavesNoneActive(states: seq<State>, steps: seq<Step>, i: nat)
    requires IsRun(states, steps) && i < |steps| && steps[i].SwitchCommit?
    ensures ActiveIds(states[i]) == {} == ActiveIds(states[i + 1])
  {
    RunInv(states, steps, i);
    assert ActiveOk(states[i], states[i].tasks[steps[i].task]);
  }

  lemma StepLog(states: seq<State>, steps: seq<Step>, i: nat)
    requires IsRun(states, steps) && i < |steps|
    ensures states[i].log <= states[i + 1].log
  {
    RunFollows(states, steps, i);
  }

  lemma PrefixThrough(a: seq<Event>, b: seq<Event>, c: seq<Event>)
    requires a <= b <= c
    ensures a <= c
  {
    assert a == b[..|a|] == c[..|a|];
  }

  ghost predicate Growing(states: seq<State>) {
    forall k :: 0 <= k < |states| - 1 ==> states[k].log <= states[k + 1].log
  }

  lemma {:induction false} GrowsThrough(states: seq<State>, i: nat, j: nat)
    requires Growing(states) && i <= j < |states|
    ensures states[i].log <= states[j].log
    decreases j
  {
    if i == j {
    } else {
      GrowsThrough(states, i, j - 1);
      assert states[j - 1].log <= states[(j - 1) + 1].log;
      PrefixThrough(states[i].log, states[j - 1].log, states[j].log);
    }
  }

  lemma LogGrows(states: seq<State>, steps: seq<Step>, i: nat, j: nat)
    requires IsRun(states, steps) && i <= j < |states|
    ensures states[i].log <= states[j].log
  {
    forall k | 0 <= k < |states| - 1 ensures states[k].log <= states[k + 1].log {
      StepLog(states, steps, k);
    }
    GrowsThrough(states, i, j);
  }

  /** Publication order is revision order, and every event but a shutdown's mark is behind its row. */
  lemma PublicationOrder(states: seq<State>, steps: seq<Step>, i: nat)
    requires IsRun(states, steps) && i < |states|
    ensures var s := states[i];
            && (forall a, b :: 0 <= a < b < |s.log| ==> s.log[a].revision < s.log[b].revision)
            && (forall e :: e in s.log ==> e.id in s.sessions)
            && (forall e :: e in s.log ==> Reflects(s.sessions[e.id].revision, s.sessions[e.id].state, e))
  {
    RunInv(states, steps, i);
    assert forall e :: e in states[i].log ==> EventOk(states[i], e);
  }

  /** `y` is a later stage of `x`: never backwards, terminal for good, with everything settled kept. */
  predicate Advances(x: Session, y: Session) {
    && (x.state == y.state || x.state.Rank() < y.state.Rank())
    && (x.state.IsTerminal() ==> y.state == x.state)
    && y.target == x.target && y.context == x.context && (x.cancelled ==> y.cancelled)
    && (x.state != Starting ==> y.key == x.key)
  }

  lemma StepAdvances(states: seq<State>, steps: seq<Step>, i: nat, id: SessionId)
    requires IsRun(states, steps) && i < |steps| && id in states[i].sessions
    ensures id in states[i + 1].sessions && Advances(states[i].sessions[id], states[i + 1].sessions[id])
  {
    RunFollows(states, steps, i);
    assert Follows(Mover(states[i], steps[i]), id, states[i].sessions[id], states[i + 1].sessions[id]);
  }

  lemma AdvancesThrough(x: Session, y: Session, z: Session)
    requires Advances(x, y) && Advances(y, z)
    ensures Advances(x, z)
  {
  }

  /** Sessions never go backwards, terminal states are absorbing, and target, context and key are settled once. */
  lemma {:induction false} LifecycleMonotone(states: seq<State>, steps: seq<Step>, i: nat, j: nat, id: SessionId)
    requires IsRun(states, steps) && i <= j < |states| && id in states[i].sessions
    ensures id in states[j].sessions && Advances(states[i].sessions[id], states[j].sessions[id])
    decreases j
  {
    if i == j {
    } else {
      LifecycleMonotone(states, steps, i, j - 1, id);
      StepAdvances(states, steps, j - 1, id);
      AdvancesThrough(states[i].sessions[id], states[j - 1].sessions[id], states[j].sessions[id]);
    }
  }

  /**
   * However stop, the failure finalizer, a failed start and a context transition race, the log shows one
   * end for a terminal session, equal to its state, unless the winner has not published yet.
   */
  lemma OneTerminalOutcome(states: seq<State>, steps: seq<Step>, i: nat, id: SessionId)
    requires IsRun(states, steps) && i < |states| && id in states[i].sessions
    ensures var s := states[i];
            && (forall k :: 0 <= k < |s.log| && EndEvent(s.log[k], id) ==> s.log[k].state == s.sessions[id].state)
            && (forall k, m :: 0 <= k < m < |s.log| && EndEvent(s.log[k], id) ==> !EndEvent(s.log[m], id))
            && (s.sessions[id].state.IsTerminal() ==> (Ended(s, id) <==> !Ending(s, id)))
  {
    RunInv(states, steps, i);
    EndsAgree(states[i], id);
  }

  lemma EndsAgree(s: State, id: SessionId)
    requires Inv(s) && id in s.sessions
    ensures forall k :: 0 <= k < |s.log| && EndEvent(s.log[k], id) ==> s.log[k].state == s.sessions[id].state
    ensures forall k, m :: 0 <= k < m < |s.log| && EndEvent(s.log[k], id) ==> !EndEvent(s.log[m], id)
    ensures s.sessions[id].state.IsTerminal() ==> (Ended(s, id) <==> !Ending(s, id))
  {
    hide Safe;
    if Ending(s, id) {
      var t :| t in s.tasks && Right(s.tasks[t], id);
      assert OutcomeOk(s, s.tasks[t]);
    }
  }

  // --- the list watermark -------------------------------------------------------------------

  /** Counters of a list operation that has read its baseline. */
  predicate HasBase(pc: Pc) {
    pc.ListWait? || Lists(pc)
  }

  /** A list operation that has its baseline keeps it. */
  predicate KeepsBase(pc: Pc, next: Pc) {
    HasBase(pc) ==> HasBase(next) && next.base == pc.base
  }

  lemma BaseMove(s: State, t: Task, choice: Choice)
    requires CanMove(s, t, choice)
    ensures KeepsBase(s.tasks[t], Moved(s, t, choice).value.tasks[t])
  {
  }

  lemma BaseAcquire(s: State, t: Task)
    requires CanAcquire(s, t)
    ensures KeepsBase(s.tasks[t], Acquired(s, t).tasks[t])
  {
  }

  lemma BaseInspect(s: State, t: Task, id: SessionId)
    requires CanInspect(s, t, id)
    ensures KeepsBase(s.tasks[t], Inspected(s, t, id).tasks[t])
  {
  }

  lemma BaseSeize(s: State, t: Task, id: SessionId)
    requires CanSeize(s, t, id)
    ensures KeepsBase(s.tasks[t], Seized(s, t, id).tasks[t])
  {
  }

  lemma BaseDirect(s: State, step: Step)
    requires IsDirect(step) && CanDirectly(s, step) && !step.CleanEof?
    ensures step.task in Directly(s, step).tasks && KeepsBase(Mover(s, step), Directly(s, step).tasks[step.task])
  {
  }

  lemma MoverBase(s: State, step: Step)
    requires Enabled(s, step) && !step.CleanEof?
    ensures step.task in Exec(s, step).tasks && KeepsBase(Mover(s, step), Exec(s, step).tasks[step.task])
  {
    hide KeepsBase;
    if IsDirect(step) {
      BaseDirect(s, step);
    } else if step.Move? {
      BaseMove(s, step.task, step.choice);
    } else if step.Acquire? {
      BaseAcquire(s, step.task);
    } else if step.Inspect? {
      BaseInspect(s, step.task, step.id);
    } else {
      BaseSeize(s, step.task, step.id);
    }
  }

  lemma BaseStays(s: State, step: Step, t: Task)
    requires Enabled(s, step) && t in s.tasks && OneTask(s, Exec(s, step), step)
    ensures t in Exec(s, step).tasks && KeepsBase(s.tasks[t], Exec(s, step).tasks[t])
  {
    if !step.CleanEof? {
      MoverBase(s, step);
    }
  }

  lemma {:induction false} BaseKept(states: seq<State>, steps: seq<Step>, i: nat, j: nat, t: Task)
    requires IsRun(states, steps) && i <= j < |states| && t in states[i].tasks && HasBase(states[i].tasks[t])
    ensures t in states[j].tasks && HasBase(states[j].tasks[t]) && states[j].tasks[t].base == states[i].tasks[t].base
    decreases j
  {
    if i == j {
    } else {
      BaseKept(states, steps, i, j - 1, t);
      RunBase(states, steps, j - 1, t);
    }
  }

  lemma RunBase(states: seq<State>, steps: seq<Step>, i: nat, t: Task)
    requires IsRun(states, steps) && i < |steps| && t in states[i].tasks && HasBase(states[i].tasks[t])
    ensures t in states[i + 1].tasks && HasBase(states[i + 1].tasks[t])
    ensures states[i + 1].tasks[t].base == states[i].tasks[t].base
  {
    RunFollows(states, steps, i);
    BaseStays(states[i], steps[i], t);
  }

  /** A finished list shows every event at or below its baseline, except for sessions no longer listed. */
  lemma ListWatermark(states: seq<State>, steps: seq<Step>, j: nat, t: Task, e: Event)
    requires IsRun(states, steps) && j < |states| && t in states[j].tasks && states[j].tasks[t].Listed?
    requires e in states[j].log && e.revision <= states[j].tasks[t].base
    ensures var rows := states[j].tasks[t].rows;
            if e.id in rows then Reflects(rows[e.id].revision, rows[e.id].state, e) else e.id !in states[j].listed
  {
    RunInv(states, steps, j);
    assert ListOk(states[j], states[j].tasks[t]);
  }

  lemma EarlierBelowBase(states: seq<State>, steps: seq<Step>, i: nat, t: Task, e: Event)
    requires IsRun(states, steps) && i < |steps| && steps[i] == Move(t, Proceed) && states[i].tasks[t].ListIdle?
    requires e in states[i].log
    ensures t in states[i + 1].tasks && states[i + 1].tasks[t].ListWait? && e.revision <= states[i + 1].tasks[t].base
  {
    RunInv(states, steps, i);
    LoggedBelow(states[i], e);
    assert states[i + 1] == Exec(states[i], steps[i]);
  }

  lemma LoggedBelow(s: State, e: Event)
    requires Ordered(s) && e in s.log
    ensures e.revision < s.clock
  {
    assert EventOk(s, e);
  }

  /** Whatever was published before the list began shows in its rows. */
  lemma ListIncludesEarlier(states: seq<State>, steps: seq<Step>, i: nat, j: nat, t: Task, e: Event)
    requires IsRun(states, steps) && i < j < |states| && steps[i] == Move(t, Proceed) && states[i].tasks[t].ListIdle?
    requires t in states[j].tasks && states[j].tasks[t].Listed? && e in states[i].log
    ensures var rows := states[j].tasks[t].rows;
            if e.id in rows then Reflects(rows[e.id].revision, rows[e.id].state, e) else e.id !in states[j].listed
  {
    EarlierBelowBase(states, steps, i, t, e);
    BaseKept(states, steps, i + 1, j, t);
    LogGrows(states, steps, i, j);
    ListWatermark(states, steps, j, t, e);
  }
}
