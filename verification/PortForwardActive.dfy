/** Distinct targets, bounded active sessions, one committed context: the reachable-state theorem. */
module PortForwardActive {
  import opened PortForward
  import opened PortForwardSafety
  import opened Sets

  // --- keys ---------------------------------------------------------------------------------

  lemma KeyInspect(s: State, t: Task, id: SessionId)
    requires CanInspect(s, t, id) && KeyOk(s, s.tasks[t])
    ensures KeyOk(Inspected(s, t, id), Inspected(s, t, id).tasks[t])
  {
  }

  lemma KeyProceed(s: State, t: Task)
    requires t in s.tasks && Proceeded(s, t).Some? && KeyOk(s, s.tasks[t]) && DistinctKeys(s)
    ensures KeyOk(Proceeded(s, t).value, Proceeded(s, t).value.tasks[t])
  {
  }

  lemma MoverKey(s: State, step: Step)
    requires Enabled(s, step) && !step.CleanEof? && KeyOk(s, Mover(s, step)) && DistinctKeys(s)
    ensures step.task in Exec(s, step).tasks && KeyOk(Exec(s, step), Exec(s, step).tasks[step.task])
  {
    if IsDirect(step) {
      KeyDirect(s, step);
    } else if step.Acquire? {
      KeylessAcquire(s, step.task);
    } else if step.Seize? {
      KeylessSeize(s, step.task, step.id);
    } else if step.Inspect? {
      KeyInspect(s, step.task, step.id);
    } else {
      KeyMove(s, step.task, step.choice);
    }
  }

  lemma KeyMove(s: State, t: Task, choice: Choice)
    requires CanMove(s, t, choice) && KeyOk(s, s.tasks[t]) && DistinctKeys(s)
    ensures KeyOk(Moved(s, t, choice).value, Moved(s, t, choice).value.tasks[t])
  {
    if choice == Proceed {
      KeyProceed(s, t);
    } else {
      KeylessMove(s, t, choice);
    }
  }

  /** A counter with no claim about a key. */
  predicate Keyless(pc: Pc) {
    !pc.StartKeys? && !pc.StartCount? && !pc.StartBind? && !pc.StartPublish?
  }

  lemma KeylessAcquire(s: State, t: Task)
    requires CanAcquire(s, t)
    ensures Keyless(Acquired(s, t).tasks[t])
  {
  }

  lemma KeylessMove(s: State, t: Task, choice: Choice)
    requires CanMove(s, t, choice) && choice != Proceed
    ensures Keyless(Moved(s, t, choice).value.tasks[t])
  {
  }

  lemma KeylessSeize(s: State, t: Task, id: SessionId)
    requires CanSeize(s, t, id)
    ensures Keyless(Seized(s, t, id).tasks[t])
  {
  }

  lemma KeyGate(s: State, t: Task)
    requires CanDirectly(s, TakeGate(t)) && KeyOk(s, s.tasks[t])
    ensures KeyOk(Directly(s, TakeGate(t)), Directly(s, TakeGate(t)).tasks[t])
  {
  }

  lemma KeyPrune(s: State, t: Task, gone: set<SessionId>)
    requires CanDirectly(s, Prune(t, gone))
    ensures Keyless(Directly(s, Prune(t, gone)).tasks[t])
  {
  }

  lemma KeylessDirect(s: State, step: Step)
    requires IsDirect(step) && CanDirectly(s, step) && !step.CleanEof? && !step.TakeGate? && !step.Prune?
    ensures step.task in Directly(s, step).tasks && Keyless(Directly(s, step).tasks[step.task])
  {
  }

  lemma KeyDirect(s: State, step: Step)
    requires IsDirect(step) && CanDirectly(s, step) && !step.CleanEof? && KeyOk(s, Mover(s, step))
    ensures step.task in Directly(s, step).tasks && KeyOk(Directly(s, step), Directly(s, step).tasks[step.task])
  {
    match step {
      case TakeGate(t) => KeyGate(s, t);
      case Prune(t, gone) => KeyPrune(s, t, gone);
      case _ => KeylessDirect(s, step);
    }
  }

  ghost predicate Keys(s: State) {
    DistinctKeys(s) && forall t :: t in s.tasks ==> KeyOk(s, s.tasks[t])
  }

  lemma KeysAfter(s: State, r: State, step: Step)
    requires Keys(s) && Exclusive(s) && Ownership(s) && Guaranteed(s, r, step)
    requires !step.CleanEof? ==> step.task in r.tasks && KeyOk(r, r.tasks[step.task])
    ensures Keys(r)
  {
    var pc := Mover(s, step);
    DistinctAfter(s, r, pc);
    forall u | u in r.tasks ensures KeyOk(r, r.tasks[u]) {
      if step.CleanEof? || u != step.task {
        KeyStable(s, r, pc, s.tasks[u]);
      }
    }
  }

  lemma StepKeys(s: State, step: Step)
    requires Keys(s) && Exclusive(s) && Ownership(s) && Enabled(s, step) && Guarantee(s, step)
    ensures Keys(Exec(s, step))
  {
    if !step.CleanEof? {
      MoverKey(s, step);
    }
    KeysAfter(s, Exec(s, step), step);
  }

  // --- active sessions ----------------------------------------------------------------------

  ghost function ActiveIds(s: State): set<SessionId> {
    set id | id in s.sessions && s.sessions[id].state == Active
  }

  /** Every other listed live session is accounted for. */
  ghost predicate OthersIn(s: State, own: SessionId, counted: set<SessionId>) {
    forall id :: id in s.listed && id in s.sessions && id != own && s.sessions[id].Live() ==> id in counted
  }

  /** What a task that counts, stops or clears sessions has established so far. */
  ghost predicate ActiveOk(s: State, pc: Pc) {
    && (pc.StartCount? ==> OthersIn(s, pc.id, pc.todo + pc.seen))
    && (pc.StartBind? || pc.StartPublish? ==> |pc.seen| < MAX_SESSIONS && OthersIn(s, pc.id, pc.seen))
    && (pc.SwitchMark? || pc.SwitchMarked? ==> ActiveIds(s) <= pc.todo)
    && (pc.SwitchJoin? || pc.SwitchEnded? ==> ActiveIds(s) == {})
    && (pc.ShutWait? ==> s.shutdown)
    && (pc.ShutMark? ==> s.shutdown && ActiveIds(s) <= pc.todo)
  }

  /** Active sessions are listed and belong to the committed context. */
  ghost predicate ActivePlaced(s: State) {
    forall id :: id in s.sessions && s.sessions[id].state == Active ==>
      id in s.listed && s.sessions[id].context == s.context
  }

  lemma OthersStable(s: State, r: State, pc: Pc, own: SessionId, counted: set<SessionId>)
    requires Rely(s, r, pc) && OthersIn(s, own, counted) && !pc.HoldsManager()
    ensures OthersIn(r, own, counted)
  {
  }

  /** Nobody becomes Active but at a start's own publication, which shutdown rules out. */
  lemma ActiveIdsShrink(s: State, r: State, pc: Pc)
    requires Rely(s, r, pc) && (pc.StartPublish? ==> r.shutdown)
    ensures ActiveIds(r) <= ActiveIds(s)
  {
  }

  lemma ActiveStable(s: State, r: State, pc: Pc, other: Pc)
    requires Rely(s, r, pc) && ActiveOk(s, other) && (other.HoldsManager() ==> !pc.HoldsManager())
    ensures ActiveOk(r, other)
  {
    if other.StartCount? {
      OthersStable(s, r, pc, other.id, other.todo + other.seen);
    } else if other.StartBind? || other.StartPublish? {
      OthersStable(s, r, pc, other.id, other.seen);
    } else if other.HoldsManager() || s.shutdown {
      ActiveIdsShrink(s, r, pc);
    }
  }

  lemma PlacedAfter(s: State, r: State, pc: Pc)
    requires Rely(s, r, pc) && ActivePlaced(s) && OwnerOk(s, pc) && ActiveOk(s, pc)
    requires ContextOk(s, pc)
    ensures ActivePlaced(r)
  {
    forall id | id in r.sessions && r.sessions[id].state == Active
      ensures id in r.listed && r.sessions[id].context == r.context
    {
      PlacedOne(s, r, pc, id);
    }
  }

  lemma PlacedOne(s: State, r: State, pc: Pc, id: SessionId)
    requires Rely(s, r, pc) && ActivePlaced(s) && OwnerOk(s, pc) && ActiveOk(s, pc) && ContextOk(s, pc)
    requires id in r.sessions && r.sessions[id].state == Active
    ensures id in r.listed && r.sessions[id].context == r.context
  {
    assert id in s.sessions;
    if s.sessions[id].state == Active {
      assert id in ActiveIds(s) && !Owns(pc, id);
    } else {
      assert Owns(pc, id);
    }
  }

  lemma BoundAfter(s: State, r: State, pc: Pc)
    requires Rely(s, r, pc) && ActivePlaced(s) && ActiveOk(s, pc) && |ActiveIds(s)| <= MAX_SESSIONS
    ensures |ActiveIds(r)| <= MAX_SESSIONS
  {
    if pc.StartPublish? && r.sessions != s.sessions {
      forall id | id in ActiveIds(r) ensures id in pc.seen + {pc.id} {
        if id != pc.id {
          assert id in s.sessions && s.sessions[id].state == Active;
        }
      }
      SubsetSize(ActiveIds(r), pc.seen + {pc.id});
      UnionOne(pc.seen, pc.id);
    } else {
      assert ActiveIds(r) <= ActiveIds(s);
      SubsetSize(ActiveIds(r), ActiveIds(s));
    }
  }

  lemma UnionOne(a: set<SessionId>, x: SessionId)
    ensures |a + {x}| <= |a| + 1
  {
    if x in a {
      assert a + {x} == a;
    }
  }

  lemma ActiveAcquire(s: State, t: Task)
    requires CanAcquire(s, t) && ActiveOk(s, s.tasks[t]) && ActivePlaced(s)
    ensures ActiveOk(Acquired(s, t), Acquired(s, t).tasks[t])
  {
    hide ManagerFree, SessionFree;
    assert ActiveIds(Acquired(s, t)) == ActiveIds(s) <= s.listed;
  }

  lemma ActiveInspect(s: State, t: Task, id: SessionId)
    requires CanInspect(s, t, id) && ActiveOk(s, s.tasks[t])
    ensures ActiveOk(Inspected(s, t, id), Inspected(s, t, id).tasks[t])
  {
  }

  lemma ActiveSeize(s: State, t: Task, id: SessionId)
    requires CanSeize(s, t, id) && ActiveOk(s, s.tasks[t])
    ensures ActiveOk(Seized(s, t, id), Seized(s, t, id).tasks[t])
  {
    var r := Seized(s, t, id);
    assert ActiveIds(r) <= ActiveIds(s);
    assert s.tasks[t].SwitchMark? || s.tasks[t].ShutMark? ==> id !in ActiveIds(r);
  }

  lemma ActiveProceed(s: State, t: Task)
    requires t in s.tasks && Proceeded(s, t).Some? && ActiveOk(s, s.tasks[t])
    ensures ActiveOk(Proceeded(s, t).value, Proceeded(s, t).value.tasks[t])
  {
    ProceedNext(s, t);
    ProceededActive(s, Proceeded(s, t).value, s.tasks[t], Proceeded(s, t).value.tasks[t]);
  }

  /** Where falling through leads a task that counts, stops or clears sessions. */
  predicate NextAfter(s: State, r: State, pc: Pc, next: Pc) {
    && r.sessions == s.sessions && ((pc.StartCount? && |pc.seen| >= MAX_SESSIONS) || r.listed == s.listed)
    && (next.StartCount? ==> next.todo == r.listed == s.listed)
    && (next.StartBind? ==> pc.StartCount? && pc.todo == {} && next.id == pc.id && next.seen == pc.seen
                            && |pc.seen| < MAX_SESSIONS)
    && (next.SwitchJoin? ==> pc.SwitchMark? && pc.todo == {})
    && (next.ShutWait? ==> r.shutdown)
    && !next.StartPublish? && !next.SwitchMark? && !next.SwitchMarked? && !next.SwitchEnded? && !next.ShutMark?
  }

  lemma ProceedNext(s: State, t: Task)
    requires t in s.tasks && Proceeded(s, t).Some?
    ensures NextAfter(s, Proceeded(s, t).value, s.tasks[t], Proceeded(s, t).value.tasks[t])
  {
  }

  lemma ProceededActive(s: State, r: State, pc: Pc, next: Pc)
    requires ActiveOk(s, pc) && NextAfter(s, r, pc, next)
    ensures ActiveOk(r, next)
  {
    assert ActiveIds(r) == ActiveIds(s);
  }

  /** A counter that claims nothing about who is Active. */
  predicate Unclaiming(pc: Pc) {
    !pc.StartCount? && !pc.StartBind? && !pc.StartPublish? && !pc.SwitchMark? && !pc.SwitchMarked? && !pc.SwitchJoin?
    && !pc.SwitchEnded? && !pc.ShutWait? && !pc.ShutMark?
  }

  lemma ActiveResult(s: State, t: Task, choice: Choice)
    requires CanMove(s, t, choice) && choice != Proceed
    ensures Unclaiming(Moved(s, t, choice).value.tasks[t])
  {
  }

  lemma ActiveAnnounce(s: State, t: Task)
    requires CanAnnounce(s, t) && ActiveOk(s, s.tasks[t])
    ensures ActiveOk(Announced(s, t), Announced(s, t).tasks[t])
  {
    assert ActiveIds(Announced(s, t)) == ActiveIds(s);
  }

  lemma ActiveGate(s: State, t: Task)
    requires CanDirectly(s, TakeGate(t)) && ActiveOk(s, s.tasks[t])
    ensures ActiveOk(Directly(s, TakeGate(t)), Directly(s, TakeGate(t)).tasks[t])
  {
  }

  lemma UnclaimingDirect(s: State, step: Step)
    requires IsDirect(step) && CanDirectly(s, step) && !step.CleanEof? && !step.TakeGate? && !step.Announce?
    ensures step.task in Directly(s, step).tasks && Unclaiming(Directly(s, step).tasks[step.task])
  {
  }

  lemma ActiveDirect(s: State, step: Step)
    requires IsDirect(step) && CanDirectly(s, step) && !step.CleanEof? && ActiveOk(s, Mover(s, step))
    ensures step.task in Directly(s, step).tasks && ActiveOk(Directly(s, step), Directly(s, step).tasks[step.task])
  {
    match step {
      case TakeGate(t) => ActiveGate(s, t);
      case Announce(t) => ActiveAnnounce(s, t);
      case _ => UnclaimingDirect(s, step);
    }
  }

  predicate Admitted(pc: Pc) {
    pc.StartKeys? || pc.StartCount? || pc.StartBind? || pc.StartPublish?
  }

  /** A start between admission and publication still sees the context it was admitted under. */
  ghost predicate ContextOk(s: State, pc: Pc) {
    Admitted(pc) ==> pc.context == s.context
  }

  lemma ContextMover(s: State, step: Step)
    requires Enabled(s, step) && !step.CleanEof? && ContextOk(s, Mover(s, step))
    ensures step.task in Exec(s, step).tasks && ContextOk(Exec(s, step), Exec(s, step).tasks[step.task])
  {
    if IsDirect(step) {
      ContextDirect(s, step);
    } else if step.Inspect? {
      ContextInspect(s, step.task, step.id);
    } else if step.Move? {
      ContextMove(s, step.task, step.choice);
    } else if step.Acquire? {
      ContextAcquire(s, step.task);
    } else {
      ContextSeize(s, step.task, step.id);
    }
  }

  lemma ContextDirect(s: State, step: Step)
    requires IsDirect(step) && CanDirectly(s, step) && !step.CleanEof? && ContextOk(s, Mover(s, step))
    ensures step.task in Directly(s, step).tasks && ContextOk(Directly(s, step), Directly(s, step).tasks[step.task])
  {
  }

  lemma ContextSeize(s: State, t: Task, id: SessionId)
    requires CanSeize(s, t, id)
    ensures !Admitted(Seized(s, t, id).tasks[t])
  {
  }

  lemma ContextInspect(s: State, t: Task, id: SessionId)
    requires CanInspect(s, t, id) && ContextOk(s, s.tasks[t])
    ensures ContextOk(Inspected(s, t, id), Inspected(s, t, id).tasks[t])
  {
  }

  lemma ContextMove(s: State, t: Task, choice: Choice)
    requires CanMove(s, t, choice) && ContextOk(s, s.tasks[t])
    ensures ContextOk(Moved(s, t, choice).value, Moved(s, t, choice).value.tasks[t])
  {
  }

  lemma ContextAcquire(s: State, t: Task)
    requires CanAcquire(s, t)
    ensures ContextOk(Acquired(s, t), Acquired(s, t).tasks[t])
  {
  }

  lemma ContextsAfter(s: State, r: State, step: Step)
    requires Exclusive(s) && Guaranteed(s, r, step) && forall t :: t in s.tasks ==> ContextOk(s, s.tasks[t])
    requires !step.CleanEof? ==> step.task in r.tasks && ContextOk(r, r.tasks[step.task])
    ensures forall t :: t in r.tasks ==> ContextOk(r, r.tasks[t])
  {
    forall u | u in r.tasks ensures ContextOk(r, r.tasks[u]) {
      if step.CleanEof? || u != step.task {
        ContextStable(s, r, Mover(s, step), s.tasks[u]);
      }
    }
  }

  lemma ContextStable(s: State, r: State, pc: Pc, other: Pc)
    requires Rely(s, r, pc) && ContextOk(s, other) && (other.HoldsManager() ==> !pc.HoldsManager())
    ensures ContextOk(r, other)
  {
  }

  ghost predicate Actives(s: State) {
    && ActivePlaced(s) && |ActiveIds(s)| <= MAX_SESSIONS
    && (forall t :: t in s.tasks ==> ContextOk(s, s.tasks[t]))
    && (forall t :: t in s.tasks ==> ActiveOk(s, s.tasks[t]))
  }

  lemma MoverActive(s: State, step: Step)
    requires Enabled(s, step) && !step.CleanEof? && ActiveOk(s, Mover(s, step)) && ActivePlaced(s)
    ensures step.task in Exec(s, step).tasks && ActiveOk(Exec(s, step), Exec(s, step).tasks[step.task])
  {
    hide ActiveOk;
    if IsDirect(step) {
      ActiveDirect(s, step);
    } else if step.Acquire? {
      ActiveAcquire(s, step.task);
    } else if step.Inspect? {
      ActiveInspect(s, step.task, step.id);
    } else if step.Seize? {
      ActiveSeize(s, step.task, step.id);
    } else {
      ActiveMove(s, step.task, step.choice);
    }
  }

  lemma ActiveMove(s: State, t: Task, choice: Choice)
    requires CanMove(s, t, choice) && ActiveOk(s, s.tasks[t])
    ensures ActiveOk(Moved(s, t, choice).value, Moved(s, t, choice).value.tasks[t])
  {
    if choice == Proceed {
      ActiveProceed(s, t);
    } else {
      ActiveResult(s, t, choice);
    }
  }

  lemma ActiveTasksAfter(s: State, r: State, step: Step)
    requires Exclusive(s) && Guaranteed(s, r, step) && forall t :: t in s.tasks ==> ActiveOk(s, s.tasks[t])
    requires !step.CleanEof? ==> step.task in r.tasks && ActiveOk(r, r.tasks[step.task])
    ensures forall t :: t in r.tasks ==> ActiveOk(r, r.tasks[t])
  {
    forall u | u in r.tasks ensures ActiveOk(r, r.tasks[u]) {
      if step.CleanEof? || u != step.task {
        ActiveStable(s, r, Mover(s, step), s.tasks[u]);
      }
    }
  }

  lemma ActivesAfter(s: State, r: State, step: Step)
    requires Actives(s) && Exclusive(s) && Ownership(s) && Guaranteed(s, r, step)
    requires !step.CleanEof? ==>
               step.task in r.tasks && ContextOk(r, r.tasks[step.task]) && ActiveOk(r, r.tasks[step.task])
    ensures Actives(r)
  {
    PlacedAfter(s, r, Mover(s, step));
    BoundAfter(s, r, Mover(s, step));
    ContextsAfter(s, r, step);
    ActiveTasksAfter(s, r, step);
  }

  lemma StepActives(s: State, step: Step)
    requires Actives(s) && Exclusive(s) && Ownership(s) && Enabled(s, step) && Guarantee(s, step)
    ensures Actives(Exec(s, step))
  {
    if !step.CleanEof? {
      ContextMover(s, step);
      MoverActive(s, step);
    }
    ActivesAfter(s, Exec(s, step), step);
  }

  // --- reachable states ---------------------------------------------------------------------

  ghost predicate Safe(s: State) {
    Exclusive(s) && Ownership(s) && Keys(s) && Actives(s)
  }

  lemma StepSafe(s: State, step: Step)
    requires Safe(s) && Enabled(s, step)
    ensures Safe(Exec(s, step)) && Guarantee(s, step)
  {
    ShutdownSeen(s, step);
    StepGuarantee(s, step);
    ExclusiveAfter(s, Exec(s, step), step);
    StepOwnership(s, step);
    StepKeys(s, step);
    StepActives(s, step);
  }

  lemma ShutdownSeen(s: State, step: Step)
    requires Actives(s) && Enabled(s, step)
    ensures step.Acquire? && s.tasks[step.task].ShutMark? ==> s.shutdown
  {
    assert step.Acquire? ==> ActiveOk(s, s.tasks[step.task]);
  }
}
