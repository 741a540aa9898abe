/** Every session a task is about to lock exists, so no step of the protocol is withheld for want of one. */
module PortForwardReferences {
  import opened PortForward
  import opened PortForwardSafety
  import opened PortForwardTheorems

  predicate ScansMany(pc: Pc) {
    pc.StartScan? || pc.StartKeys? || pc.StartCount? || pc.SwitchMark? || pc.SwitchMarked? || pc.ShutMark? || pc.ListRead?
  }

  predicate WorksOnOne(pc: Pc) {
    pc.StartResolve? || pc.StartWait? || pc.StartAdmit? || pc.StartKeys? || pc.StartCount? || pc.StartBind?
    || pc.StartPublish? || pc.StartDiscard? || pc.StartFail? || pc.StartFailed? || pc.StartFailedSend?
    || pc.StopWait? || pc.StopMarked? || pc.StopJoin? || pc.StopEnded?
    || pc.FailureSeen? || pc.FailureJoin? || pc.FailureEnded? || pc.SwitchMarked? || pc.SwitchEnded?
  }

  predicate JoinsMany(pc: Pc) {
    pc.SwitchMark? || pc.SwitchMarked? || pc.SwitchJoin? || pc.SwitchEnded?
  }

  /** A session a counter will lock or look at. A stop request may name any id at all. */
  predicate Mentions(pc: Pc, id: SessionId) {
    (ScansMany(pc) && id in pc.todo) || (WorksOnOne(pc) && pc.id == id) || (JoinsMany(pc) && id in pc.joins)
  }

  ghost predicate KnownTo(s: State, pc: Pc) {
    forall id :: Mentions(pc, id) ==> id in s.sessions
  }

  ghost predicate Known(s: State) {
    s.listed <= s.sessions.Keys && forall t :: t in s.tasks ==> KnownTo(s, s.tasks[t])
  }

  /** Counters that will go through the listed sessions, or look one up among them. */
  predicate Lookups(pc: Pc) {
    pc.StartIdle? || pc.SwitchIdle? || pc.ShutWait? || pc.StopLookup?
  }

  lemma TodoMentions(pc: Pc, id: SessionId)
    requires pc.StartScan? || pc.ShutMark? || pc.ListRead? || (pc.SwitchMark? && pc.joins == {})
    ensures Mentions(pc, id) <==> id in pc.todo
  {
  }

  lemma LookupMentions(s: State, t: Task, id: SessionId)
    requires CanAcquire(s, t) && Lookups(s.tasks[t]) && Mentions(Acquired(s, t).tasks[t], id)
    ensures id in s.listed
  {
    var next := Acquired(s, t).tasks[t];
    if next.StartScan? || next.ShutMark? || next.SwitchMark? {
      TodoMentions(next, id);
    }
  }

  lemma AcquireMentions(s: State, t: Task, id: SessionId)
    requires CanAcquire(s, t) && Mentions(Acquired(s, t).tasks[t], id)
    ensures Mentions(s.tasks[t], id) || id in s.listed
  {
    if Lookups(s.tasks[t]) {
      LookupMentions(s, t, id);
    }
  }

  lemma InspectMentions(s: State, t: Task, seen: SessionId, id: SessionId)
    requires CanInspect(s, t, seen) && Mentions(Inspected(s, t, seen).tasks[t], id)
    ensures Mentions(s.tasks[t], id)
  {
  }

  lemma SeizeMentions(s: State, t: Task, seized: SessionId, id: SessionId)
    requires CanSeize(s, t, seized) && Mentions(Seized(s, t, seized).tasks[t], id)
    ensures Mentions(s.tasks[t], id) || id == seized
  {
  }

  lemma StartMentions(s: State, t: Task, id: SessionId)
    requires t in s.tasks && (s.tasks[t].StartAdmit? || s.tasks[t].StartKeys? || s.tasks[t].StartCount?)
    requires Proceeded(s, t).Some? && Mentions(Proceeded(s, t).value.tasks[t], id)
    ensures Mentions(s.tasks[t], id) || id in s.listed
  {
    match s.tasks[t] {
      case StartAdmit(_, _, _, _) =>
      case StartKeys(_, _, _, _) =>
      case StartCount(_, _, _, _, _) =>
    }
  }

  lemma ProceedMentions(s: State, t: Task, id: SessionId)
    requires t in s.tasks && Proceeded(s, t).Some? && Mentions(Proceeded(s, t).value.tasks[t], id)
    ensures Mentions(s.tasks[t], id) || id in s.listed
  {
    if s.tasks[t].StartAdmit? || s.tasks[t].StartKeys? || s.tasks[t].StartCount? {
      StartMentions(s, t, id);
    } else {
      var next := Proceeded(s, t).value.tasks[t];
      if next.ListRead? {
        TodoMentions(next, id);
      }
    }
  }

  lemma ResultMentions(s: State, t: Task, choice: Choice, id: SessionId)
    requires CanMove(s, t, choice) && choice != Proceed && Mentions(Moved(s, t, choice).value.tasks[t], id)
    ensures Mentions(s.tasks[t], id)
  {
  }

  lemma MoveMentions(s: State, t: Task, choice: Choice, id: SessionId)
    requires CanMove(s, t, choice) && Mentions(Moved(s, t, choice).value.tasks[t], id)
    ensures Mentions(s.tasks[t], id) || id in s.listed
  {
    if choice == Proceed {
      ProceedMentions(s, t, id);
    } else {
      ResultMentions(s, t, choice, id);
    }
  }

  lemma AnnounceMentions(s: State, t: Task, id: SessionId)
    requires CanAnnounce(s, t) && Mentions(Announced(s, t).tasks[t], id)
    ensures Mentions(s.tasks[t], id)
  {
  }

  lemma InsertMentions(s: State, t: Task, inserted: SessionId, id: SessionId)
    requires CanInsert(s, t, inserted) && Mentions(Inserted(s, t, inserted).tasks[t], id)
    ensures id in Inserted(s, t, inserted).sessions
  {
  }

  lemma DirectMentions(s: State, step: Step, id: SessionId)
    requires IsDirect(step) && CanDirectly(s, step) && !step.CleanEof? && !step.Announce? && !step.Insert?
    requires step.task in Directly(s, step).tasks && Mentions(Directly(s, step).tasks[step.task], id)
    ensures Mentions(Mover(s, step), id) || id in Directly(s, step).sessions
  {
  }

  /** What a step makes its task mention was mentioned or listed before, or is there now. */
  lemma StepMentions(s: State, step: Step, id: SessionId)
    requires Enabled(s, step) && !step.CleanEof?
    requires step.task in Exec(s, step).tasks && Mentions(Exec(s, step).tasks[step.task], id)
    ensures Mentions(Mover(s, step), id) || id in s.listed || id in Exec(s, step).sessions
  {
    if IsDirect(step) {
      if step.Announce? {
        AnnounceMentions(s, step.task, id);
      } else if step.Insert? {
        InsertMentions(s, step.task, step.id, id);
      } else {
        DirectMentions(s, step, id);
      }
    } else {
      LockingMentions(s, step, id);
    }
  }

  lemma LockingMentions(s: State, step: Step, id: SessionId)
    requires Enabled(s, step) && !IsDirect(step)
    requires step.task in Exec(s, step).tasks && Mentions(Exec(s, step).tasks[step.task], id)
    ensures Mentions(Mover(s, step), id) || id in s.listed || id in s.sessions
  {
    match step {
      case Acquire(t) => AcquireMentions(s, t, id);
      case Inspect(t, seen) => InspectMentions(s, t, seen, id);
      case Seize(t, seized) => SeizeMentions(s, t, seized, id);
      case Move(t, choice) => MoveMentions(s, t, choice, id);
    }
  }

  lemma KnownAfter(s: State, r: State, step: Step, u: Task)
    requires Known(s) && Guaranteed(s, r, step) && u in s.tasks && (step.CleanEof? || u != step.task)
    ensures KnownTo(r, s.tasks[u])
  {
  }

  lemma StepKnown(s: State, step: Step)
    requires Known(s) && Enabled(s, step) && Guarantee(s, step)
    ensures Known(Exec(s, step))
  {
    var r := Exec(s, step);
    forall u, id | u in r.tasks && Mentions(r.tasks[u], id) ensures id in r.sessions {
      if !step.CleanEof? && u == step.task {
        StepMentions(s, step, id);
      } else {
        KnownAfter(s, r, step, u);
      }
    }
  }

  lemma {:induction false} RunKnown(states: seq<State>, steps: seq<Step>, i: nat)
    requires IsRun(states, steps) && i < |states|
    ensures Known(states[i])
  {
    hide Inv, Enabled, Exec;
    if i == 0 {
    } else {
      RunKnown(states, steps, i - 1);
      RunInv(states, steps, i - 1);
      StepInv(states[i - 1], steps[i - 1]);
      StepKnown(states[i - 1], steps[i - 1]);
    }
  }

  /** So a free lock is all that the steps taking a session's lock ever wait for. */
  lemma NeverWithheld(states: seq<State>, steps: seq<Step>, i: nat, t: Task, id: SessionId)
    requires IsRun(states, steps) && i < |states| && t in states[i].tasks && SessionFree(states[i], id)
    ensures Inspects(states[i].tasks[t], id) ==> Enabled(states[i], Inspect(t, id))
    ensures Seizes(states[i].tasks[t], id) ==> Enabled(states[i], Seize(t, id))
  {
    RunKnown(states, steps, i);
    assert KnownTo(states[i], states[i].tasks[t]);
  }

  /** And free locks are all that publishing and entering the manager wait for. */
  lemma NeverWithheldElsewhere(states: seq<State>, steps: seq<Step>, i: nat, t: Task)
    requires IsRun(states, steps) && i < |states| && t in states[i].tasks
    ensures var s := states[i]; var pc := s.tasks[t];
            && (Publishes(pc) && GateFree(s) ==> Enabled(s, Announce(t)))
            && (pc.StartFailed? && GateFree(s) ==> Enabled(s, StampFailure(t)))
            && (pc.StartPublish? && SessionFree(s, pc.id) ==> Enabled(s, Commit(t)))
            && (WantsManager(pc) && ManagerFree(s) && (pc.StartDiscard? ==> SessionFree(s, pc.id)) ==>
                  Enabled(s, Acquire(t)))
  {
    RunKnown(states, steps, i);
    var pc := states[i].tasks[t];
    assert KnownTo(states[i], pc);
    assert WorksOnOne(pc) ==> Mentions(pc, pc.id);
  }
}
