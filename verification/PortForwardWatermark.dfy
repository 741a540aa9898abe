/**
 * What a list's revision promises once it is raised over the rows. Rows are read one by one under the manager
 * lock while sessions go on publishing; this is when the raised revision covers every event, and when it cannot.
 */
module PortForwardWatermark {
  import opened PortForward
  import opened PortForwardSafety
  import opened PortForwardActive
  import opened PortForwardPublication
  import opened PortForwardTheorems
  import opened PortForwardReferences

  // --- joins --------------------------------------------------------------------------------

  /** Whoever joins a session's tasks has marked it Stopping before. */
  ghost predicate JoinOk(s: State, pc: Pc) {
    pc.StopJoin? || pc.FailureJoin? ==> pc.id in s.sessions && s.sessions[pc.id].state.Rank() >= 2
  }

  ghost predicate Joins(s: State) {
    forall t :: t in s.tasks ==> JoinOk(s, s.tasks[t])
  }

  /** The protocol's invariant, with the references and joins of its tasks. */
  ghost predicate Kept(s: State) {
    Inv(s) && Known(s) && Joins(s)
  }

  lemma JoinSeize(s: State, t: Task, id: SessionId)
    requires CanSeize(s, t, id)
    ensures JoinOk(Seized(s, t, id), Seized(s, t, id).tasks[t])
  {
  }

  lemma JoinMove(s: State, t: Task, choice: Choice)
    requires CanMove(s, t, choice)
    ensures JoinOk(Moved(s, t, choice).value, Moved(s, t, choice).value.tasks[t])
  {
  }

  lemma JoinAcquire(s: State, t: Task)
    requires CanAcquire(s, t)
    ensures JoinOk(Acquired(s, t), Acquired(s, t).tasks[t])
  {
  }

  lemma JoinDirect(s: State, step: Step)
    requires IsDirect(step) && CanDirectly(s, step) && !step.CleanEof? && !step.Prune? && OutcomeOk(s, Mover(s, step))
    ensures step.task in Directly(s, step).tasks && JoinOk(Directly(s, step), Directly(s, step).tasks[step.task])
  {
  }

  lemma JoinStable(s: State, r: State, pc: Pc, other: Pc)
    requires Rely(s, r, pc) && JoinOk(s, other)
    ensures JoinOk(r, other)
  {
    if other.StopJoin? || other.FailureJoin? {
      assert Follows(pc, other.id, s.sessions[other.id], r.sessions[other.id]);
    }
  }

  lemma JoinInspect(s: State, t: Task, id: SessionId)
    requires CanInspect(s, t, id)
    ensures JoinOk(Inspected(s, t, id), Inspected(s, t, id).tasks[t])
  {
  }

  lemma JoinMover(s: State, step: Step)
    requires Enabled(s, step) && !step.CleanEof? && !step.Prune? && OutcomeOk(s, Mover(s, step))
    ensures step.task in Exec(s, step).tasks && JoinOk(Exec(s, step), Exec(s, step).tasks[step.task])
  {
    hide JoinOk;
    if IsDirect(step) {
      JoinDirect(s, step);
    } else if step.Seize? {
      JoinSeize(s, step.task, step.id);
    } else if step.Move? {
      JoinMove(s, step.task, step.choice);
    } else if step.Acquire? {
      JoinAcquire(s, step.task);
    } else {
      JoinInspect(s, step.task, step.id);
    }
  }

  lemma JoinsAfter(s: State, r: State, step: Step)
    requires Joins(s) && Guaranteed(s, r, step)
    requires !step.CleanEof? && !step.Prune? ==> step.task in r.tasks && JoinOk(r, r.tasks[step.task])
    ensures Joins(r)
  {
    forall u | u in r.tasks ensures JoinOk(r, r.tasks[u]) {
      if step.CleanEof? || step.Prune? || u != step.task {
        JoinStable(s, r, Mover(s, step), s.tasks[u]);
      }
    }
  }

  lemma StepKept(s: State, step: Step)
    requires Kept(s) && Enabled(s, step)
    ensures Kept(Exec(s, step)) && Guarantee(s, step) && Publication(s, Exec(s, step), Mover(s, step))
  {
    StepInv(s, step);
    StepKnown(s, step);
    if !step.CleanEof? && !step.Prune? {
      MoverClaims(s, step);
      JoinMover(s, step);
    }
    JoinsAfter(s, Exec(s, step), step);
  }

  lemma {:induction false} RunKept(states: seq<State>, steps: seq<Step>, i: nat)
    requires IsRun(states, steps) && i < |states|
    ensures Kept(states[i])
  {
    if i == 0 {
      InitInv(states[0]);
    } else {
      RunKept(states, steps, i - 1);
      StepKept(states[i - 1], steps[i - 1]);
    }
  }

  // --- continuations ------------------------------------------------------------------------

  ghost predicate IsPath(states: seq<State>, steps: seq<Step>, s: State, r: State) {
    && |states| == |steps| + 1 && states[0] == s && states[|steps|] == r
    && forall i :: 0 <= i < |steps| ==> Enabled(states[i], steps[i]) && states[i + 1] == Exec(states[i], steps[i])
  }

  /** Some steps lead from `s` to `r`. */
  ghost predicate Reaches(s: State, r: State) {
    exists states, steps :: IsPath(states, steps, s, r)
  }

  lemma ReachesSelf(s: State)
    ensures Reaches(s, s)
  {
    assert IsPath([s], [], s, s);
  }

  lemma ReachesStep(s: State, x: State, step: Step)
    requires Reaches(s, x) && Enabled(x, step)
    ensures Reaches(s, Exec(x, step))
  {
    var states, steps :| IsPath(states, steps, s, x);
    var r := Exec(x, step);
    var longer, more := states + [r], steps + [step];
    forall i | 0 <= i < |more| ensures Enabled(longer[i], more[i]) && longer[i + 1] == Exec(longer[i], more[i]) {
      assert i < |steps| ==> longer[i] == states[i] && longer[i + 1] == states[i + 1] && more[i] == steps[i];
    }
    assert IsPath(longer, more, s, r);
  }

  lemma RunReaches(states: seq<State>, steps: seq<Step>, i: nat, j: nat)
    requires IsRun(states, steps) && i <= j < |states|
    ensures Reaches(states[i], states[j])
  {
    assert IsPath(states[i..j + 1], steps[i..j], states[i], states[j]);
  }

  lemma RunExtends(states: seq<State>, steps: seq<Step>, r: State)
    requires IsRun(states, steps) && Reaches(states[|steps|], r)
    ensures exists longer, more :: IsRun(longer, more) && longer[|more|] == r
  {
    var rest, further :| IsPath(rest, further, states[|steps|], r);
    var longer, more := states + rest[1..], steps + further;
    forall i | 0 <= i < |more| ensures Enabled(longer[i], more[i]) && longer[i + 1] == Exec(longer[i], more[i]) {
      if i < |steps| {
        assert longer[i] == states[i] && longer[i + 1] == states[i + 1] && more[i] == steps[i];
      } else {
        var k := i - |steps|;
        assert longer[i] == rest[k] && longer[i + 1] == rest[k + 1] && more[i] == further[k];
      }
    }
    assert longer[|more|] == rest[|further|];
    assert IsRun(longer, more);
  }

  // --- what a list may miss -----------------------------------------------------------------

  predicate Reading(s: State, t: Task) {
    t in s.tasks && s.tasks[t].ListRead?
  }

  /** The list is about to read its first row. */
  predicate Begun(s: State, t: Task) {
    t in s.tasks && s.tasks[t].ListRead? && s.tasks[t].todo == s.listed && s.tasks[t].rows == map[]
  }

  /** At or below the baseline raised to the newest row. */
  predicate BelowRaised(base: nat, rows: map<SessionId, Row>, revision: nat) {
    revision <= base || exists id :: id in rows && revision <= rows[id].revision
  }

  /** The finished list of `t` misses an event its raised revision claims to cover. */
  ghost predicate Misses(s: State, t: Task) {
    t in s.tasks && s.tasks[t].Listed? && exists e :: e in s.log && Missed(s, s.tasks[t].base, s.tasks[t].rows, e)
  }

  /** Its row does not show it, or there is no row although the session is listed. */
  predicate Missed(s: State, base: nat, rows: map<SessionId, Row>, e: Event) {
    && BelowRaised(base, rows, e.revision)
    && if e.id in rows then !Reflects(rows[e.id].revision, rows[e.id].state, e) else e.id in s.listed
  }

  // --- who may still publish while rows are read --------------------------------------------

  predicate Holding(pc: Pc, id: SessionId) {
    (pc.StopMarked? || pc.StopEnded? || pc.FailureEnded?) && pc.id == id
  }

  /** A task that can publish a state of session `id` without the manager lock. */
  predicate Announces(pc: Pc, id: SessionId, state: SessionState) {
    || Holding(pc, id)
    || (pc == StopWait(id) && state == Starting)
    || ((pc == StopJoin(id) || pc == FailureJoin(id)) && state == Stopping)
  }

  /** A task that can stamp the failure of start `id`, and then keeps the gate until the manager lock is free. */
  predicate FailsStart(pc: Pc, id: SessionId, state: SessionState) {
    || pc == StartFailed(id)
    || (state == Starting && (pc == StartFail(id) || (pc.StartResolve? && pc.id == id)))
  }

  /** Failed streams can end an Active session at any time. */
  ghost predicate MayAnnounce(s: State, id: SessionId) {
    && id in s.sessions
    && (s.sessions[id].state == Active || exists u :: u in s.tasks && Announces(s.tasks[u], id, s.sessions[id].state))
  }

  ghost predicate MayFail(s: State, id: SessionId) {
    id in s.sessions && exists u :: u in s.tasks && FailsStart(s.tasks[u], id, s.sessions[id].state)
  }

  ghost predicate MayStamp(s: State, id: SessionId) {
    MayAnnounce(s, id) || MayFail(s, id)
  }

  /** A start that holds its failed session's lock, which keeps the row from being read. */
  predicate Blocks(s: State, u: Task, todo: set<SessionId>) {
    u in s.tasks && s.tasks[u].StartFailed? && s.tasks[u].id in todo
  }

  /**
   * Session `a` can publish after its row is read, and session `b` after that and before its own row is read,
   * with every other row readable first.
   */
  ghost predicate Outruns(s: State, t: Task, a: SessionId, b: SessionId)
    requires Reading(s, t)
  {
    var pc := s.tasks[t];
    && GateFree(s) && a != b && a in pc.todo + pc.rows.Keys && b in pc.todo
    && MayAnnounce(s, a) && (a in pc.todo ==> s.sessions[a].Live())
    && MayStamp(s, b)
    && forall u :: Blocks(s, u, pc.todo) ==> s.tasks[u].id == b
  }

  // --- the steps of others while rows are read ----------------------------------------------

  /** With the manager lock held by a reader, the steps of others are of five kinds that need no manager lock. */
  lemma OtherSteps(s: State, t: Task, step: Step)
    requires Exclusive(s) && Reading(s, t) && Enabled(s, step) && !step.CleanEof? && step.task != t
    ensures step.Spawn? || step.Seize? || step.Announce? || step.Move? || step.StampFailure?
    ensures !Mover(s, step).HoldsManager()
  {
  }

  lemma OwnSteps(s: State, t: Task, step: Step)
    requires Reading(s, t) && Enabled(s, step) && !step.CleanEof? && step.task == t
    ensures step.Inspect? || (step == Move(t, Proceed) && s.tasks[t].todo == {})
  {
  }

  /** What a mover's counter and a session's state afterwards show about them before. */
  predicate ChancesBack(x: SessionState, y: SessionState, pc: Pc, next: Pc, k: SessionId) {
    && (y == Active ==> x == Active)
    && (Announces(next, k, y) ==> x == Active || Announces(pc, k, x))
    && (FailsStart(next, k, y) ==> x == Active || Announces(pc, k, x) || FailsStart(pc, k, x))
    && (y == Starting ==> x == Starting) && (y == Stopping ==> x.Rank() <= 2)
  }

  lemma SeizeBack(s: State, t: Task, id: SessionId, k: SessionId)
    requires CanSeize(s, t, id) && !s.tasks[t].HoldsManager() && k in s.sessions
    ensures ChancesBack(s.sessions[k].state, Seized(s, t, id).sessions[k].state, s.tasks[t], Seized(s, t, id).tasks[t], k)
  {
  }

  lemma AnnounceBack(s: State, t: Task, k: SessionId)
    requires CanAnnounce(s, t) && !s.tasks[t].HoldsManager() && k in s.sessions
    ensures ChancesBack(s.sessions[k].state, Announced(s, t).sessions[k].state, s.tasks[t], Announced(s, t).tasks[t], k)
  {
  }

  /** A counter with no chance at any session. */
  predicate Harmless(pc: Pc) {
    pc.ShutWait? || pc.ListWait? || pc.Listed? || pc.StartWait? || pc.StartDiscard? || pc.Finished?
  }

  lemma ProceedBack(s: State, t: Task)
    requires t in s.tasks && Proceeded(s, t).Some? && (Reading(s, t) || !s.tasks[t].HoldsManager())
    ensures Harmless(Proceeded(s, t).value.tasks[t]) && Proceeded(s, t).value.sessions == s.sessions
  {
  }

  lemma WithdrawBack(s: State, t: Task, k: SessionId)
    requires t in s.tasks && Withdrawn(s, t).Some? && k in s.sessions
    ensures Harmless(Withdrawn(s, t).value.tasks[t]) && k in Withdrawn(s, t).value.sessions
    ensures Withdrawn(s, t).value.sessions[k].state == s.sessions[k].state
  {
  }

  lemma AnswerBack(s: State, t: Task, choice: Choice)
    requires t in s.tasks && choice != Proceed && choice != RequestCancelled && Answered(s, t, choice).Some?
    ensures var r := Answered(s, t, choice).value;
            && r.sessions == s.sessions
            && (Harmless(r.tasks[t]) || (s.tasks[t].StartResolve? && r.tasks[t] == StartFail(s.tasks[t].id)))
  {
  }

  /** Falling through starts nothing that could publish, except under the manager lock. */
  lemma MoveBack(s: State, t: Task, choice: Choice, k: SessionId)
    requires CanMove(s, t, choice) && (Reading(s, t) || !s.tasks[t].HoldsManager()) && k in s.sessions
    ensures k in Moved(s, t, choice).value.sessions
    ensures ChancesBack(s.sessions[k].state, Moved(s, t, choice).value.sessions[k].state,
                        s.tasks[t], Moved(s, t, choice).value.tasks[t], k)
  {
    hide Proceeded, Withdrawn, Answered;
    match choice {
      case Proceed => ProceedBack(s, t);
      case RequestCancelled => WithdrawBack(s, t, k);
      case _ => AnswerBack(s, t, choice);
    }
  }

  lemma InspectBack(s: State, t: Task, id: SessionId, k: SessionId)
    requires CanInspect(s, t, id) && Reading(s, t) && k in s.sessions
    ensures k in Inspected(s, t, id).sessions
    ensures ChancesBack(s.sessions[k].state, Inspected(s, t, id).sessions[k].state, s.tasks[t], Inspected(s, t, id).tasks[t], k)
  {
  }

  lemma DirectBack(s: State, step: Step, k: SessionId)
    requires IsDirect(step) && CanDirectly(s, step) && (step.Spawn? || step.StampFailure?) && k in s.sessions
    ensures step.task in Directly(s, step).tasks && k in Directly(s, step).sessions
    ensures ChancesBack(s.sessions[k].state, Directly(s, step).sessions[k].state,
                        Mover(s, step), Directly(s, step).tasks[step.task], k)
  {
  }

  lemma MoverBack(s: State, t: Task, step: Step, k: SessionId)
    requires Exclusive(s) && Reading(s, t) && Enabled(s, step) && !step.CleanEof? && k in s.sessions
    ensures step.task in Exec(s, step).tasks && k in Exec(s, step).sessions
    ensures ChancesBack(s.sessions[k].state, Exec(s, step).sessions[k].state,
                        Mover(s, step), Exec(s, step).tasks[step.task], k)
  {
    hide ChancesBack, Exclusive;
    if step.task == t {
      OwnSteps(s, t, step);
    } else {
      OtherSteps(s, t, step);
    }
    match step {
      case Seize(u, id) => SeizeBack(s, u, id, k);
      case Announce(u) => AnnounceBack(s, u, k);
      case Move(u, choice) => MoveBack(s, u, choice, k);
      case Inspect(u, id) => InspectBack(s, u, id, k);
      case _ => DirectBack(s, step, k);
    }
  }

  // --- chances only shrink ------------------------------------------------------------------

  /** Another task's chance at a session was there before the session moved on. */
  lemma ChanceBefore(x: SessionState, y: SessionState, other: Pc, k: SessionId)
    requires x == y || x.Rank() < y.Rank()
    requires (other.StopJoin? || other.FailureJoin?) && other.id == k ==> x.Rank() >= 2
    ensures Announces(other, k, y) ==> Announces(other, k, x)
    ensures FailsStart(other, k, y) ==> FailsStart(other, k, x)
  {
  }

  /** A step taken while rows are read, seen from one session. */
  ghost predicate Fades(s: State, r: State, step: Step, k: SessionId) {
    && k in s.sessions && k in r.sessions && Joins(s) && OneTask(s, r, step)
    && (r.sessions[k].state == s.sessions[k].state || s.sessions[k].state.Rank() < r.sessions[k].state.Rank())
    && (r.sessions[k].state == Active ==> s.sessions[k].state == Active)
    && (step.CleanEof?
        || (step.task in r.tasks
            && ChancesBack(s.sessions[k].state, r.sessions[k].state, Mover(s, step), r.tasks[step.task], k)))
  }

  lemma AnnouncersFade(s: State, r: State, step: Step, k: SessionId)
    requires Fades(s, r, step, k) && MayAnnounce(r, k)
    ensures MayAnnounce(s, k)
  {
    if s.sessions[k].state != Active {
      var u :| u in r.tasks && Announces(r.tasks[u], k, r.sessions[k].state);
      if step.CleanEof? || u != step.task {
        ChanceBefore(s.sessions[k].state, r.sessions[k].state, s.tasks[u], k);
      } else {
        assert Announces(Mover(s, step), k, s.sessions[k].state);
      }
    }
  }

  lemma FailersFade(s: State, r: State, step: Step, k: SessionId)
    requires Fades(s, r, step, k) && MayFail(r, k)
    ensures MayStamp(s, k)
  {
    if s.sessions[k].state != Active {
      var u :| u in r.tasks && FailsStart(r.tasks[u], k, r.sessions[k].state);
      if step.CleanEof? || u != step.task {
        ChanceBefore(s.sessions[k].state, r.sessions[k].state, s.tasks[u], k);
      } else {
        MoverFails(s, step, k);
      }
    }
  }

  lemma MoverFails(s: State, step: Step, k: SessionId)
    requires !step.CleanEof? && step.task in s.tasks && k in s.sessions
    requires Announces(s.tasks[step.task], k, s.sessions[k].state) || FailsStart(s.tasks[step.task], k, s.sessions[k].state)
    ensures MayStamp(s, k)
  {
  }

  lemma StampersFade(s: State, r: State, step: Step, k: SessionId)
    requires Fades(s, r, step, k) && MayStamp(r, k)
    ensures MayStamp(s, k)
  {
    if MayAnnounce(r, k) {
      AnnouncersFade(s, r, step, k);
    } else {
      FailersFade(s, r, step, k);
    }
  }

  lemma CleanFades(s: State, id: SessionId, k: SessionId)
    requires CanDirectly(s, CleanEof(id)) && k in s.sessions
    ensures k in Directly(s, CleanEof(id)).sessions
    ensures Directly(s, CleanEof(id)).sessions[k].state == s.sessions[k].state
  {
  }

  lemma StepFades(s: State, t: Task, step: Step, k: SessionId)
    requires Kept(s) && Reading(s, t) && Enabled(s, step) && Guarantee(s, step) && k in s.sessions
    ensures Fades(s, Exec(s, step), step, k)
  {
    if step.CleanEof? {
      CleanFades(s, step.id, k);
    } else {
      MoverBack(s, t, step, k);
    }
    assert Follows(Mover(s, step), k, s.sessions[k], Exec(s, step).sessions[k]);
  }

  // --- a watermark carried through the reading ----------------------------------------------

  predicate Lister(pc: Pc) {
    pc.ListRead? || pc.Listed?
  }

  /** The list of `t` would be right with watermark `w` for its baseline. */
  ghost predicate RaisedOk(s: State, t: Task, w: nat) {
    && t in s.tasks && Lister(s.tasks[t]) && ListOk(s, s.tasks[t].(base := w))
    && PairsAs(s, t, s.tasks[t].(base := w))
  }

  /** How a list counter standing in for that of `t` relates to the writers. */
  ghost predicate PairsAs(s: State, t: Task, pc: Pc) {
    forall u :: u in s.tasks && u != t ==> ReservedListed(s.listed, pc, s.tasks[u])
  }

  /** Somebody else's step keeps what is claimed of the reader. */
  lemma OthersKeep(s: State, step: Step, reader: Pc, t: Task)
    requires Kept(s) && Enabled(s, step) && Guarantee(s, step) && t in s.tasks && (step.CleanEof? || step.task != t)
    requires Publication(s, Exec(s, step), Mover(s, step)) && Lister(reader) && ListOk(s, reader) && PairsAs(s, t, reader)
    ensures ListOk(Exec(s, step), reader)
  {
    MoverClaims(s, step);
    ShownBy(s, step);
    ListStable(s, Exec(s, step), Mover(s, step), reader);
  }

  lemma OthersPair(s: State, step: Step, reader: Pc, t: Task, u: Task)
    requires Kept(s) && Enabled(s, step) && Guarantee(s, step) && t in s.tasks && (step.CleanEof? || step.task != t)
    requires Lister(reader) && ListOk(s, reader) && PairsAs(s, t, reader)
    requires u in Exec(s, step).tasks && u != t
    ensures ReservedListed(Exec(s, step).listed, reader, Exec(s, step).tasks[u])
  {
    var r := Exec(s, step);
    if !step.CleanEof? && !step.Prune? && u == step.task {
      WritesAbove(s, step, reader);
    } else {
      assert ReservedOk(s, s.tasks[u]);
    }
    RelistedNever(s, r, Mover(s, step), reader, r.tasks[u]);
  }

  lemma OthersPairs(s: State, step: Step, reader: Pc, t: Task)
    requires Kept(s) && Enabled(s, step) && Guarantee(s, step) && t in s.tasks && (step.CleanEof? || step.task != t)
    requires Lister(reader) && ListOk(s, reader) && PairsAs(s, t, reader)
    ensures PairsAs(Exec(s, step), t, reader)
  {
    var r := Exec(s, step);
    forall u | u in r.tasks && u != t ensures ReservedListed(r.listed, reader, r.tasks[u]) {
      OthersPair(s, step, reader, t, u);
    }
  }

  lemma OthersRaised(s: State, step: Step, t: Task, w: nat)
    requires Kept(s) && Enabled(s, step) && Guarantee(s, step) && t in s.tasks && (step.CleanEof? || step.task != t)
    requires Publication(s, Exec(s, step), Mover(s, step)) && RaisedOk(s, t, w)
    ensures t in Exec(s, step).tasks && Exec(s, step).tasks[t] == s.tasks[t] && RaisedOk(Exec(s, step), t, w)
  {
    hide Kept;
    OthersKeep(s, step, s.tasks[t].(base := w), t);
    OthersPairs(s, step, s.tasks[t].(base := w), t);
  }

  /** Reading one more row keeps it, and so does finishing. */
  lemma ReadRaised(s: State, t: Task, id: SessionId, w: nat)
    requires Kept(s) && CanInspect(s, t, id) && Reading(s, t) && RaisedOk(s, t, w)
    ensures RaisedOk(Inspected(s, t, id), t, w)
  {
    var pc := s.tasks[t];
    var next := ListRead(w, pc.todo - {id}, pc.rows[id := Row(s.sessions[id].revision, s.sessions[id].state)]);
    RowShows(s, w, pc.todo, pc.rows, id);
    forall u | u in s.tasks && u != t ensures ReservedListed(s.listed, next, s.tasks[u]) {
      RowPairs(s, w, pc.todo, pc.rows, id, s.tasks[u]);
    }
  }

  lemma RowPairs(s: State, base: nat, todo: set<SessionId>, rows: map<SessionId, Row>, id: SessionId, writer: Pc)
    requires id in s.sessions && ReservedOk(s, writer) && ReservedListed(s.listed, ListRead(base, todo, rows), writer)
    ensures ReservedListed(
              s.listed, ListRead(base, todo - {id}, rows[id := Row(s.sessions[id].revision, s.sessions[id].state)]), writer)
  {
  }

  lemma FinishRaised(s: State, t: Task, w: nat)
    requires Reading(s, t) && s.tasks[t].todo == {} && RaisedOk(s, t, w)
    ensures Proceeded(s, t).Some? && RaisedOk(Proceeded(s, t).value, t, w)
  {
  }

  // --- what is read, and the watermark at its end -------------------------------------------

  /** Listed sessions are read or still to be, and rows are no newer than anything published. */
  ghost predicate Reads(s: State, t: Task)
    requires Reading(s, t)
  {
    var pc := s.tasks[t];
    && s.listed <= pc.todo + pc.rows.Keys && pc.todo !! pc.rows.Keys && pc.base < s.clock
    && (forall k :: k in pc.todo + pc.rows.Keys ==> k in s.sessions)
    && (forall k :: k in pc.rows ==> pc.rows[k].revision < s.clock)
  }

  /** The watermark `w` is right, and no lower than the raised revision. */
  ghost predicate Covers(s: State, t: Task, w: nat) {
    && RaisedOk(s, t, w) && s.tasks[t].base <= w
    && forall k :: k in s.tasks[t].rows ==> s.tasks[t].rows[k].revision <= w
  }

  lemma CoversAll(s: State, t: Task, w: nat)
    requires Covers(s, t, w)
    ensures !Misses(s, t)
  {
    var pc := s.tasks[t];
    forall e | pc.Listed? && e in s.log && BelowRaised(pc.base, pc.rows, e.revision)
      ensures Shows(pc.rows, e) && (e.id in s.listed ==> e.id in pc.rows)
    {
      assert e.revision <= w;
    }
  }

  /** Before any row is read, and while none is outdated, the newest revision will do. */
  ghost predicate Fresh(s: State, t: Task) {
    s.clock > 0 && RaisedOk(s, t, s.clock - 1)
  }

  lemma BeginFresh(s: State, t: Task)
    requires Kept(s) && Begun(s, t)
    ensures Reads(s, t) && Fresh(s, t)
  {
    assert ListOk(s, s.tasks[t]);
    assert KnownTo(s, s.tasks[t]);
    var reader := ListRead(s.clock - 1, s.tasks[t].todo, s.tasks[t].rows);
    forall u | u in s.tasks && u != t ensures ReservedListed(s.listed, reader, s.tasks[u]) {
      assert !Clash(s.tasks[u], s.tasks[t]);
    }
  }

  // --- the gate and the blocking starts -----------------------------------------------------

  /** A start that has stamped its failure moves on only with the manager lock. */
  lemma SenderRests(s: State, step: Step)
    requires Enabled(s, step) && !step.CleanEof? && Mover(s, step).StartFailedSend?
    ensures step.Acquire?
  {
  }

  lemma FailedRests(s: State, step: Step)
    requires Enabled(s, step) && !step.CleanEof? && Mover(s, step).StartFailed?
    ensures step.StampFailure?
  {
  }

  lemma HolderRests(s: State, t: Task, step: Step, h: Task)
    requires Exclusive(s) && Reading(s, t) && Enabled(s, step) && h in s.tasks && s.tasks[h].HoldsGate()
    ensures step.CleanEof? || step.task != h
  {
    assert !Clash(s.tasks[h], s.tasks[t]);
    if !step.CleanEof? && step.task == h {
      SenderRests(s, step);
    }
  }

  /** While rows are read the gate, once taken, is not given back. */
  lemma GateStays(s: State, r: State, t: Task, step: Step)
    requires Exclusive(s) && Reading(s, t) && Enabled(s, step) && OneTask(s, r, step) && !GateFree(s)
    ensures !GateFree(r)
  {
    hide Exec;
    var h :| h in s.tasks && s.tasks[h].HoldsGate();
    HolderRests(s, t, step, h);
    assert r.tasks[h] == s.tasks[h];
  }

  /** A blocking start stays one until it stamps its failure, and then it has the gate. */
  lemma BlockStays(s: State, r: State, step: Step, u: Task, todo: set<SessionId>)
    requires Enabled(s, step) && OneTask(s, r, step) && Blocks(s, u, todo)
    ensures step != StampFailure(u) ==> Blocks(r, u, todo) && r.tasks[u] == s.tasks[u]
  {
    if !step.CleanEof? && step.task == u {
      FailedRests(s, step);
    }
  }

  lemma StampTakesGate(s: State, u: Task)
    requires CanStamp(s, u)
    ensures GateFree(s) && !GateFree(FailureStamped(s, u))
  {
    assert FailureStamped(s, u).tasks[u].HoldsGate();
  }

  lemma BlockerUnread(s: State, step: Step, u: Task, todo: set<SessionId>)
    requires Enabled(s, step) && Blocks(s, u, todo) && step.Inspect?
    ensures step.id != s.tasks[u].id
  {
    assert s.tasks[u].HoldsSession(s.tasks[u].id);
  }

  // --- stamps -------------------------------------------------------------------------------

  /** The step stamps session `k` with the next revision. */
  predicate StampsRow(s: State, step: Step, k: SessionId) {
    (step.Announce? && Holding(Mover(s, step), k)) || (step.StampFailure? && Mover(s, step) == StartFailed(k))
  }

  lemma AnnounceStamps(s: State, t: Task, k: SessionId)
    requires CanAnnounce(s, t) && !s.tasks[t].HoldsManager() && k in s.sessions
    ensures Announced(s, t).sessions[k].revision == s.sessions[k].revision || StampsRow(s, Announce(t), k)
  {
  }

  lemma DirectStamps(s: State, step: Step, k: SessionId)
    requires IsDirect(step) && CanDirectly(s, step) && k in s.sessions
    requires step.Spawn? || step.StampFailure? || step.CleanEof?
    ensures k in Directly(s, step).sessions
    ensures Directly(s, step).sessions[k].revision == s.sessions[k].revision || StampsRow(s, step, k)
  {
  }

  lemma LockStamps(s: State, step: Step, k: SessionId)
    requires Enabled(s, step) && (step.Move? || step.Seize?) && k in s.sessions
    ensures k in Exec(s, step).sessions && Exec(s, step).sessions[k].revision == s.sessions[k].revision
  {
    match step {
      case Move(u, choice) => MoveSilent(s, u, choice);
      case Seize(u, id) =>
    }
  }

  /** While rows are read, a row goes out of date only by one of these stamps, under a free gate. */
  lemma Restamped(s: State, t: Task, step: Step, k: SessionId)
    requires Exclusive(s) && Reading(s, t) && Enabled(s, step) && (step.CleanEof? || step.task != t) && k in s.sessions
    ensures k in Exec(s, step).sessions
    ensures Exec(s, step).sessions[k].revision == s.sessions[k].revision || StampsRow(s, step, k)
  {
    if !step.CleanEof? {
      OtherSteps(s, t, step);
    }
    if step.Move? || step.Seize? {
      LockStamps(s, step, k);
    } else if step.Announce? {
      AnnounceStamps(s, step.task, k);
    } else {
      DirectStamps(s, step, k);
    }
  }

  lemma StampNeedsGate(s: State, step: Step, k: SessionId)
    requires Enabled(s, step) && StampsRow(s, step, k)
    ensures GateFree(s)
  {
  }

  lemma StampersMayStamp(s: State, step: Step, k: SessionId)
    requires Kept(s) && Enabled(s, step) && StampsRow(s, step, k)
    ensures MayStamp(s, k) && (step.Announce? ==> MayAnnounce(s, k))
  {
    assert step.task in s.tasks;
    MoverClaims(s, step);
    if step.Announce? {
      assert Announces(s.tasks[step.task], k, s.sessions[k].state);
    } else {
      assert Right(s.tasks[step.task], k);
      assert FailsStart(s.tasks[step.task], k, s.sessions[k].state);
    }
  }

  // --- the phases of a reading that misses nothing ------------------------------------------

  /** Nothing unread can go out of date any more, and what is unread is not past the watermark. */
  ghost predicate Calm(s: State, t: Task, w: nat)
    requires Reading(s, t)
  {
    && Covers(s, t, w)
    && (forall k :: k in s.tasks[t].todo ==> k in s.sessions && s.sessions[k].revision <= w)
    && (!GateFree(s) || forall k :: k in s.tasks[t].todo ==> !MayStamp(s, k))
  }

  /** Two failed starts hold rows of which one cannot be let go: the list never finishes. */
  ghost predicate Stuck(s: State, t: Task)
    requires Reading(s, t)
  {
    exists u, v :: StuckBy(s, s.tasks[t].todo, u, v)
  }

  predicate StuckBy(s: State, todo: set<SessionId>, u: Task, v: Task) {
    Blocks(s, u, todo) && (!GateFree(s) || (Blocks(s, v, todo) && s.tasks[v].id != s.tasks[u].id))
  }

  ghost predicate NothingOutruns(s: State, t: Task)
    requires Reading(s, t)
  {
    forall a, b :: !Outruns(s, t, a, b)
  }

  ghost predicate Sound(s: State, t: Task)
    requires Reading(s, t)
  {
    (Fresh(s, t) && NothingOutruns(s, t)) || (exists w :: Calm(s, t, w)) || Stuck(s, t)
  }

  ghost predicate Unmissable(s: State, t: Task) {
    && t in s.tasks && Lister(s.tasks[t])
    && (if s.tasks[t].Listed? then exists w :: Covers(s, t, w) else Reads(s, t) && Sound(s, t))
  }

  // --- the reader's own steps ---------------------------------------------------------------

  lemma FreshCovers(s: State, t: Task)
    requires Reading(s, t) && Reads(s, t) && Fresh(s, t)
    ensures Covers(s, t, s.clock - 1)
  {
  }

  lemma FinishCovers(s: State, t: Task, w: nat)
    requires Reading(s, t) && s.tasks[t].todo == {} && Covers(s, t, w)
    ensures Proceeded(s, t).Some? && Covers(Proceeded(s, t).value, t, w)
  {
    FinishRaised(s, t, w);
  }

  lemma NotStuck(s: State, t: Task)
    requires Reading(s, t) && s.tasks[t].todo == {}
    ensures !Stuck(s, t)
  {
  }

  lemma FinishUnmissable(s: State, t: Task)
    requires Unmissable(s, t) && Reading(s, t) && s.tasks[t].todo == {}
    ensures Proceeded(s, t).Some? && Unmissable(Proceeded(s, t).value, t)
  {
    hide Covers, Stuck, NothingOutruns;
    NotStuck(s, t);
    if Fresh(s, t) {
      FreshCovers(s, t);
      FinishCovers(s, t, s.clock - 1);
    } else {
      var w :| Calm(s, t, w);
      FinishCovers(s, t, w);
    }
  }

  lemma ReadReads(s: State, t: Task, id: SessionId)
    requires Kept(s) && CanInspect(s, t, id) && Reading(s, t) && Reads(s, t)
    ensures Reads(Inspected(s, t, id), t)
  {
  }

  lemma ReadCalm(s: State, t: Task, id: SessionId, w: nat)
    requires Kept(s) && CanInspect(s, t, id) && Reading(s, t) && Calm(s, t, w)
    ensures Calm(Inspected(s, t, id), t, w)
  {
    hide Kept;
    var r := Inspected(s, t, id);
    ReadRaised(s, t, id, w);
    ReadGate(s, t, id);
    forall k | k in r.tasks[t].todo && GateFree(s) ensures !MayStamp(r, k) {
      ReadChances(s, t, id, k);
    }
  }

  lemma ReadGate(s: State, t: Task, id: SessionId)
    requires CanInspect(s, t, id) && Reading(s, t)
    ensures GateFree(Inspected(s, t, id)) <==> GateFree(s)
  {
    var r := Inspected(s, t, id);
    assert forall u :: u in s.tasks ==> r.tasks[u].HoldsGate() == s.tasks[u].HoldsGate();
  }

  /** Reading changes nobody's chances. */
  lemma ReadChances(s: State, t: Task, id: SessionId, k: SessionId)
    requires CanInspect(s, t, id) && Reading(s, t)
    ensures MayAnnounce(Inspected(s, t, id), k) <==> MayAnnounce(s, k)
    ensures MayStamp(Inspected(s, t, id), k) <==> MayStamp(s, k)
  {
    hide Exec;
    var r := Inspected(s, t, id);
    assert forall u :: u in s.tasks && u != t ==> r.tasks[u] == s.tasks[u];
    if k in s.sessions {
      var x := s.sessions[k].state;
      assert forall u :: u in s.tasks ==> Announces(r.tasks[u], k, x) == Announces(s.tasks[u], k, x);
      assert forall u :: u in s.tasks ==> FailsStart(r.tasks[u], k, x) == FailsStart(s.tasks[u], k, x);
    }
  }

  /** A session whose lock is free and that may still announce is live. */
  lemma UnlockedLive(s: State, k: SessionId)
    requires Kept(s) && MayAnnounce(s, k) && SessionFree(s, k)
    ensures s.sessions[k].Live()
  {
    if s.sessions[k].state != Active {
      var u :| u in s.tasks && Announces(s.tasks[u], k, s.sessions[k].state);
      assert !s.tasks[u].HoldsSession(k);
    }
  }

  lemma ReadOutruns(s: State, t: Task, id: SessionId, a: SessionId, b: SessionId)
    requires Kept(s) && CanInspect(s, t, id) && Reading(s, t) && Outruns(Inspected(s, t, id), t, a, b)
    ensures Outruns(s, t, a, b)
  {
    hide Kept, MayStamp, MayAnnounce;
    var r := Inspected(s, t, id);
    ReadGate(s, t, id);
    ReadChances(s, t, id, a);
    ReadChances(s, t, id, b);
    if a == id {
      UnlockedLive(s, a);
    }
    forall u | Blocks(s, u, s.tasks[t].todo) ensures s.tasks[u].id == b {
      BlockerUnread(s, Inspect(t, id), u, s.tasks[t].todo);
      assert Blocks(r, u, r.tasks[t].todo);
    }
  }

  lemma ReadStuck(s: State, t: Task, id: SessionId)
    requires CanInspect(s, t, id) && Reading(s, t) && Stuck(s, t)
    ensures Stuck(Inspected(s, t, id), t)
  {
    var r := Inspected(s, t, id);
    ReadGate(s, t, id);
    forall u | Blocks(s, u, s.tasks[t].todo) ensures Blocks(r, u, r.tasks[t].todo) && r.tasks[u] == s.tasks[u] {
      BlockerUnread(s, Inspect(t, id), u, s.tasks[t].todo);
    }
    var u, v :| StuckBy(s, s.tasks[t].todo, u, v);
    assert StuckBy(r, r.tasks[t].todo, u, v);
  }

  lemma ReadUnmissable(s: State, t: Task, id: SessionId)
    requires Kept(s) && CanInspect(s, t, id) && Reading(s, t) && Unmissable(s, t)
    ensures Unmissable(Inspected(s, t, id), t)
  {
    hide Kept;
    var r := Inspected(s, t, id);
    ReadReads(s, t, id);
    if Stuck(s, t) {
      ReadStuck(s, t, id);
    } else if Fresh(s, t) && NothingOutruns(s, t) {
      ReadRaised(s, t, id, s.clock - 1);
      forall a, b ensures !Outruns(r, t, a, b) {
        if Outruns(r, t, a, b) {
          ReadOutruns(s, t, id, a, b);
        }
      }
    } else {
      var w :| Calm(s, t, w);
      ReadCalm(s, t, id, w);
    }
  }

  // --- the steps of others ------------------------------------------------------------------

  /** A step of somebody else between two states, as far as a reading is concerned. */
  ghost predicate Aside(s: State, r: State, t: Task, step: Step) {
    && Reading(s, t) && t in r.tasks && r.tasks[t] == s.tasks[t] && Reads(s, t) && Reads(r, t)
    && (!GateFree(s) ==> !GateFree(r))
    && (step.StampFailure? ==> GateFree(s) && !GateFree(r))
    && (forall u :: Blocks(s, u, s.tasks[t].todo) && step != StampFailure(u) ==>
          Blocks(r, u, s.tasks[t].todo) && r.tasks[u] == s.tasks[u])
    && (forall k :: k in s.sessions ==> Dims(s, r, step, k))
  }

  /** A session's chances do not grow, and it is stamped only by a step that could. */
  ghost predicate Dims(s: State, r: State, step: Step, k: SessionId)
    requires k in s.sessions
  {
    && k in r.sessions && (r.sessions[k].Live() ==> s.sessions[k].Live())
    && (MayStamp(r, k) ==> MayStamp(s, k)) && (MayAnnounce(r, k) ==> MayAnnounce(s, k))
    && (r.sessions[k].revision == s.sessions[k].revision || (StampsRow(s, step, k) && GateFree(s) && MayStamp(s, k)))
  }

  ghost predicate Elsewhere(s: State, t: Task, step: Step) {
    Kept(s) && Reading(s, t) && Enabled(s, step) && (step.CleanEof? || step.task != t)
  }

  lemma OthersStamp(s: State, t: Task, step: Step, k: SessionId)
    requires Elsewhere(s, t, step) && k in s.sessions
    ensures k in Exec(s, step).sessions
    ensures Exec(s, step).sessions[k].revision == s.sessions[k].revision
            || (StampsRow(s, step, k) && GateFree(s) && MayStamp(s, k))
  {
    Restamped(s, t, step, k);
    if StampsRow(s, step, k) {
      StampNeedsGate(s, step, k);
      StampersMayStamp(s, step, k);
    }
  }

  lemma OthersDim(s: State, t: Task, step: Step, k: SessionId)
    requires Elsewhere(s, t, step) && Guarantee(s, step) && k in s.sessions
    ensures Dims(s, Exec(s, step), step, k)
  {
    hide Inv, Guarantee, Exec;
    var r := Exec(s, step);
    OthersStamp(s, t, step, k);
    StepFades(s, t, step, k);
    if MayAnnounce(r, k) {
      AnnouncersFade(s, r, step, k);
    }
    if MayStamp(r, k) {
      StampersFade(s, r, step, k);
    }
  }

  lemma OthersRead(s: State, r: State, t: Task, pc: Pc)
    requires Reading(s, t) && Reads(s, t) && t in r.tasks && r.tasks[t] == s.tasks[t]
    requires Rely(s, r, pc) && !pc.HoldsManager() && s.clock <= r.clock
    ensures Reads(r, t)
  {
  }

  lemma StampersGate(s: State, step: Step)
    requires Enabled(s, step) && step.StampFailure?
    ensures GateFree(s) && !GateFree(Exec(s, step))
  {
    StampTakesGate(s, step.task);
  }

  lemma MoverUnmanaged(s: State, t: Task, step: Step)
    requires Elsewhere(s, t, step)
    ensures !Mover(s, step).HoldsManager()
  {
    if !step.CleanEof? {
      OtherSteps(s, t, step);
    }
  }

  lemma OthersGate(s: State, t: Task, step: Step)
    requires Elsewhere(s, t, step) && OneTask(s, Exec(s, step), step)
    ensures !GateFree(s) ==> !GateFree(Exec(s, step))
    ensures step.StampFailure? ==> GateFree(s) && !GateFree(Exec(s, step))
  {
    if !GateFree(s) {
      GateStays(s, Exec(s, step), t, step);
    }
    if step.StampFailure? {
      StampersGate(s, step);
    }
  }

  lemma AsideReads(s: State, t: Task, step: Step)
    requires Elsewhere(s, t, step) && Reads(s, t) && Guarantee(s, step) && s.clock <= Exec(s, step).clock
    ensures t in Exec(s, step).tasks && Exec(s, step).tasks[t] == s.tasks[t] && Reads(Exec(s, step), t)
  {
    hide Kept, Reads;
    MoverUnmanaged(s, t, step);
    OthersRead(s, Exec(s, step), t, Mover(s, step));
  }

  lemma StepAside(s: State, t: Task, step: Step)
    requires Elsewhere(s, t, step) && Reads(s, t)
    requires Guarantee(s, step) && s.clock <= Exec(s, step).clock
    ensures Aside(s, Exec(s, step), t, step)
  {
    hide Kept, Enabled, Reads, Dims;
    var r := Exec(s, step);
    AsideReads(s, t, step);
    OthersGate(s, t, step);
    forall u | Blocks(s, u, s.tasks[t].todo) && step != StampFailure(u)
      ensures Blocks(r, u, s.tasks[t].todo) && r.tasks[u] == s.tasks[u]
    {
      BlockStays(s, r, step, u, s.tasks[t].todo);
    }
    forall k | k in s.sessions ensures Dims(s, r, step, k) {
      OthersDim(s, t, step, k);
    }
  }

  lemma OthersCalm(s: State, r: State, t: Task, step: Step, w: nat)
    requires Aside(s, r, t, step) && Calm(s, t, w) && RaisedOk(r, t, w)
    ensures Calm(r, t, w)
  {
    forall k | k in s.tasks[t].todo
      ensures k in r.sessions && r.sessions[k].revision <= w && (GateFree(s) ==> !MayStamp(r, k))
    {
      assert Dims(s, r, step, k);
    }
  }

  lemma OthersStuck(s: State, r: State, t: Task, step: Step)
    requires Aside(s, r, t, step) && Stuck(s, t)
    ensures Stuck(r, t)
  {
    var todo := s.tasks[t].todo;
    var u, v :| StuckBy(s, todo, u, v);
    if step == StampFailure(u) {
      assert StuckBy(r, todo, v, v);
    } else {
      assert StuckBy(r, todo, u, v);
    }
  }

  lemma OthersOutrun(s: State, r: State, t: Task, step: Step, a: SessionId, b: SessionId)
    requires Aside(s, r, t, step) && Outruns(r, t, a, b)
    ensures Outruns(s, t, a, b)
  {
    assert Dims(s, r, step, a) && Dims(s, r, step, b);
    forall u | Blocks(s, u, s.tasks[t].todo) ensures s.tasks[u].id == b {
      assert step != StampFailure(u);
      assert Blocks(r, u, s.tasks[t].todo);
    }
  }

  // --- a stamp while rows are read ----------------------------------------------------------

  /** Only session `k` has revision `c`, published or about to be, and its row is unread. */
  ghost predicate StampedUnread(r: State, t: Task, c: nat, k: SessionId)
    requires Reading(r, t)
  {
    && k !in r.tasks[t].rows && r.clock == c + 1
    && (forall e :: e in r.log && e.revision == c ==> e.id == k)
    && (forall u :: u in r.tasks && u != t && r.tasks[u].HoldsGate() ==> r.tasks[u] == StartFailedSend(k, c))
  }

  /** A stamp of an unread row leaves no row outdated, so the watermark may follow it. */
  lemma LiftFresh(r: State, t: Task, c: nat, k: SessionId)
    requires Reading(r, t) && Reads(r, t) && c > 0 && RaisedOk(r, t, c - 1) && StampedUnread(r, t, c, k)
    ensures Fresh(r, t)
  {
    var pc := r.tasks[t];
    var reader := ListRead(c, pc.todo, pc.rows);
    forall e | e in r.log && e.revision <= c
      ensures Shows(pc.rows, e) && (e.id in r.listed ==> e.id in Covered(reader))
    {
      assert e.revision <= c - 1 || e.id == k;
    }
  }

  lemma AnnounceUnread(s: State, t: Task, u: Task)
    requires Ordered(s) && Reading(s, t) && CanAnnounce(s, u) && u != t && s.tasks[u].id !in s.tasks[t].rows
    ensures Reading(Announced(s, u), t) && StampedUnread(Announced(s, u), t, s.clock, s.tasks[u].id)
  {
    forall e | e in s.log ensures e.revision < s.clock {
      assert EventOk(s, e);
    }
  }

  lemma StampUnread(s: State, t: Task, u: Task)
    requires Ordered(s) && Reading(s, t) && CanStamp(s, u) && u != t && s.tasks[u].id !in s.tasks[t].rows
    ensures Reading(FailureStamped(s, u), t) && StampedUnread(FailureStamped(s, u), t, s.clock, s.tasks[u].id)
  {
    forall e | e in s.log ensures e.revision < s.clock {
      assert EventOk(s, e);
    }
  }

  lemma QuietClock(s: State, step: Step)
    requires Enabled(s, step) && (step.Spawn? || step.Seize? || step.CleanEof?)
    ensures Exec(s, step).clock == s.clock
  {
  }

  lemma OthersClock(s: State, t: Task, step: Step)
    requires Elsewhere(s, t, step)
    ensures step.Announce? || step.StampFailure? || Exec(s, step).clock == s.clock
  {
    hide Moved, Directly, Seized;
    if !step.CleanEof? {
      OtherSteps(s, t, step);
    }
    if step.Move? {
      MoveSilent(s, step.task, step.choice);
    } else if !step.Announce? && !step.StampFailure? {
      QuietClock(s, step);
    }
  }

  lemma KeptOrdered(s: State)
    requires Kept(s)
    ensures Ordered(s)
  {
  }

  lemma StampsUnread(s: State, t: Task, step: Step) returns (k: SessionId)
    requires Elsewhere(s, t, step) && (step.Announce? || step.StampFailure?)
    requires forall k :: StampsRow(s, step, k) ==> k !in s.tasks[t].rows
    ensures Reading(Exec(s, step), t) && StampedUnread(Exec(s, step), t, s.clock, k)
  {
    hide StampedUnread, Kept;
    MoverUnmanaged(s, t, step);
    KeptOrdered(s);
    k := s.tasks[step.task].id;
    assert StampsRow(s, step, k);
    if step.Announce? {
      AnnounceUnread(s, t, step.task);
    } else {
      StampUnread(s, t, step.task);
    }
  }

  lemma OthersFresh(s: State, t: Task, step: Step)
    requires Elsewhere(s, t, step) && Fresh(s, t) && (forall k :: StampsRow(s, step, k) ==> k !in s.tasks[t].rows)
    requires Reading(Exec(s, step), t) && Reads(Exec(s, step), t) && RaisedOk(Exec(s, step), t, s.clock - 1)
    ensures Fresh(Exec(s, step), t)
  {
    hide Reads, RaisedOk, Kept, Exec, Enabled, StampedUnread;
    if step.Announce? || step.StampFailure? {
      var k := StampsUnread(s, t, step);
      LiftFresh(Exec(s, step), t, s.clock, k);
    } else {
      OthersClock(s, t, step);
    }
  }

  lemma BlockerMayStamp(s: State, u: Task, todo: set<SessionId>)
    requires Kept(s) && Blocks(s, u, todo)
    ensures MayStamp(s, s.tasks[u].id)
  {
    assert OutcomeOk(s, s.tasks[u]) && Right(s.tasks[u], s.tasks[u].id);
    assert FailsStart(s.tasks[u], s.tasks[u].id, s.sessions[s.tasks[u].id].state);
  }

  /** When a session whose row is read can announce, either nothing unread can, or the list is stuck. */
  lemma NobodyLeft(s: State, t: Task, k: SessionId)
    requires Kept(s) && Reading(s, t) && Reads(s, t) && NothingOutruns(s, t) && GateFree(s)
    requires k in s.tasks[t].rows && MayAnnounce(s, k)
    ensures Stuck(s, t) || forall b :: b in s.tasks[t].todo ==> !MayStamp(s, b)
  {
    hide Kept;
    var todo := s.tasks[t].todo;
    if b :| b in todo && MayStamp(s, b) {
      assert !Outruns(s, t, k, b);
      var u :| Blocks(s, u, todo) && s.tasks[u].id != b;
      BlockerMayStamp(s, u, todo);
      assert !Outruns(s, t, k, s.tasks[u].id);
      var v :| Blocks(s, v, todo) && s.tasks[v].id != s.tasks[u].id;
      assert StuckBy(s, todo, u, v);
    }
  }

  /** The first stamp of a row already read ends the search for a watermark. */
  lemma OutdatedCalm(s: State, r: State, t: Task, step: Step, k: SessionId)
    requires Aside(s, r, t, step) && Ordered(s) && Fresh(s, t) && StampsRow(s, step, k) && k in s.tasks[t].rows
    requires RaisedOk(r, t, s.clock - 1)
    requires step.StampFailure? || forall b :: b in s.tasks[t].todo ==> !MayStamp(s, b)
    ensures Calm(r, t, s.clock - 1)
  {
    forall b | b in s.tasks[t].todo
      ensures b in r.sessions && r.sessions[b].revision <= s.clock - 1 && (!step.StampFailure? ==> !MayStamp(r, b))
    {
      assert Dims(s, r, step, b);
    }
  }

  lemma FreshUnmissable(s: State, t: Task, step: Step)
    requires Elsewhere(s, t, step) && Aside(s, Exec(s, step), t, step) && RaisedOk(Exec(s, step), t, s.clock - 1)
    requires Fresh(s, t) && NothingOutruns(s, t) && !Stuck(s, t)
    ensures Sound(Exec(s, step), t)
  {
    hide Exec, Reads;
    var r := Exec(s, step);
    if k :| StampsRow(s, step, k) && k in s.tasks[t].rows {
      if step.Announce? {
        StampersMayStamp(s, step, k);
        StampNeedsGate(s, step, k);
        NobodyLeft(s, t, k);
      }
      OutdatedCalm(s, r, t, step, k);
    } else {
      OthersFresh(s, t, step);
      forall a, b ensures !Outruns(r, t, a, b) {
        if Outruns(r, t, a, b) {
          OthersOutrun(s, r, t, step, a, b);
        }
      }
    }
  }

  lemma OthersAside(s: State, t: Task, step: Step)
    requires Elsewhere(s, t, step) && Reads(s, t)
    ensures Aside(s, Exec(s, step), t, step)
  {
    StepKept(s, step);
    StepAside(s, t, step);
  }

  lemma OthersLift(s: State, t: Task, step: Step, w: nat)
    requires Elsewhere(s, t, step) && RaisedOk(s, t, w)
    ensures RaisedOk(Exec(s, step), t, w)
  {
    StepKept(s, step);
    OthersRaised(s, step, t, w);
  }

  lemma OthersSound(s: State, t: Task, step: Step)
    requires Elsewhere(s, t, step) && Reads(s, t) && Sound(s, t)
    ensures Reading(Exec(s, step), t) && Sound(Exec(s, step), t)
  {
    hide Kept, Exec, Enabled, RaisedOk, NothingOutruns, Stuck, Dims;
    var r := Exec(s, step);
    OthersAside(s, t, step);
    if Stuck(s, t) {
      OthersStuck(s, r, t, step);
    } else if Fresh(s, t) && NothingOutruns(s, t) {
      OthersLift(s, t, step, s.clock - 1);
      FreshUnmissable(s, t, step);
    } else {
      var w :| Calm(s, t, w);
      OthersLift(s, t, step, w);
      OthersCalm(s, r, t, step, w);
    }
  }

  lemma OthersUnmissable(s: State, t: Task, step: Step)
    requires Elsewhere(s, t, step) && Unmissable(s, t)
    ensures Unmissable(Exec(s, step), t)
  {
    OthersAside(s, t, step);
    OthersSound(s, t, step);
  }

  lemma ListedRests(s: State, t: Task, step: Step)
    requires t in s.tasks && s.tasks[t].Listed? && Enabled(s, step)
    ensures step.CleanEof? || step.task != t
  {
  }

  /** Once finished, a list stays covered whatever is published. */
  lemma ListedUnmissable(s: State, t: Task, step: Step)
    requires Kept(s) && Unmissable(s, t) && s.tasks[t].Listed? && Enabled(s, step)
    ensures Unmissable(Exec(s, step), t)
  {
    var w :| Covers(s, t, w);
    StepKept(s, step);
    ListedRests(s, t, step);
    OthersRaised(s, step, t, w);
    assert Covers(Exec(s, step), t, w);
  }

  lemma StepUnmissable(s: State, t: Task, step: Step)
    requires Kept(s) && Unmissable(s, t) && Enabled(s, step)
    ensures Unmissable(Exec(s, step), t)
  {
    if s.tasks[t].Listed? {
      ListedUnmissable(s, t, step);
    } else if step.CleanEof? || step.task != t {
      OthersUnmissable(s, t, step);
    } else {
      OwnSteps(s, t, step);
      if step.Inspect? {
        ReadUnmissable(s, t, step.id);
      } else {
        FinishUnmissable(s, t);
      }
    }
  }

  lemma {:induction false} PathUnmissable(states: seq<State>, steps: seq<Step>, t: Task, i: nat)
    requires |states| == |steps| + 1 && IsPath(states, steps, states[0], states[|steps|]) && i < |states|
    requires Kept(states[0]) && Unmissable(states[0], t)
    ensures Kept(states[i]) && Unmissable(states[i], t)
  {
    hide Kept, Exec;
    if i == 0 {
    } else {
      PathUnmissable(states, steps, t, i - 1);
      StepKept(states[i - 1], steps[i - 1]);
      StepUnmissable(states[i - 1], t, steps[i - 1]);
    }
  }

  /** Where no session can outrun another, every continuation's raised revision covers every event. */
  lemma RaisedCovers(s: State, r: State, t: Task)
    requires Kept(s) && Begun(s, t) && NothingOutruns(s, t) && Reaches(s, r)
    ensures !Misses(r, t)
  {
    hide Kept, Exec, Enabled;
    var states, steps :| IsPath(states, steps, s, r);
    BeginFresh(s, t);
    PathUnmissable(states, steps, t, |steps|);
    if t in r.tasks && r.tasks[t].Listed? {
      var w :| Covers(r, t, w);
      CoversAll(r, t, w);
    }
  }
}
