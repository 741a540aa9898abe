/**
 * The lock-free connection budgets of the port-forward data path. Every atomic read-modify-write is one
 * step; accept loops and pumps of all sessions interleave freely.
 */
module ConnectionBudget {
  import opened Sets

  const MAX_TOTAL_CONNECTIONS: nat := 32
  const MAX_SESSION_CONNECTIONS: nat := 8

  type SessionId = nat
  type Task = nat

  /** How a pump ends. */
  datatype Exit = Unresolved | Cancelled | OpenFailed | CopyCancelled | CopyClean | CopyFailed

  datatype Pc =
    // one accept loop per session
    | Accepting
    | OverTotal               // the total was full: give the total back
    | Reserved                // holds the total, tries the session's budget
    | OverSession             // the session was full: give both back
    | OverSessionTotal        // the session's is back, the total is not
    | Admitted                // holds both, hands them to a pump
    | Closed
    // one pump per admitted connection
    | Opening
    | Copying
    | Releasing(exit: Exit)
    | ReleasingTotal(exit: Exit)
    | Released(exit: Exit)
    | Done(exit: Exit)
  {
    /** Has added to the total and not yet subtracted. */
    predicate HoldsTotal() {
      OverTotal? || Reserved? || OverSession? || OverSessionTotal? || Admitted? || InPump()
    }

    /** Has added to the session's count and not yet subtracted. */
    predicate HoldsSession() {
      OverSession? || Admitted? || Opening? || Copying? || Releasing?
    }

    /** A pump that has not given everything back. */
    predicate InPump() { Opening? || Copying? || Releasing? || ReleasingTotal? }

    /** Passed the bound check on the total. */
    predicate GrantedTotal() { HoldsTotal() && !OverTotal? }

    /** Passed the bound check on the session. */
    predicate GrantedSession() { HoldsSession() && !OverSession? }

    predicate IsPump() { InPump() || Released? || Done? }
  }

  datatype Thread = Thread(session: SessionId, pc: Pc)

  datatype State = State(total: int, active: map<SessionId, int>, threads: map<Task, Thread>)

  predicate Init(s: State) { s.total == 0 && s.active == map[] && s.threads == map[] }

  datatype Step =
    | Listen(task: Task, session: SessionId)   // a session became Active
    | CloseLoop(task: Task)                    // cancelled, or accept failed
    | AddTotal(task: Task)
    | AddSession(task: Task)
    | SubSession(task: Task)
    | SubTotal(task: Task)
    | Hand(task: Task, pump: Task)
    | Open(task: Task)
    | End(task: Task, exit: Exit)
    | Settle(task: Task)                       // report the outcome to the session

  function PcOf(s: State, t: Task): Pc
    requires t in s.threads
  {
    s.threads[t].pc
  }

  predicate Enabled(s: State, step: Step) {
    if step.Listen? then step.task !in s.threads && step.session !in s.active
    else
      && step.task in s.threads && s.threads[step.task].session in s.active
      && var pc := PcOf(s, step.task);
         match step
         case CloseLoop(_) => pc.Accepting?
         case AddTotal(_) => pc.Accepting?
         case AddSession(_) => pc.Reserved?
         case SubSession(_) => pc.OverSession? || pc.Releasing?
         case SubTotal(_) => pc.OverTotal? || pc.OverSessionTotal? || pc.ReleasingTotal?
         case Hand(_, pump) => pc.Admitted? && pump !in s.threads
         case Open(_) => pc.Opening?
         case End(_, exit) => if pc.Opening? then exit.Unresolved? || exit.Cancelled? || exit.OpenFailed?
                              else pc.Copying? && (exit.CopyCancelled? || exit.CopyClean? || exit.CopyFailed?)
         case Settle(_) => pc.Released?
  }

  function To(s: State, t: Task, pc: Pc): State
    requires t in s.threads
  {
    s.(threads := s.threads[t := s.threads[t].(pc := pc)])
  }

  function Exec(s: State, step: Step): State
    requires Enabled(s, step)
  {
    match step
    case Listen(t, session) =>
      s.(active := s.active[session := 0], threads := s.threads[t := Thread(session, Accepting)])
    case CloseLoop(t) => To(s, t, Closed)
    case AddTotal(t) =>
      To(s.(total := s.total + 1), t, if s.total >= MAX_TOTAL_CONNECTIONS then OverTotal else Reserved)
    case AddSession(t) =>
      var id := s.threads[t].session;
      To(s.(active := s.active[id := s.active[id] + 1]), t,
         if s.active[id] >= MAX_SESSION_CONNECTIONS then OverSession else Admitted)
    case SubSession(t) =>
      var id := s.threads[t].session;
      var pc := PcOf(s, t);
      To(s.(active := s.active[id := s.active[id] - 1]), t,
         if pc.OverSession? then OverSessionTotal else ReleasingTotal(pc.exit))
    case SubTotal(t) =>
      var pc := PcOf(s, t);
      To(s.(total := s.total - 1), t, if pc.ReleasingTotal? then Released(pc.exit) else Accepting)
    case Hand(t, pump) =>
      To(s.(threads := s.threads[pump := Thread(s.threads[t].session, Opening)]), t, Accepting)
    case Open(t) => To(s, t, Copying)
    case End(t, exit) => To(s, t, Releasing(exit))
    case Settle(t) => To(s, t, Done(PcOf(s, t).exit))
  }

  ghost predicate IsRun(states: seq<State>, steps: seq<Step>) {
    && |states| == |steps| + 1 && Init(states[0])
    && forall i :: 0 <= i < |steps| ==> Enabled(states[i], steps[i]) && states[i + 1] == Exec(states[i], steps[i])
  }

  // --- who holds what -----------------------------------------------------------------------

  function TotalHolders(s: State): set<Task> {
    set t | t in s.threads && PcOf(s, t).HoldsTotal()
  }

  function SessionHolders(s: State, id: SessionId): set<Task> {
    set t | t in s.threads && s.threads[t].session == id && PcOf(s, t).HoldsSession()
  }

  function GrantedTotals(s: State): set<Task> {
    set t | t in s.threads && PcOf(s, t).GrantedTotal()
  }

  function GrantedSessions(s: State, id: SessionId): set<Task> {
    set t | t in s.threads && s.threads[t].session == id && PcOf(s, t).GrantedSession()
  }

  /** Connections past both checks whose slots are not back yet. */
  function Admissions(s: State): set<Task> {
    set t | t in s.threads && (PcOf(s, t).Admitted? || PcOf(s, t).InPump())
  }

  ghost predicate TotalOk(s: State) {
    s.total == |TotalHolders(s)| && |GrantedTotals(s)| <= MAX_TOTAL_CONNECTIONS
  }

  ghost predicate SessionOk(s: State, id: SessionId)
    requires id in s.active
  {
    s.active[id] == |SessionHolders(s, id)| && |GrantedSessions(s, id)| <= MAX_SESSION_CONNECTIONS
  }

  ghost predicate Placed(s: State) {
    forall t :: t in s.threads ==> s.threads[t].session in s.active
  }

  ghost predicate Inv(s: State) {
    TotalOk(s) && Placed(s) && forall id :: id in s.active ==> SessionOk(s, id)
  }

  function Bit(b: bool): int { if b then 1 else 0 }

  lemma OneChanged(a: set<Task>, b: set<Task>, t: Task)
    requires forall u :: u != t ==> (u in a <==> u in b)
    ensures |b| == |a| - Bit(t in a) + Bit(t in b)
  {
    assert a - {t} == b - {t};
    assert |a - {t}| == |a| - Bit(t in a);
    assert |b - {t}| == |b| - Bit(t in b);
  }

  /** The two states differ in thread `t` alone; the counts differ by what `t` holds. */
  lemma Touched(s: State, r: State, t: Task)
    requires t in r.threads && r.threads == s.threads[t := r.threads[t]]
    requires t in s.threads ==> r.threads[t].session == s.threads[t].session
    ensures var before, after := t in s.threads, PcOf(r, t);
            && |TotalHolders(r)| == |TotalHolders(s)|
                 - Bit(before && PcOf(s, t).HoldsTotal()) + Bit(after.HoldsTotal())
            && |GrantedTotals(r)| == |GrantedTotals(s)|
                 - Bit(before && PcOf(s, t).GrantedTotal()) + Bit(after.GrantedTotal())
  {
    OneChanged(TotalHolders(s), TotalHolders(r), t);
    OneChanged(GrantedTotals(s), GrantedTotals(r), t);
  }

  lemma TouchedSession(s: State, r: State, t: Task, id: SessionId)
    requires t in r.threads && r.threads == s.threads[t := r.threads[t]]
    requires t in s.threads ==> r.threads[t].session == s.threads[t].session
    ensures var own, before, after := r.threads[t].session == id, t in s.threads, PcOf(r, t);
            && |SessionHolders(r, id)| == |SessionHolders(s, id)|
                 - Bit(own && before && PcOf(s, t).HoldsSession()) + Bit(own && after.HoldsSession())
            && |GrantedSessions(r, id)| == |GrantedSessions(s, id)|
                 - Bit(own && before && PcOf(s, t).GrantedSession()) + Bit(own && after.GrantedSession())
  {
    OneChanged(SessionHolders(s, id), SessionHolders(r, id), t);
    OneChanged(GrantedSessions(s, id), GrantedSessions(r, id), t);
  }

  lemma KeepsTotal(s: State, step: Step)
    requires TotalOk(s) && Enabled(s, step) && !step.Hand?
    ensures TotalOk(Exec(s, step))
  {
    hide TotalHolders, GrantedTotals;
    Touched(s, Exec(s, step), step.task);
    GrantedWithin(s);
  }

  lemma GrantedWithin(s: State)
    ensures |GrantedTotals(s)| <= |TotalHolders(s)|
  {
    SubsetSize(GrantedTotals(s), TotalHolders(s));
  }

  lemma KeepsSession(s: State, step: Step, id: SessionId)
    requires Enabled(s, step) && !step.Hand? && id in s.active && SessionOk(s, id) && Placed(s)
    ensures id in Exec(s, step).active && SessionOk(Exec(s, step), id)
  {
    hide SessionHolders, GrantedSessions;
    TouchedSession(s, Exec(s, step), step.task, id);
    SessionWithin(s, id);
  }

  lemma SessionWithin(s: State, id: SessionId)
    ensures |GrantedSessions(s, id)| <= |SessionHolders(s, id)|
  {
    SubsetSize(GrantedSessions(s, id), SessionHolders(s, id));
  }

  lemma OpensSession(s: State, step: Step)
    requires Placed(s) && Enabled(s, step) && step.Listen?
    ensures SessionOk(Exec(s, step), step.session)
  {
    TouchedSession(s, Exec(s, step), step.task, step.session);
    assert SessionHolders(s, step.session) == {} && GrantedSessions(s, step.session) == {};
  }

  lemma HandSession(s: State, t: Task, pump: Task, id: SessionId)
    requires Enabled(s, Hand(t, pump)) && id in s.active && SessionOk(s, id)
    ensures SessionOk(Exec(s, Hand(t, pump)), id)
  {
    hide SessionHolders, GrantedSessions;
    var mid := To(s, t, Accepting);
    TouchedSession(s, mid, t, id);
    TouchedSession(mid, Exec(s, Hand(t, pump)), pump, id);
  }

  lemma HandTotal(s: State, t: Task, pump: Task)
    requires TotalOk(s) && Enabled(s, Hand(t, pump))
    ensures TotalOk(Exec(s, Hand(t, pump)))
  {
    hide TotalHolders, GrantedTotals;
    var mid := To(s, t, Accepting);
    Touched(s, mid, t);
    Touched(mid, Exec(s, Hand(t, pump)), pump);
  }

  /** Whatever one atomic operation does, the counters equal the reservations held, within the bounds. */
  lemma StepInv(s: State, step: Step)
    requires Inv(s) && Enabled(s, step)
    ensures Inv(Exec(s, step))
  {
    hide TotalOk, SessionOk;
    var r := Exec(s, step);
    TotalAfter(s, step);
    forall id | id in r.active ensures SessionOk(r, id) {
      SessionAfter(s, step, id);
    }
    ThreadsPlaced(s, step);
  }

  lemma ThreadsPlaced(s: State, step: Step)
    requires Enabled(s, step) && Placed(s)
    ensures Placed(Exec(s, step))
  {
  }

  lemma TotalAfter(s: State, step: Step)
    requires TotalOk(s) && Enabled(s, step)
    ensures TotalOk(Exec(s, step))
  {
    hide TotalOk;
    if step.Hand? {
      HandTotal(s, step.task, step.pump);
    } else {
      KeepsTotal(s, step);
    }
  }

  lemma SessionAfter(s: State, step: Step, id: SessionId)
    requires Inv(s) && Enabled(s, step) && id in Exec(s, step).active
    ensures SessionOk(Exec(s, step), id)
  {
    hide TotalOk, SessionOk;
    if step.Hand? {
      HandSession(s, step.task, step.pump, id);
    } else if id in s.active {
      KeepsSession(s, step, id);
    } else {
      OpensSession(s, step);
    }
  }

  lemma {:induction false} RunInv(states: seq<State>, steps: seq<Step>, i: nat)
    requires IsRun(states, steps) && i < |states|
    ensures Inv(states[i])
  {
    if i == 0 {
      assert TotalHolders(states[0]) == {} && GrantedTotals(states[0]) == {};
    } else {
      RunInv(states, steps, i - 1);
      StepInv(states[i - 1], steps[i - 1]);
    }
  }

  /** Counters never underflow, admitted connections stay within both budgets, and only refusals overshoot. */
  lemma Budgets(states: seq<State>, steps: seq<Step>, i: nat)
    requires IsRun(states, steps) && i < |states|
    ensures var s := states[i];
            && |Admissions(s)| <= MAX_TOTAL_CONNECTIONS
            && s.total == |GrantedTotals(s)| + |TotalHolders(s) - GrantedTotals(s)|
            && (forall t :: t in TotalHolders(s) - GrantedTotals(s) ==> PcOf(s, t).OverTotal?)
            && (forall id :: id in s.active ==> |GrantedSessions(s, id)| <= MAX_SESSION_CONNECTIONS)
            && (forall id :: id in s.active ==> s.active[id] == |SessionHolders(s, id)|)
  {
    RunInv(states, steps, i);
    var s := states[i];
    SubsetSize(Admissions(s), GrantedTotals(s));
    assert TotalHolders(s) == GrantedTotals(s) + (TotalHolders(s) - GrantedTotals(s));
  }

  /** Once every thread is back at rest, both kinds of counter are back at zero. */
  lemma Quiescence(states: seq<State>, steps: seq<Step>, i: nat)
    requires IsRun(states, steps) && i < |states|
    requires forall t :: t in states[i].threads ==>
               var pc := PcOf(states[i], t); pc.Accepting? || pc.Closed? || pc.Released? || pc.Done?
    ensures states[i].total == 0 && forall id :: id in states[i].active ==> states[i].active[id] == 0
  {
    RunInv(states, steps, i);
    assert TotalHolders(states[i]) == {};
    forall id | id in states[i].active ensures states[i].active[id] == 0 {
      assert SessionHolders(states[i], id) == {};
    }
  }

  // --- one release per pump -----------------------------------------------------------------

  /** How often `step` is taken among steps `i` to `j`. */
  function Taken(steps: seq<Step>, step: Step, i: nat, j: nat): nat
    requires i <= j <= |steps|
    decreases j
  {
    if i == j then 0 else Taken(steps, step, i, j - 1) + (if steps[j - 1] == step then 1 else 0)
  }

  predicate ReleasedSession(pc: Pc) { pc.ReleasingTotal? || pc.Released? || pc.Done? }

  predicate ReleasedTotal(pc: Pc) { pc.Released? || pc.Done? }

  lemma PumpStep(s: State, step: Step, p: Task)
    requires Enabled(s, step) && p in s.threads && PcOf(s, p).IsPump()
    ensures p in Exec(s, step).threads && PcOf(Exec(s, step), p).IsPump()
    ensures var was, now := PcOf(s, p), PcOf(Exec(s, step), p);
            && Bit(ReleasedSession(now)) == Bit(ReleasedSession(was)) + Bit(step == SubSession(p))
            && Bit(ReleasedTotal(now)) == Bit(ReleasedTotal(was)) + Bit(step == SubTotal(p))
  {
  }

  /** On whatever exit, a pump has given back each budget once if it is past doing so, and not yet otherwise. */
  lemma {:induction false} ReleasesOnce(states: seq<State>, steps: seq<Step>, i: nat, j: nat, p: Task)
    requires IsRun(states, steps) && i < j < |states| && steps[i].Hand? && steps[i].pump == p
    ensures p in states[j].threads && PcOf(states[j], p).IsPump()
    ensures Taken(steps, SubSession(p), i, j) == Bit(ReleasedSession(PcOf(states[j], p)))
    ensures Taken(steps, SubTotal(p), i, j) == Bit(ReleasedTotal(PcOf(states[j], p)))
    decreases j
  {
    if j > i + 1 {
      ReleasesOnce(states, steps, i, j - 1, p);
      PumpStep(states[j - 1], steps[j - 1], p);
    } else {
      assert Taken(steps, SubSession(p), i, i) == 0 && Taken(steps, SubTotal(p), i, i) == 0;
    }
  }
}
