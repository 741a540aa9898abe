/**
 * Control-socket admission and the drain that waits for it. The admission object and its guards are
 * classes; the interleaving of handlers, session tasks, the startup task and the shutdown coordinator is a
 * state machine over the same transitions.
 */
module Lifecycle {
  import opened Wrappers

  datatype ReadinessState = Starting | Ready | Draining

  datatype AdmissionState = AdmissionState(closed: bool, nextId: nat, live: set<nat>)

  const OPEN_BARRIER := AdmissionState(false, 0, {})

  predicate Accepts(a: AdmissionState, readiness: ReadinessState) {
    !a.closed && readiness == Ready
  }

  function Registered(a: AdmissionState): AdmissionState {
    a.(nextId := a.nextId + 1, live := a.live + {a.nextId})
  }

  function Retired(a: AdmissionState, id: nat): AdmissionState {
    a.(live := a.live - {id})
  }

  class Readiness {
    var state: ReadinessState

    constructor ()
      ensures state == Starting
    {
      state := Starting;
    }
  }

  class Admission {
    var closed: bool
    var nextId: nat
    var live: set<nat>

    function Abs(): AdmissionState
      reads this
    {
      AdmissionState(closed, nextId, live)
    }

    /** Ids are handed out once, so the next one is not in use. */
    ghost predicate Valid()
      reads this
    {
      forall id :: id in live ==> id < nextId
    }

    constructor ()
      ensures Valid() && Abs() == OPEN_BARRIER
    {
      closed, nextId, live := false, 0, {};
    }

    method TryRegister(readiness: Readiness) returns (guard: Option<Guard>)
      requires Valid()
      modifies this
      ensures Valid() && (guard.Some? <==> Accepts(old(Abs()), readiness.state))
      ensures guard.Some? ==> fresh(guard.value) && guard.value.Owns(this, old(nextId)) && old(nextId) !in old(live)
      ensures Abs() == if guard.Some? then Registered(old(Abs())) else old(Abs())
    {
      if closed || readiness.state != Ready { return None; }
      var id := nextId;
      nextId := nextId + 1;
      live := live + {id};
      var g := new Guard(Some(id), this);
      return Some(g);
    }

    method CloseBarrier(readiness: Readiness)
      requires Valid()
      modifies this, readiness
      ensures Valid() && Abs() == old(Abs()).(closed := true) && readiness.state == Draining
    {
      readiness.state := Draining;
      closed := true;
    }

    method HasLive() returns (any: bool)
      ensures any <==> exists id :: id in live
    {
      any := live != {};
    }

    method Retire(id: nat)
      requires Valid()
      modifies this
      ensures Valid() && Abs() == Retired(old(Abs()), id)
    {
      live := live - {id};
    }
  }

  /** An admission or a running guard: both retire the id they still hold when dropped. */
  class Guard {
    var id: Option<nat>
    const admission: Admission

    ghost predicate Owns(a: Admission, n: nat)
      reads this
    {
      admission == a && id == Some(n)
    }

    constructor (id: Option<nat>, admission: Admission)
      ensures this.id == id && this.admission == admission
    {
      this.id, this.admission := id, admission;
    }

    /** Hand the id to the session task; this guard keeps nothing to retire. */
    method ConfirmRunning() returns (running: Guard)
      modifies this
      ensures fresh(running) && running.admission == admission && running.id == old(id) && id.None?
    {
      var taken := id;
      id := None;
      running := new Guard(taken, admission);
    }

    method Drop()
      requires admission.Valid()
      modifies this, admission
      ensures admission.Valid() && id.None?
      ensures admission.Abs() == if old(id).Some? then Retired(old(admission.Abs()), old(id).value)
                                 else old(admission.Abs())
    {
      var taken := id;
      id := None;
      if taken.Some? {
        admission.Retire(taken.value);
      }
    }
  }

  // --- interleavings ------------------------------------------------------------------------

  type GuardName = nat

  /** A guard value, and whether the tracker counts the task that holds it. */
  datatype GuardState = GuardState(running: bool, id: Option<nat>, tracked: bool)

  /** The coordinator: before shutdown, polling, between its two observations, and its verdict. */
  datatype Coordinator = Serving | Polling | SawNoTasks | Drained | TimedOut

  datatype State = State(
    admission: AdmissionState, readiness: ReadinessState, guards: map<GuardName, GuardState>,
    coordinator: Coordinator, retired: seq<nat>)

  predicate Init(s: State) {
    s == State(OPEN_BARRIER, Starting, map[], Serving, [])
  }

  datatype Step =
    | PublishReady                                  // at startup, or by the delayed startup task at any time
    | Register(guard: GuardName)
    | Confirm(guard: GuardName, running: GuardName)
    | Track(guard: GuardName)                       // the tracker spawns the session task
    | DropGuard(guard: GuardName)
    | Untrack(guard: GuardName)                     // the tracker's token goes after the task's guard
    | CloseBarrier
    | ObserveTasks
    | ObserveLive
    | Expire

  predicate NoTasks(s: State) {
    forall g :: g in s.guards ==> !s.guards[g].tracked
  }

  predicate Enabled(s: State, step: Step) {
    match step
    case PublishReady => true
    case Register(g) => g !in s.guards
    case Confirm(g, h) => g in s.guards && !s.guards[g].running && h !in s.guards
    case Track(g) => g in s.guards && s.guards[g].running && !s.guards[g].tracked && s.guards[g].id.Some?
    case DropGuard(g) => g in s.guards
    case Untrack(g) => g in s.guards && s.guards[g].tracked && s.guards[g].id.None?
    case CloseBarrier => s.coordinator.Serving?
    case ObserveTasks => s.coordinator.Polling?
    case ObserveLive => s.coordinator.SawNoTasks?
    case Expire => s.coordinator.Polling? || s.coordinator.SawNoTasks?
  }

  function Dropped(s: State, g: GuardName): State
    requires g in s.guards
  {
    var id := s.guards[g].id;
    if id.None? then s
    else s.(guards := s.guards[g := s.guards[g].(id := None)],
            admission := Retired(s.admission, id.value), retired := s.retired + [id.value])
  }

  function Exec(s: State, step: Step): State
    requires Enabled(s, step)
  {
    match step
    case PublishReady => s.(readiness := Ready)
    case Register(g) =>
      if Accepts(s.admission, s.readiness) then
        s.(guards := s.guards[g := GuardState(false, Some(s.admission.nextId), false)],
           admission := Registered(s.admission))
      else s
    case Confirm(g, h) =>
      s.(guards := s.guards[g := s.guards[g].(id := None)][h := GuardState(true, s.guards[g].id, false)])
    case Track(g) => s.(guards := s.guards[g := s.guards[g].(tracked := true)])
    case DropGuard(g) => Dropped(s, g)
    case Untrack(g) => s.(guards := s.guards[g := s.guards[g].(tracked := false)])
    case CloseBarrier => s.(readiness := Draining, admission := s.admission.(closed := true), coordinator := Polling)
    case ObserveTasks => s.(coordinator := if NoTasks(s) then SawNoTasks else Polling)
    case ObserveLive => s.(coordinator := if s.admission.live == {} then Drained else Polling)
    case Expire => s.(coordinator := TimedOut)
  }

  ghost predicate IsRun(states: seq<State>, steps: seq<Step>) {
    && |states| == |steps| + 1 && Init(states[0])
    && forall i :: 0 <= i < |steps| ==> Enabled(states[i], steps[i]) && states[i + 1] == Exec(states[i], steps[i])
  }

  predicate Holds(s: State, g: GuardName, id: nat) {
    g in s.guards && s.guards[g].id == Some(id)
  }

  /** Every live id has exactly one guard, and a guard's id is live. */
  ghost predicate Ownership(s: State) {
    && (forall id :: id in s.admission.live ==> exists g :: Holds(s, g, id))
    && (forall g, id :: Holds(s, g, id) ==> id in s.admission.live)
    && (forall g, h, id :: Holds(s, g, id) && Holds(s, h, id) ==> g == h)
  }

  /** Every id handed out is live or was retired, not both, and retired once. */
  ghost predicate RetiredOnce(s: State) {
    && (forall id :: id in s.admission.live ==> id < s.admission.nextId && id !in s.retired)
    && (forall id :: id in s.retired ==> id < s.admission.nextId)
    && (forall id :: 0 <= id < s.admission.nextId ==> id in s.admission.live || id in s.retired)
    && (forall i, j :: 0 <= i < j < |s.retired| ==> s.retired[i] != s.retired[j])
  }

  /** The barrier closes before the drain polls, and success is for good. */
  predicate DrainOk(s: State) {
    && (!s.coordinator.Serving? ==> s.admission.closed)
    && (s.coordinator.Drained? ==> s.admission.live == {})
  }

  ghost predicate Inv(s: State) {
    Ownership(s) && RetiredOnce(s) && DrainOk(s)
  }

  /** Where a guard's id comes from: it had it, it was just registered, or a guard confirmed into it. */
  lemma HolderOrigin(s: State, step: Step, g: GuardName, id: nat)
    requires Enabled(s, step) && Holds(Exec(s, step), g, id)
    ensures || (Holds(s, g, id) && !((step.Confirm? || step.DropGuard?) && g == step.guard))
            || (step.Register? && g == step.guard && id == s.admission.nextId && Accepts(s.admission, s.readiness))
            || (step.Confirm? && g == step.running && Holds(s, step.guard, id))
  {
  }

  lemma HolderStays(s: State, step: Step, g: GuardName, id: nat)
    requires Enabled(s, step) && Holds(s, g, id)
    ensures if step.DropGuard? && step.guard == g then id !in Exec(s, step).admission.live
            else if step.Confirm? && step.guard == g then Holds(Exec(s, step), step.running, id)
            else Holds(Exec(s, step), g, id)
  {
  }

  lemma StepOwnership(s: State, step: Step)
    requires Ownership(s) && RetiredOnce(s) && Enabled(s, step)
    ensures Ownership(Exec(s, step))
  {
    var r := Exec(s, step);
    forall id | id in r.admission.live ensures exists g :: Holds(r, g, id) {
      if id in s.admission.live {
        var g :| Holds(s, g, id);
        HolderStays(s, step, g, id);
      } else {
        assert Holds(r, step.guard, id);
      }
    }
    forall g, id | Holds(r, g, id) ensures id in r.admission.live {
      HolderOrigin(s, step, g, id);
      if step.DropGuard? && Holds(s, step.guard, id) {
        assert g == step.guard;
      }
    }
    forall g, h, id | Holds(r, g, id) && Holds(r, h, id) ensures g == h {
      HolderOrigin(s, step, g, id);
      HolderOrigin(s, step, h, id);
    }
  }

  lemma StepRetired(s: State, step: Step)
    requires Ownership(s) && RetiredOnce(s) && Enabled(s, step)
    ensures RetiredOnce(Exec(s, step))
  {
    if step.DropGuard? && s.guards[step.guard].id.Some? {
      assert Holds(s, step.guard, s.guards[step.guard].id.value);
    }
  }

  lemma StepInv(s: State, step: Step)
    requires Inv(s) && Enabled(s, step)
    ensures Inv(Exec(s, step))
  {
    StepOwnership(s, step);
    StepRetired(s, step);
  }

  lemma {:induction false} RunInv(states: seq<State>, steps: seq<Step>, i: nat)
    requires IsRun(states, steps) && i < |states|
    ensures Inv(states[i])
  {
    if i == 0 {
    } else {
      RunInv(states, steps, i - 1);
      StepInv(states[i - 1], steps[i - 1]);
    }
  }

  /** However upgrades are confirmed and dropped, each id has one owner while live and is retired once. */
  lemma OneOwnerOneRetirement(states: seq<State>, steps: seq<Step>, i: nat, id: nat)
    requires IsRun(states, steps) && i < |states|
    ensures var s := states[i];
            && (id in s.admission.live <==> exists g :: Holds(s, g, id))
            && (forall g, h :: Holds(s, g, id) && Holds(s, h, id) ==> g == h)
            && (forall a, b :: 0 <= a < b < |s.retired| && s.retired[a] == id ==> s.retired[b] != id)
            && (id < s.admission.nextId ==> (id in s.admission.live <==> id !in s.retired))
  {
    RunInv(states, steps, i);
  }

  /** After the barrier closes the live set only shrinks, whenever the startup task publishes Ready. */
  lemma {:induction false} ClosedOnlyShrinks(states: seq<State>, steps: seq<Step>, i: nat, j: nat)
    requires IsRun(states, steps) && i <= j < |states| && states[i].admission.closed
    ensures states[j].admission.closed && states[j].admission.live <= states[i].admission.live
    decreases j
  {
    if i == j {
    } else {
      ClosedOnlyShrinks(states, steps, i, j - 1);
    }
  }

  lemma {:induction false} VerdictStays(states: seq<State>, steps: seq<Step>, i: nat, j: nat)
    requires IsRun(states, steps) && i <= j < |states| && states[i].coordinator.Drained?
    ensures states[j].coordinator.Drained?
    decreases j
  {
    if i == j {
    } else {
      VerdictStays(states, steps, i, j - 1);
    }
  }

  /** A drain that reports success: no accepted upgrade is pending or running, then or ever after. */
  lemma DrainSound(states: seq<State>, steps: seq<Step>, i: nat, j: nat)
    requires IsRun(states, steps) && i <= j < |states| && states[i].coordinator.Drained?
    ensures states[j].admission.live == {}
    ensures forall g :: g in states[j].guards ==> states[j].guards[g].id.None?
  {
    VerdictStays(states, steps, i, j);
    RunInv(states, steps, j);
    forall g | g in states[j].guards ensures states[j].guards[g].id.None? {
      assert states[j].guards[g].id.Some? ==> Holds(states[j], g, states[j].guards[g].id.value);
    }
  }

  /** The readiness flag alone would not do: a late startup task makes it Ready again behind the barrier. */
  lemma LateReadyIsRefused(s: State, g: GuardName)
    requires s.coordinator.Serving? && g !in s.guards
    ensures var closing := Exec(s, CloseBarrier);
            var late := Exec(closing, PublishReady);
            late.readiness == Ready && Exec(late, Register(g)) == late
  {
  }
}
