/** Keyed submissions run at most once while their key is retained, and operations finish. */
module Submissions {
  import opened Wrappers
  import opened Identity
  import opened BoundedFifo
  import opened Store
  import opened StoreInvariants

  /** A step that opens a new operation. */
  predicate OpensAny(s: State, step: Step) {
    step.DoSubmit? && Opens(s, step.key, step.command)
  }

  // --- what becomes of a retained key -------------------------------------------------------

  lemma OpenedKeys(s: State, key: string, c: Command)
    requires WellFormed(s) && Opens(s, key, c)
    ensures var t := Opened(s, key, c);
            && (t.idempotencyOrder, t.idempotency)
               == Evicted(s.idempotencyOrder + [key],
                          s.idempotency[key := Submission(s.nextOperation, Fingerprint(c))], IDEMPOTENCY_CAPACITY)
            && t.nextOperation == s.nextOperation + 1
  {
    PreparedKeeps(s, key, c);
    CommitBounded(Prepared(s, key, c), MutationOf(s, c));
  }

  lemma OpenedEntry(s: State, key: string, c: Command)
    requires WellFormed(s) && Opens(s, key, c)
    ensures key in Opened(s, key, c).idempotency
    ensures Opened(s, key, c).idempotency[key] == Submission(s.nextOperation, Fingerprint(c))
    ensures forall k :: k in Opened(s, key, c).idempotency && k != key ==>
              k in s.idempotency && Opened(s, key, c).idempotency[k] == s.idempotency[k]
  {
    hide Opened, Evicted;
    OpenedKeys(s, key, c);
    BeginKey(s.idempotency, s.idempotencyOrder, s.nextOperation, key, Submission(s.nextOperation, Fingerprint(c)));
  }

  /** No step rewrites the entry of a key that stays retained. */
  lemma StepEntry(s: State, step: Step, key: string)
    requires WellFormed(s) && key in s.idempotency && key in Exec(s, step).idempotency
    ensures Exec(s, step).idempotency[key] == s.idempotency[key]
  {
    hide Exec, WellFormed;
    if OpensAny(s, step) {
      OpeningEntry(s, step, key);
    } else if step.DoTick? {
      TickEntry(s, key);
    } else {
      OthersKeepKeys(s, step);
    }
  }

  lemma OpeningEntry(s: State, step: Step, key: string)
    requires WellFormed(s) && OpensAny(s, step) && key in s.idempotency && key in Exec(s, step).idempotency
    ensures Exec(s, step).idempotency[key] == s.idempotency[key]
  {
    OpenedEntry(s, step.key, step.command);
  }

  lemma TickEntry(s: State, key: string)
    requires WellFormed(s) && key in s.idempotency && key in Exec(s, DoTick).idempotency
    ensures Exec(s, DoTick).idempotency[key] == s.idempotency[key]
  {
    TickAllBounded(s, InProgress(s, s.operationOrder));
  }

  /** Only openings and ticks touch the keys. */
  lemma OthersKeepKeys(s: State, step: Step)
    requires !OpensAny(s, step) && !step.DoTick?
    ensures Exec(s, step).idempotency == s.idempotency && Exec(s, step).idempotencyOrder == s.idempotencyOrder
  {
  }

  lemma EntryAcross(s: State, step: Step, t: State, key: string)
    requires WellFormed(s) && t == Exec(s, step) && key in s.idempotency && key in t.idempotency
    ensures t.idempotency[key] == s.idempotency[key]
  {
    StepEntry(s, step, key);
  }

  ghost predicate RetainedThroughout(states: seq<State>, i: nat, n: nat, key: string)
    requires n < |states|
  {
    forall m :: i <= m <= n ==> key in states[m].idempotency
  }

  ghost predicate SameEntry(states: seq<State>, m: nat, key: string) {
    && m + 1 < |states| && key in states[m].idempotency && key in states[m + 1].idempotency
    && states[m + 1].idempotency[key] == states[m].idempotency[key]
  }

  lemma {:induction false} SameEntries(states: seq<State>, i: nat, n: nat, key: string)
    requires i <= n < |states| && key in states[i].idempotency
    requires forall m :: i <= m < n ==> SameEntry(states, m, key)
    ensures key in states[n].idempotency && states[n].idempotency[key] == states[i].idempotency[key]
  {
    if i == n {
    } else {
      SameEntries(states, i, n - 1, key);
      assert SameEntry(states, n - 1, key);
    }
  }

  lemma EntryThroughout(states: seq<State>, steps: seq<Step>, i: nat, n: nat, key: string)
    requires IsRun(states, steps) && WellFormed(states[0]) && i <= n <= |steps|
    requires RetainedThroughout(states, i, n, key)
    ensures states[n].idempotency[key] == states[i].idempotency[key]
  {
    forall m | i <= m < n ensures SameEntry(states, m, key) {
      EntryAt(states, steps, m, key);
    }
    SameEntries(states, i, n, key);
  }

  lemma EntryAt(states: seq<State>, steps: seq<Step>, n: nat, key: string)
    requires IsRun(states, steps) && WellFormed(states[0]) && n < |steps|
    requires key in states[n].idempotency && key in states[n + 1].idempotency
    ensures states[n + 1].idempotency[key] == states[n].idempotency[key]
  {
    RunKeeps(states, steps, n);
    RunStep(states, steps, n);
    EntryAcross(states[n], steps[n], states[n + 1], key);
  }

  /**
   * At most once: while the key of an accepted submission is retained nothing else is opened
   * under it, resubmitting the same request answers with the first operation and changes
   * nothing, and any other request under it is a conflict that changes nothing.
   */
  lemma AtMostOnce(states: seq<State>, steps: seq<Step>, i: nat, n: nat, key: string, c: Command, d: Command)
    requires IsRun(states, steps) && WellFormed(states[0]) && i < n <= |steps|
    requires steps[i] == DoSubmit(key, c) && Opens(states[i], key, c)
    requires RetainedThroughout(states, i + 1, n, key)
    requires Precheck(d).Ok?
    ensures Submit(states[n], key, d) ==
            (states[n], if SameRequest(c, d) then Ok(states[i].nextOperation) else Err(Conflict("key reused")))
    ensures forall m :: i < m < n && steps[m].DoSubmit? && steps[m].key == key ==> !OpensAny(states[m], steps[m])
  {
    hide Opened, WellFormed;
    RunKeeps(states, steps, i);
    RunStep(states, steps, i);
    OpenedEntry(states[i], key, c);
    EntryThroughout(states, steps, i + 1, n, key);
    ReplayAnswer(states[n], key, c, d, states[i].nextOperation);
  }

  lemma ReplayAnswer(s: State, key: string, c: Command, d: Command, id: nat)
    requires key != "" && key in s.idempotency && s.idempotency[key] == Submission(id, Fingerprint(c))
    requires Precheck(d).Ok?
    ensures Submit(s, key, d) == (s, if SameRequest(c, d) then Ok(id) else Err(Conflict("key reused")))
  {
    FingerprintInjective(c, d);
  }

  // --- how long a key is retained -----------------------------------------------------------

  /** How many keys were queued after this one. */
  function Newer(order: seq<string>, key: string): nat
    requires key in order
  {
    if order[0] == key then |order| - 1 else Newer(order[1..], key)
  }

  lemma {:induction false} NewerAppend(order: seq<string>, key: string, last: string)
    requires key in order
    ensures key in order + [last] && Newer(order + [last], key) == Newer(order, key) + 1
  {
    assert (order + [last])[0] == order[0] && (order + [last])[1..] == order[1..] + [last];
    if order[0] == key {
    } else {
      NewerAppend(order[1..], key, last);
    }
  }

  lemma {:induction false} WithoutAllLength(order: seq<string>, keys: set<string>)
    ensures |WithoutAll(order, keys)| <= |order|
  {
    if |order| == 0 {
    } else {
      WithoutAllLength(order[1..], keys);
    }
  }

  lemma {:induction false} NewerRelease(order: seq<string>, keys: set<string>, key: string)
    requires key in order && key !in keys
    ensures Newer(WithoutAll(order, keys), key) <= Newer(order, key)
  {
    WithoutAllLength(order[1..], keys);
    if order[0] == key {
    } else {
      NewerRelease(order[1..], keys, key);
      if order[0] !in keys {
        assert WithoutAll(order, keys)[1..] == WithoutAll(order[1..], keys);
      }
    }
  }

  /** One queueing adds one newer key, and evicts a key only when 31 newer ones are queued. */
  lemma QueuedNewer(order: seq<string>, m: map<string, Submission>, key: string, entry: Submission, held: string)
    requires Retained(order, m, IDEMPOTENCY_CAPACITY) && key !in m && held in m
    ensures held in order
    ensures var (o, n) := Evicted(order + [key], m[key := entry], IDEMPOTENCY_CAPACITY);
            if Newer(order, held) + 1 >= IDEMPOTENCY_CAPACITY then held !in n
            else held in n && held in o && Newer(o, held) == Newer(order, held) + 1
  {
    MirrorsLength(order, m);
    InsertMirrors(order, m, key, entry, IDEMPOTENCY_CAPACITY);
    NewerAppend(order, held, key);
    NewerFront(order, held);
    if |m| == IDEMPOTENCY_CAPACITY {
      assert order[1..] + [key] == (order + [key])[1..];
    }
  }

  lemma OpenedNewer(s: State, key: string, c: Command, held: string)
    requires WellFormed(s) && Opens(s, key, c) && held in s.idempotency
    ensures held in s.idempotencyOrder
    ensures var t := Opened(s, key, c);
            if Newer(s.idempotencyOrder, held) + 1 >= IDEMPOTENCY_CAPACITY then held !in t.idempotency
            else held in t.idempotency && held in t.idempotencyOrder
                 && Newer(t.idempotencyOrder, held) == Newer(s.idempotencyOrder, held) + 1
  {
    hide Opened, Evicted, Newer;
    OpenedKeys(s, key, c);
    QueuedNewer(s.idempotencyOrder, s.idempotency, key, Submission(s.nextOperation, Fingerprint(c)), held);
  }

  lemma {:induction false} NewerFront(order: seq<string>, key: string)
    requires key in order
    ensures Newer(order, key) < |order|
    ensures Newer(order, key) == |order| - 1 <==> order[0] == key
  {
    if order[0] == key {
    } else {
      NewerFront(order[1..], key);
    }
  }

  /** The key is retained with at most `bound` newer keys. */
  ghost predicate NewerAtMost(s: State, key: string, bound: nat) {
    key in s.idempotency && key in s.idempotencyOrder && Newer(s.idempotencyOrder, key) <= bound
  }

  lemma TickOneNewer(s: State, id: nat, key: string, bound: nat)
    requires BoundedStores(s) && id in s.operations
    requires NewerAtMost(s, key, bound) && key in TickOne(s, id).idempotency
    ensures NewerAtMost(TickOne(s, id), key, bound)
  {
    if key !in KeysOf(s.idempotency, id) {
      NewerRelease(s.idempotencyOrder, KeysOf(s.idempotency, id), key);
    }
  }

  lemma {:induction false} TickAllNewer(s: State, ids: seq<nat>, key: string, bound: nat)
    requires BoundedStores(s) && forall id :: id in ids ==> id in s.operations
    requires NewerAtMost(s, key, bound) && key in TickAll(s, ids).idempotency
    ensures NewerAtMost(TickAll(s, ids), key, bound)
    decreases |ids|
  {
    if |ids| == 0 {
    } else {
      var t := TickOne(s, ids[0]);
      TickOneBounded(s, ids[0]);
      TickAllBounded(t, ids[1..]);
      TickOneNewer(s, ids[0], key, bound);
      TickAllNewer(t, ids[1..], key, bound);
    }
  }

  /** Openings among the steps from `i` up to `n`. */
  function Openings(states: seq<State>, steps: seq<Step>, i: nat, n: nat): nat
    requires |states| == |steps| + 1 && i <= n <= |steps|
    decreases n - i
  {
    if i == n then 0
    else Openings(states, steps, i, n - 1) + (if OpensAny(states[n - 1], steps[n - 1]) then 1 else 0)
  }

  /** A tick that let a key go: its operation failed. */
  predicate Releases(s: State, step: Step, t: State, key: string) {
    step.DoTick? && key in s.idempotency && key !in t.idempotency
  }

  ghost predicate NeverReleased(states: seq<State>, steps: seq<Step>, i: nat, n: nat, key: string)
    requires |states| == |steps| + 1 && n <= |steps|
  {
    forall m :: i <= m < n ==> !Releases(states[m], steps[m], states[m + 1], key)
  }

  lemma StepNewer(s: State, step: Step, t: State, key: string, bound: nat)
    requires WellFormed(s) && t == Exec(s, step) && !Releases(s, step, t, key)
    requires NewerAtMost(s, key, bound) && (OpensAny(s, step) ==> bound + 1 < IDEMPOTENCY_CAPACITY)
    ensures NewerAtMost(t, key, if OpensAny(s, step) then bound + 1 else bound)
  {
    hide Exec, WellFormed;
    if OpensAny(s, step) {
      OpeningNewer(s, step, key, bound);
    } else if step.DoTick? {
      TickNewer(s, key, bound);
    } else {
      OthersKeepKeys(s, step);
    }
  }

  lemma OpeningNewer(s: State, step: Step, key: string, bound: nat)
    requires WellFormed(s) && OpensAny(s, step) && NewerAtMost(s, key, bound) && bound + 1 < IDEMPOTENCY_CAPACITY
    ensures NewerAtMost(Exec(s, step), key, bound + 1)
  {
    hide WellFormed;
    OpenedNewer(s, step.key, step.command, key);
  }

  lemma TickNewer(s: State, key: string, bound: nat)
    requires WellFormed(s) && NewerAtMost(s, key, bound) && key in Exec(s, DoTick).idempotency
    ensures NewerAtMost(Exec(s, DoTick), key, bound)
  {
    TickAllNewer(s, InProgress(s, s.operationOrder), key, bound);
  }

  lemma {:induction false} RetentionFrom(states: seq<State>, steps: seq<Step>, a: nat, n: nat, key: string)
    requires IsRun(states, steps) && WellFormed(states[0]) && a <= n <= |steps|
    requires NewerAtMost(states[a], key, 0) && NeverReleased(states, steps, a, n, key)
    requires Openings(states, steps, a, n) < IDEMPOTENCY_CAPACITY
    ensures NewerAtMost(states[n], key, Openings(states, steps, a, n))
  {
    hide Exec, WellFormed, Opens;
    if a == n {
    } else {
      RunKeeps(states, steps, n - 1);
      RunStep(states, steps, n - 1);
      RetentionFrom(states, steps, a, n - 1, key);
      StepNewer(states[n - 1], steps[n - 1], states[n], key, Openings(states, steps, a, n - 1));
    }
  }

  /** A key outlives every run with fewer than 32 further openings in which its operation does not fail. */
  lemma KeyRetention(states: seq<State>, steps: seq<Step>, i: nat, n: nat, key: string, c: Command)
    requires IsRun(states, steps) && WellFormed(states[0]) && i < n <= |steps|
    requires steps[i] == DoSubmit(key, c) && Opens(states[i], key, c)
    requires NeverReleased(states, steps, i + 1, n, key)
    requires Openings(states, steps, i + 1, n) < IDEMPOTENCY_CAPACITY
    ensures NewerAtMost(states[n], key, Openings(states, steps, i + 1, n))
  {
    hide Exec, WellFormed, Opens;
    RunKeeps(states, steps, i);
    RunStep(states, steps, i);
    FirstRetained(states[i], states[i + 1], key, c);
    RetentionFrom(states, steps, i + 1, n, key);
  }

  lemma {:induction false} OpeningsGrow(states: seq<State>, steps: seq<Step>, i: nat, m: nat, n: nat)
    requires |states| == |steps| + 1 && i <= m <= n <= |steps|
    ensures Openings(states, steps, i, m) <= Openings(states, steps, i, n)
    decreases n - m
  {
    if m == n {
    } else {
      OpeningsGrow(states, steps, i, m, n - 1);
    }
  }

  /** Within 31 further openings and no failure of its operation, a resubmission cannot run twice. */
  lemma SafeResubmission(states: seq<State>, steps: seq<Step>, i: nat, n: nat, key: string, c: Command, d: Command)
    requires IsRun(states, steps) && WellFormed(states[0]) && i < n <= |steps|
    requires steps[i] == DoSubmit(key, c) && Opens(states[i], key, c)
    requires NeverReleased(states, steps, i + 1, n, key)
    requires Openings(states, steps, i + 1, n) < IDEMPOTENCY_CAPACITY
    requires Precheck(d).Ok? && SameRequest(c, d)
    ensures Submit(states[n], key, d) == (states[n], Ok(states[i].nextOperation))
  {
    hide Exec, WellFormed, Opens;
    forall m | i + 1 <= m <= n ensures key in states[m].idempotency {
      OpeningsGrow(states, steps, i + 1, m, n);
      KeyRetention(states, steps, i, m, key, c);
    }
    AtMostOnce(states, steps, i, n, key, c, d);
  }

  lemma FirstRetained(s: State, t: State, key: string, c: Command)
    requires WellFormed(s) && Opens(s, key, c) && t == Exec(s, DoSubmit(key, c))
    ensures NewerAtMost(t, key, 0)
  {
    OpenedEntry(s, key, c);
    LastIsNewest(s, key, c);
  }

  lemma QueuedLast(order: seq<string>, m: map<string, Submission>, key: string, entry: Submission)
    requires Retained(order, m, IDEMPOTENCY_CAPACITY) && key !in m
    ensures var o := Evicted(order + [key], m[key := entry], IDEMPOTENCY_CAPACITY).0; key in o && Newer(o, key) == 0
  {
    InsertMirrors(order, m, key, entry, IDEMPOTENCY_CAPACITY);
    MirrorsLength(order, m);
    NewerLast(order, key);
    NewerLast(if |order| > 0 then order[1..] else [], key);
  }

  lemma LastIsNewest(s: State, key: string, c: Command)
    requires WellFormed(s) && Opens(s, key, c)
    ensures key in Opened(s, key, c).idempotencyOrder
    ensures Newer(Opened(s, key, c).idempotencyOrder, key) == 0
  {
    hide Opened, Evicted, Newer;
    OpenedKeys(s, key, c);
    QueuedLast(s.idempotencyOrder, s.idempotency, key, Submission(s.nextOperation, Fingerprint(c)));
  }

  lemma {:induction false} NewerLast(order: seq<string>, key: string)
    requires key !in order
    ensures key in order + [key] && Newer(order + [key], key) == 0
  {
    assert (order + [key])[|order|] == key;
    if |order| == 0 {
    } else {
      assert (order + [key])[1..] == order[1..] + [key];
      NewerLast(order[1..], key);
    }
  }

  // --- operation lifecycle ------------------------------------------------------------------

  lemma {:induction false} InProgressDistinct(s: State, order: seq<nat>)
    requires NoDuplicates(order)
    ensures NoDuplicates(InProgress(s, order))
  {
    if |order| == 0 {
    } else {
      assert NoDuplicates(order[1..]);
      InProgressDistinct(s, order[1..]);
      assert order[0] !in order[1..];
    }
  }

  /** The outcome armed for an operation's terminal step, when this tick is that step. */
  function Fate(s: State, id: nat): Option<string>
    requires id in s.operations
  {
    if TerminalStep(s.operations[id]) then ArmedFor(s, id) else None
  }

  lemma {:induction false} TickAllAdvances(s: State, ids: seq<nat>, id: nat)
    requires NoDuplicates(ids) && id in s.operations
    requires forall other :: other in ids ==> other in s.operations
    ensures TickAll(s, ids).operations[id]
            == if id in ids then Advance(s.operations[id], Fate(s, id)) else s.operations[id]
    decreases |ids|
  {
    if |ids| == 0 {
    } else {
      var t := TickOne(s, ids[0]);
      assert ids[0] !in ids[1..];
      assert ids == [ids[0]] + ids[1..];
      assert NoDuplicates(ids[1..]);
      TickAllAdvances(t, ids[1..], id);
      if id != ids[0] {
        assert t.operations[id] == s.operations[id] && ArmedFor(t, id) == ArmedFor(s, id);
      }
    }
  }

  /** One tick advances every retained unfinished operation exactly one step and no other. */
  lemma TickAdvances(s: State, id: nat)
    requires WellFormed(s) && id in s.operations
    ensures id in Tick(s).operations
    ensures Tick(s).operations[id]
            == if s.operations[id].state.IsTerminal() then s.operations[id]
               else Advance(s.operations[id], Fate(s, id))
  {
    InProgressDistinct(s, s.operationOrder);
    TickAllAdvances(s, InProgress(s, s.operationOrder), id);
  }

  /** Three ticks finish an accepted operation, failing exactly when a failure is armed for it. */
  lemma ThreeTicksFinish(s: State, id: nat)
    requires WellFormed(s) && id in s.operations && s.operations[id] == Operation(Pending, None, None)
    ensures var one := Tick(s); var two := Tick(one); var three := Tick(two);
            && id in one.operations && one.operations[id] == Operation(Running, Some(1), None)
            && id in two.operations && two.operations[id] == Operation(Running, Some(2), None)
            && id in three.operations
            && three.operations[id] == (if id in s.armedFailures
                                        then Operation(Failed, None, Some(s.armedFailures[id]))
                                        else Operation(Succeeded, None, None))
  {
    hide Exec, WellFormed;
    var one := Tick(s);
    var two := Tick(one);
    TickAdvances(s, id);
    TickKeeps(s);
    TickArmed(s, id);
    TickAdvances(one, id);
    TickKeeps(one);
    TickArmed(one, id);
    TickAdvances(two, id);
  }

  lemma {:induction false} TickAllArmed(s: State, ids: seq<nat>, id: nat)
    requires id in s.operations && !TerminalStep(s.operations[id]) && NoDuplicates(ids)
    requires forall other :: other in ids ==> other in s.operations
    ensures ArmedFor(TickAll(s, ids), id) == ArmedFor(s, id)
    decreases |ids|
  {
    if |ids| == 0 {
    } else {
      var t := TickOne(s, ids[0]);
      assert NoDuplicates(ids[1..]) && ids[0] !in ids[1..];
      if id == ids[0] {
        TickAllArmedOther(t, ids[1..], id);
      } else {
        TickAllArmed(t, ids[1..], id);
      }
    }
  }

  lemma {:induction false} TickAllArmedOther(s: State, ids: seq<nat>, id: nat)
    requires id !in ids && forall other :: other in ids ==> other in s.operations
    ensures ArmedFor(TickAll(s, ids), id) == ArmedFor(s, id)
    decreases |ids|
  {
    if |ids| == 0 {
    } else {
      assert ids[0] in ids;
      TickAllArmedOther(TickOne(s, ids[0]), ids[1..], id);
    }
  }

  lemma TickArmed(s: State, id: nat)
    requires WellFormed(s) && id in s.operations && !TerminalStep(s.operations[id])
    ensures ArmedFor(Tick(s), id) == ArmedFor(s, id)
  {
    InProgressDistinct(s, s.operationOrder);
    TickAllArmed(s, InProgress(s, s.operationOrder), id);
  }

  /** Whether one tick of this operation fails it. */
  predicate FailsNow(s: State, id: nat)
    requires id in s.operations
  {
    s.operations[id].state != Failed && Advance(s.operations[id], Fate(s, id)).state == Failed
  }

  lemma TickOneRelease(s: State, id: nat, key: string)
    requires BoundedStores(s) && id in s.operations && key in s.idempotency
    ensures key !in TickOne(s, id).idempotency <==> s.idempotency[key].operation == id && FailsNow(s, id)
    ensures key in TickOne(s, id).idempotency ==> TickOne(s, id).idempotency[key] == s.idempotency[key]
  {
    assert key in KeysOf(s.idempotency, id) <==> s.idempotency[key].operation == id;
  }

  lemma TickOneOthers(s: State, id: nat, other: nat)
    requires id in s.operations && other in s.operations && other != id
    ensures other in TickOne(s, id).operations && FailsNow(TickOne(s, id), other) == FailsNow(s, other)
  {
    assert ArmedFor(TickOne(s, id), other) == ArmedFor(s, other);
  }

  /** Whether a round of ticks over these operations fails the key's operation. */
  predicate Doomed(s: State, ids: seq<nat>, key: string)
    requires key in s.idempotency && forall id :: id in ids ==> id in s.operations
  {
    s.idempotency[key].operation in ids && FailsNow(s, s.idempotency[key].operation)
  }

  lemma DoomedAfterOne(s: State, ids: seq<nat>, key: string)
    requires BoundedStores(s) && |ids| > 0 && ids[0] !in ids[1..] && key in s.idempotency
    requires forall id :: id in ids ==> id in s.operations
    ensures key !in TickOne(s, ids[0]).idempotency ==> Doomed(s, ids, key)
    ensures key in TickOne(s, ids[0]).idempotency ==>
              (Doomed(TickOne(s, ids[0]), ids[1..], key) <==> Doomed(s, ids, key))
  {
    var id := s.idempotency[key].operation;
    TickOneRelease(s, ids[0], key);
    assert id in ids <==> id == ids[0] || id in ids[1..];
    if id in ids[1..] {
      TickOneOthers(s, ids[0], id);
    }
  }

  /** A round of ticks lets go of a key exactly when it fails the key's operation. */
  lemma {:induction false} TickAllReleases(s: State, ids: seq<nat>, key: string)
    requires BoundedStores(s) && NoDuplicates(ids) && key in s.idempotency
    requires forall id :: id in ids ==> id in s.operations
    ensures key !in TickAll(s, ids).idempotency <==> Doomed(s, ids, key)
    decreases |ids|
  {
    if |ids| == 0 {
    } else {
      hide TickOne, BoundedStores;
      var t := TickOne(s, ids[0]);
      assert NoDuplicates(ids[1..]) && ids[0] !in ids[1..];
      TickOneBounded(s, ids[0]);
      DoomedAfterOne(s, ids, key);
      if key in t.idempotency {
        TickAllReleases(t, ids[1..], key);
      } else {
        TickAllBounded(t, ids[1..]);
      }
    }
  }

  lemma FailureReleasesKey(s: State, key: string)
    requires WellFormed(s) && key in s.idempotency
    ensures key !in Tick(s).idempotency <==>
            var id := s.idempotency[key].operation;
            id in s.operations && s.operations[id].state != Failed && Tick(s).operations[id].state == Failed
  {
    var id := s.idempotency[key].operation;
    InProgressDistinct(s, s.operationOrder);
    TickAllReleases(s, InProgress(s, s.operationOrder), key);
    if id in s.operations {
      TickAdvances(s, id);
    }
  }
}
