/** How a list comes to miss an event below its raised revision, from any state where one session can outrun another. */
module PortForwardOutrun {
  import opened Wrappers
  import opened PortForward
  import opened PortForwardSafety
  import opened PortForwardPublication
  import opened PortForwardTheorems
  import opened PortForwardReferences
  import opened PortForwardWatermark

  /** A state some steps after `s`, with the protocol's invariant. */
  ghost predicate After(s: State, x: State) {
    Reaches(s, x) && Kept(x)
  }

  lemma Go(s: State, x: State, step: Step)
    requires After(s, x) && Enabled(x, step)
    ensures After(s, Exec(x, step))
  {
    ReachesStep(s, x, step);
    StepKept(x, step);
  }

  // --- steps about one session --------------------------------------------------------------

  /** A counter that works on session `k` alone, without the manager lock. */
  predicate About(pc: Pc, k: SessionId) {
    (pc.StopWait? || pc.StopMarked? || pc.StopJoin? || pc.StopEnded? || pc.FailureSeen? || pc.FailureJoin?
     || pc.FailureEnded? || pc.StartResolve? || pc.StartFail? || pc.StartFailed? || pc.StartFailedSend?) && pc.id == k
  }

  /** From `x` to `y` only session `k` and the tasks about it have moved. */
  ghost predicate Only(x: State, y: State, k: SessionId) {
    && y.listed == x.listed && x.clock <= y.clock && x.log <= y.log && x.sessions.Keys == y.sessions.Keys
    && (forall j :: j in x.sessions && j != k ==> y.sessions[j] == x.sessions[j])
    && (forall u :: u in x.tasks ==> u in y.tasks && (y.tasks[u] == x.tasks[u] || About(x.tasks[u], k)))
    && (forall u :: u in y.tasks ==>
          (u in x.tasks && y.tasks[u] == x.tasks[u]) || About(y.tasks[u], k) || y.tasks[u] == Finished)
  }

  lemma OnlyThrough(x: State, y: State, z: State, k: SessionId)
    requires Only(x, y, k) && Only(y, z, k)
    ensures Only(x, z, k)
  {
    assert x.log <= z.log by {
      assert x.log == y.log[..|x.log|] == z.log[..|x.log|];
    }
  }

  lemma OnlyReader(x: State, y: State, t: Task, k: SessionId)
    requires Only(x, y, k) && Reading(x, t)
    ensures Reading(y, t) && y.tasks[t] == x.tasks[t]
  {
  }

  lemma OnlyChances(x: State, y: State, k: SessionId, b: SessionId)
    requires Only(x, y, k) && b != k
    ensures MayAnnounce(x, b) ==> MayAnnounce(y, b)
    ensures MayStamp(x, b) ==> MayStamp(y, b)
  {
    if b in x.sessions {
      var state := x.sessions[b].state;
      if u :| u in x.tasks && Announces(x.tasks[u], b, state) {
        assert !About(x.tasks[u], k);
        assert Announces(y.tasks[u], b, state);
      }
      if u :| u in x.tasks && FailsStart(x.tasks[u], b, state) {
        assert !About(x.tasks[u], k);
        assert FailsStart(y.tasks[u], b, state);
      }
    }
  }

  lemma OnlyBlockers(x: State, y: State, k: SessionId, u: Task, todo: set<SessionId>)
    requires Only(x, y, k) && Blocks(y, u, todo) && y.tasks[u].id != k
    ensures Blocks(x, u, todo) && x.tasks[u] == y.tasks[u]
  {
  }

  // --- what holds a lock while rows are read ------------------------------------------------

  /** The holder of a session lock other than a failed start is about to publish, and gives the lock back. */
  lemma HolderKind(x: State, t: Task, v: Task, k: SessionId)
    requires Kept(x) && Reading(x, t) && v in x.tasks && x.tasks[v].HoldsSession(k)
    ensures Holding(x.tasks[v], k) || x.tasks[v] == StartFailed(k)
    ensures k in x.sessions && (x.tasks[v].StopMarked? ==> x.sessions[k].state == Stopping)
    ensures !x.tasks[v].StopMarked? ==> x.sessions[k].state.IsTerminal()
  {
    assert !Clash(x.tasks[v], x.tasks[t]);
    assert OutcomeOk(x, x.tasks[v]);
    assert !x.tasks[v].StopMarked? && !x.tasks[v].SwitchMarked? ==> Right(x.tasks[v], k);
  }

  /** A session that is Starting or Active is not locked. */
  lemma EarlyUnlocked(x: State, t: Task, k: SessionId)
    requires Kept(x) && Reading(x, t) && k in x.sessions && (x.sessions[k].state == Starting || x.sessions[k].state == Active)
    ensures SessionFree(x, k)
  {
    forall v | v in x.tasks ensures !x.tasks[v].HoldsSession(k) {
      if x.tasks[v].HoldsSession(k) {
        HolderKind(x, t, v, k);
      }
    }
  }

  // --- publishing ---------------------------------------------------------------------------

  /** After `x`, session `k` has published under the revision `x` would allocate next or a later one. */
  ghost predicate HasPublished(x: State, y: State, k: SessionId) {
    && k in y.sessions && y.sessions[k].revision >= x.clock && GateFree(y) && SessionFree(y, k)
    && exists e :: e in y.log && e.id == k && x.clock <= e.revision < y.clock
  }

  /** A reachable state in which session `k` has published, with nothing else moved. */
  ghost predicate Announcement(s: State, x: State, y: State, k: SessionId) {
    After(s, y) && Only(x, y, k) && HasPublished(x, y, k)
  }

  lemma AnnounceHeld(s: State, x: State, t: Task, v: Task, k: SessionId) returns (y: State)
    requires After(s, x) && Reading(x, t) && GateFree(x) && v in x.tasks && Holding(x.tasks[v], k)
    ensures Announcement(s, x, y, k)
    ensures x.tasks[v].StopMarked? ==>
              v in y.tasks && y.tasks[v] == StopJoin(k) && k in x.sessions && y.sessions[k].state == x.sessions[k].state
  {
    hide Kept, Only, HasPublished, Reaches;
    HolderKind(x, t, v, k);
    Go(s, x, Announce(v));
    HolderExclusive(x);
    AnnouncedOnly(x, v, k);
    AnnouncedFrees(x, v, k);
    y := Announced(x, v);
  }

  lemma HolderExclusive(x: State)
    requires Kept(x)
    ensures Exclusive(x)
  {
  }

  lemma AnnouncedOnly(x: State, v: Task, k: SessionId)
    requires CanAnnounce(x, v) && Holding(x.tasks[v], k)
    ensures Only(x, Announced(x, v), k)
  {
  }

  lemma AnnouncedFrees(x: State, v: Task, k: SessionId)
    requires CanAnnounce(x, v) && Holding(x.tasks[v], k) && Exclusive(x)
    ensures HasPublished(x, Announced(x, v), k)
  {
    var y := Announced(x, v);
    var e := Event(x.clock, k, x.sessions[k].state);
    assert y.log == x.log + [e];
    assert y.log[|x.log|] == e;
    forall u | u in y.tasks ensures !y.tasks[u].HoldsSession(k) && !y.tasks[u].HoldsGate() {
      if u != v {
        assert y.tasks[u] == x.tasks[u];
        assert x.tasks[v].HoldsSession(k);
      }
    }
  }

  lemma SeizedOnly(x: State, u: Task, k: SessionId)
    requires CanSeize(x, u, k) && About(x.tasks[u], k)
    ensures Only(x, Seized(x, u, k), k) && GateFree(Seized(x, u, k)) == GateFree(x)
  {
    assert forall v :: v in x.tasks ==> Seized(x, u, k).tasks[v].HoldsGate() == x.tasks[v].HoldsGate();
  }

  /** A task about session `k` takes its lock. */
  lemma SeizeOne(s: State, x: State, u: Task, k: SessionId) returns (y: State)
    requires After(s, x) && CanSeize(x, u, k) && About(x.tasks[u], k)
    ensures y == Seized(x, u, k) && After(s, y) && Only(x, y, k) && GateFree(y) == GateFree(x)
  {
    hide Kept, Only, Reaches;
    Go(s, x, Seize(u, k));
    SeizedOnly(x, u, k);
    y := Seized(x, u, k);
  }

  /** A task about session `k` takes its lock into a state it then publishes. */
  lemma SeizeAnnounce(s: State, x: State, t: Task, u: Task, k: SessionId) returns (y: State)
    requires After(s, x) && Reading(x, t) && GateFree(x) && CanSeize(x, u, k) && About(x.tasks[u], k)
    requires Goal(x.tasks[u], x.sessions[k]).Some? && (x.tasks[u].StopWait? || x.tasks[u].StopJoin? || x.tasks[u].FailureJoin?)
    ensures Announcement(s, x, y, k)
  {
    hide Kept, Reaches, Only;
    var z := SeizeOne(s, x, u, k);
    y := AnnounceHeld(s, z, t, u, k);
    OnlyThrough(x, z, y, k);
  }

  /** Whoever joins a Stopping session can end it, once a stop still marking it has published. */
  lemma JoinAnnounces(s: State, x: State, t: Task, u: Task, k: SessionId) returns (y: State)
    requires After(s, x) && Reading(x, t) && GateFree(x) && u in x.tasks && k in x.sessions
    requires (x.tasks[u] == StopJoin(k) || x.tasks[u] == FailureJoin(k)) && x.sessions[k].state == Stopping
    ensures Announcement(s, x, y, k)
  {
    hide Kept, Reaches, HasPublished;
    if SessionFree(x, k) {
      y := SeizeAnnounce(s, x, t, u, k);
    } else {
      var v :| v in x.tasks && x.tasks[v].HoldsSession(k);
      HolderKind(x, t, v, k);
      y := AnnounceHeld(s, x, t, v, k);
    }
  }

  lemma WaitAnnounces(s: State, x: State, t: Task, u: Task, k: SessionId) returns (y: State)
    requires After(s, x) && Reading(x, t) && GateFree(x) && u in x.tasks && k in x.sessions
    requires x.tasks[u] == StopWait(k) && x.sessions[k].state == Starting
    ensures Announcement(s, x, y, k)
  {
    EarlyUnlocked(x, t, k);
    y := SeizeAnnounce(s, x, t, u, k);
  }

  // --- failed streams end an Active session -------------------------------------------------

  lemma {:induction false} FreshTask(taken: set<Task>) returns (u: Task)
    ensures forall v :: v in taken ==> v < u
  {
    if taken == {} {
      u := 0;
    } else {
      var v :| v in taken;
      var w := FreshTask(taken - {v});
      u := if v < w then w else v + 1;
      forall x | x in taken ensures x < u {
        assert x != v ==> x in taken - {v};
      }
    }
  }

  lemma StreamFailed(x: State, u: Task, k: SessionId)
    requires u !in x.tasks && k in x.sessions && x.sessions[k].state == Active && SessionFree(x, k)
    ensures Enabled(x, Spawn(u, FailureSeen(k)))
    ensures var z := Exec(x, Spawn(u, FailureSeen(k)));
            Only(x, z, k) && CanSeize(z, u, k) && About(z.tasks[u], k) && z.sessions == x.sessions && GateFree(z) == GateFree(x)
  {
    var z := Exec(x, Spawn(u, FailureSeen(k)));
    assert forall v :: v in z.tasks && v != u ==> v in x.tasks && z.tasks[v] == x.tasks[v];
  }

  /** One more failed stream on an Active session. */
  lemma FailOnce(s: State, x: State, t: Task, k: SessionId) returns (y: State, u: Task)
    requires After(s, x) && Reading(x, t) && GateFree(x) && k in x.sessions && x.sessions[k].state == Active
    ensures After(s, y) && Only(x, y, k) && GateFree(y) && k in y.sessions && u in y.tasks
    ensures if x.sessions[k].openFailures + 1 >= OPEN_FAILURE_THRESHOLD
            then y.tasks[u] == FailureJoin(k) && y.sessions[k].state == Stopping
            else y.sessions[k].state == Active && y.sessions[k].openFailures == x.sessions[k].openFailures + 1
  {
    hide Kept, Reaches, Only;
    EarlyUnlocked(x, t, k);
    u := FreshTask(x.tasks.Keys);
    StreamFailed(x, u, k);
    Go(s, x, Spawn(u, FailureSeen(k)));
    var z := Exec(x, Spawn(u, FailureSeen(k)));
    y := SeizeOne(s, z, u, k);
    OnlyThrough(x, z, y, k);
  }

  /** Enough failed streams end it. */
  lemma {:induction false} FailuresAnnounce(s: State, x: State, t: Task, k: SessionId) returns (y: State)
    requires After(s, x) && Reading(x, t) && GateFree(x) && k in x.sessions && x.sessions[k].state == Active
    ensures Announcement(s, x, y, k)
    decreases OPEN_FAILURE_THRESHOLD - x.sessions[k].openFailures
  {
    hide Kept, Reaches;
    var z, u := FailOnce(s, x, t, k);
    OnlyReader(x, z, t, k);
    if x.sessions[k].openFailures + 1 >= OPEN_FAILURE_THRESHOLD {
      y := JoinAnnounces(s, z, t, u, k);
    } else {
      y := FailuresAnnounce(s, z, t, k);
    }
    OnlyThrough(x, z, y, k);
  }

  // --- one session publishes, another is stamped --------------------------------------------

  lemma AnnounceSoon(s: State, x: State, t: Task, k: SessionId) returns (y: State)
    requires After(s, x) && Reading(x, t) && GateFree(x) && MayAnnounce(x, k)
    ensures Announcement(s, x, y, k)
  {
    hide Kept, Reaches, Only, HasPublished;
    if x.sessions[k].state == Active {
      y := FailuresAnnounce(s, x, t, k);
    } else {
      var u :| u in x.tasks && Announces(x.tasks[u], k, x.sessions[k].state);
      if Holding(x.tasks[u], k) {
        y := AnnounceHeld(s, x, t, u, k);
      } else if x.tasks[u].StopWait? {
        y := WaitAnnounces(s, x, t, u, k);
      } else {
        y := JoinAnnounces(s, x, t, u, k);
      }
    }
  }

  /** A reachable state in which session `k` has been stamped and can be read, with nothing else moved. */
  ghost predicate Stamping(s: State, x: State, y: State, k: SessionId) {
    After(s, y) && Only(x, y, k) && k in y.sessions && y.sessions[k].revision >= x.clock && SessionFree(y, k)
  }

  lemma StampedOnly(x: State, u: Task, k: SessionId)
    requires CanStamp(x, u) && x.tasks[u] == StartFailed(k) && Exclusive(x)
    ensures Only(x, FailureStamped(x, u), k) && SessionFree(FailureStamped(x, u), k)
  {
    assert x.tasks[u].HoldsSession(k);
  }

  lemma FailStamps(s: State, x: State, t: Task, u: Task, k: SessionId) returns (y: State)
    requires After(s, x) && Reading(x, t) && GateFree(x) && u in x.tasks && x.tasks[u] == StartFailed(k)
    ensures Stamping(s, x, y, k)
  {
    HolderKind(x, t, u, k);
    HolderExclusive(x);
    Go(s, x, StampFailure(u));
    StampedOnly(x, u, k);
    y := FailureStamped(x, u);
  }

  lemma StartFails(s: State, x: State, t: Task, u: Task, k: SessionId) returns (y: State)
    requires After(s, x) && Reading(x, t) && GateFree(x) && u in x.tasks && x.tasks[u] == StartFail(k)
    requires k in x.sessions && x.sessions[k].state == Starting
    ensures Stamping(s, x, y, k)
  {
    hide Kept, Reaches;
    EarlyUnlocked(x, t, k);
    var z := SeizeOne(s, x, u, k);
    OnlyReader(x, z, t, k);
    y := FailStamps(s, z, t, u, k);
    OnlyThrough(x, z, y, k);
  }

  lemma UnresolvedOnly(x: State, u: Task, k: SessionId)
    requires u in x.tasks && x.tasks[u].StartResolve? && x.tasks[u].id == k
    ensures Enabled(x, Move(u, Unresolved))
    ensures var z := Exec(x, Move(u, Unresolved));
            Only(x, z, k) && z.tasks[u] == StartFail(k) && z.sessions == x.sessions && GateFree(z) == GateFree(x)
  {
    var z := Exec(x, Move(u, Unresolved));
    assert forall v :: v in x.tasks ==> z.tasks[v].HoldsGate() == x.tasks[v].HoldsGate();
  }

  lemma ResolveFails(s: State, x: State, t: Task, u: Task, k: SessionId) returns (y: State)
    requires After(s, x) && Reading(x, t) && GateFree(x) && u in x.tasks && x.tasks[u].StartResolve? && x.tasks[u].id == k
    requires k in x.sessions && x.sessions[k].state == Starting
    ensures Stamping(s, x, y, k)
  {
    hide Kept, Reaches;
    UnresolvedOnly(x, u, k);
    Go(s, x, Move(u, Unresolved));
    var z := Exec(x, Move(u, Unresolved));
    OnlyReader(x, z, t, k);
    y := StartFails(s, z, t, u, k);
    OnlyThrough(x, z, y, k);
  }

  lemma StampSoon(s: State, x: State, t: Task, k: SessionId) returns (y: State)
    requires After(s, x) && Reading(x, t) && GateFree(x) && MayStamp(x, k)
    ensures Stamping(s, x, y, k)
  {
    hide Kept, Reaches, Only;
    if MayAnnounce(x, k) {
      y := AnnounceSoon(s, x, t, k);
    } else {
      var u :| u in x.tasks && FailsStart(x.tasks[u], k, x.sessions[k].state);
      match x.tasks[u] {
        case StartFailed(_) => y := FailStamps(s, x, t, u, k);
        case StartFail(_) => y := StartFails(s, x, t, u, k);
        case _ => y := ResolveFails(s, x, t, u, k);
      }
    }
  }

  // --- reading every row but the last -------------------------------------------------------

  /** Session `a` can outrun `b`, and its row, if read, is older than what it will publish. */
  ghost predicate Poised(x: State, t: Task, a: SessionId, b: SessionId) {
    && Reading(x, t) && Outruns(x, t, a, b) && a in x.listed
    && (a in x.tasks[t].rows ==> x.tasks[t].rows[a].revision < x.clock)
  }

  /** Whoever holds the lock of an unread row other than the last is about to publish. */
  lemma HolderPublishes(x: State, t: Task, a: SessionId, b: SessionId, k: SessionId) returns (v: Task)
    requires Kept(x) && Poised(x, t, a, b) && k in x.tasks[t].todo && k != b && !SessionFree(x, k)
    ensures v in x.tasks && Holding(x.tasks[v], k) && k in x.sessions
    ensures if x.tasks[v].StopMarked? then x.sessions[k].state == Stopping else x.sessions[k].state.IsTerminal()
  {
    v :| v in x.tasks && x.tasks[v].HoldsSession(k);
    HolderKind(x, t, v, k);
    var todo := x.tasks[t].todo;
    assert x.tasks[v] == StartFailed(k) ==> Blocks(x, v, todo);
  }

  /** Publishing under the lock of a session that can announce leaves it able to. */
  lemma StaysAble(x: State, y: State, a: SessionId, k: SessionId, v: Task)
    requires MayAnnounce(x, a) && (a in x.sessions && k == a ==> x.sessions[a].Live()) && Only(x, y, k)
    requires v in x.tasks && v in y.tasks && k in x.sessions && k in y.sessions
    requires if x.tasks[v].StopMarked? then y.tasks[v] == StopJoin(k) && x.sessions[k].state == y.sessions[k].state == Stopping
             else x.sessions[k].state.IsTerminal()
    ensures MayAnnounce(y, a)
  {
    if a == k {
      assert Announces(y.tasks[v], k, y.sessions[k].state);
    } else {
      OnlyChances(x, y, k, a);
    }
  }

  lemma StaysBlocked(x: State, y: State, k: SessionId, b: SessionId, todo: set<SessionId>)
    requires Only(x, y, k) && SessionFree(y, k) && forall u :: Blocks(x, u, todo) ==> x.tasks[u].id == b
    ensures forall u :: Blocks(y, u, todo) ==> y.tasks[u].id == b
  {
    forall u | Blocks(y, u, todo) ensures y.tasks[u].id == b {
      assert y.tasks[u].HoldsSession(y.tasks[u].id);
      OnlyBlockers(x, y, k, u, todo);
    }
  }

  lemma StaysPoised(x: State, y: State, t: Task, a: SessionId, b: SessionId, k: SessionId, v: Task)
    requires Poised(x, t, a, b) && Only(x, y, k) && k != b && GateFree(y) && SessionFree(y, k)
    requires k in x.tasks[t].todo && v in x.tasks && v in y.tasks && k in x.sessions && k in y.sessions
    requires if x.tasks[v].StopMarked? then y.tasks[v] == StopJoin(k) && x.sessions[k].state == y.sessions[k].state == Stopping
             else x.sessions[k].state.IsTerminal()
    ensures Poised(y, t, a, b)
  {
    hide MayAnnounce, MayStamp, Blocks, SessionFree;
    OnlyReader(x, y, t, k);
    OnlyChances(x, y, k, b);
    StaysAble(x, y, a, k, v);
    StaysBlocked(x, y, k, b, x.tasks[t].todo);
  }

  /** The lock of an unread row other than the last can be freed. */
  lemma OpenRow(s: State, x: State, t: Task, a: SessionId, b: SessionId, k: SessionId) returns (y: State)
    requires After(s, x) && Poised(x, t, a, b) && k in x.tasks[t].todo && k != b
    ensures After(s, y) && Poised(y, t, a, b) && y.tasks[t] == x.tasks[t] && y.listed == x.listed && SessionFree(y, k)
  {
    hide Kept, Reaches, MayAnnounce, MayStamp;
    if SessionFree(x, k) {
      y := x;
    } else {
      var v := HolderPublishes(x, t, a, b, k);
      y := AnnounceHeld(s, x, t, v, k);
      OnlyReader(x, y, t, k);
      StaysPoised(x, y, t, a, b, k, v);
    }
  }

  lemma UnreadKnown(x: State, t: Task, k: SessionId)
    requires Kept(x) && Reading(x, t) && k in x.tasks[t].todo
    ensures k in x.sessions && x.sessions[k].revision < x.clock
  {
    assert KnownTo(x, x.tasks[t]) && Mentions(x.tasks[t], k);
  }

  /** Reading one more row leaves the two poised. */
  lemma ReadPoised(x: State, t: Task, a: SessionId, b: SessionId, k: SessionId)
    requires Kept(x) && Poised(x, t, a, b) && k in x.tasks[t].todo && k != b && SessionFree(x, k)
    ensures CanInspect(x, t, k) && Poised(Inspected(x, t, k), t, a, b)
    ensures Inspected(x, t, k).tasks[t].todo == x.tasks[t].todo - {k} && Inspected(x, t, k).listed == x.listed
  {
    hide Kept, MayStamp, MayAnnounce;
    UnreadKnown(x, t, k);
    var y := Inspected(x, t, k);
    ReadGate(x, t, k);
    ReadChances(x, t, k, a);
    ReadChances(x, t, k, b);
    forall u | Blocks(y, u, y.tasks[t].todo) ensures y.tasks[u].id == b {
      assert Blocks(x, u, x.tasks[t].todo);
    }
  }

  lemma {:induction false} ReadAllBut(s: State, x: State, t: Task, a: SessionId, b: SessionId) returns (y: State)
    requires After(s, x) && Poised(x, t, a, b)
    ensures After(s, y) && Poised(y, t, a, b) && y.tasks[t].todo == {b}
    decreases |x.tasks[t].todo|
  {
    hide Kept, Reaches, Outruns;
    var todo := x.tasks[t].todo;
    if k :| k in todo && k != b {
      var z := OpenRow(s, x, t, a, b, k);
      AfterKept(s, z);
      ReadPoised(z, t, a, b, k);
      Go(s, z, Inspect(t, k));
      y := ReadAllBut(s, Inspected(z, t, k), t, a, b);
    } else {
      PoisedLast(x, t, a, b);
      y := x;
    }
  }

  lemma AfterKept(s: State, x: State)
    requires After(s, x)
    ensures Kept(x)
  {
  }

  lemma PoisedLast(x: State, t: Task, a: SessionId, b: SessionId)
    requires Poised(x, t, a, b) && forall k :: k in x.tasks[t].todo ==> k == b
    ensures x.tasks[t].todo == {b}
  {
  }

  // --- the miss -----------------------------------------------------------------------------

  /** With only the newly stamped row left to read, the event of `a` is missed. */
  lemma LastRow(s: State, x: State, t: Task, a: SessionId, b: SessionId, e: Event) returns (r: State)
    requires After(s, x) && Reading(x, t) && x.tasks[t].todo == {b} && a in x.tasks[t].rows && a != b && a in x.listed
    requires e in x.log && e.id == a && x.tasks[t].rows[a].revision < e.revision
    requires b in x.sessions && SessionFree(x, b) && e.revision <= x.sessions[b].revision
    ensures After(s, r) && Misses(r, t)
  {
    hide Kept, Reaches;
    Go(s, x, Inspect(t, b));
    var y := Inspected(x, t, b);
    Go(s, y, Move(t, Proceed));
    r := Proceeded(y, t).value;
    assert r.tasks[t].rows[b].revision >= e.revision;
    assert BelowRaised(r.tasks[t].base, r.tasks[t].rows, e.revision);
    assert Missed(r, r.tasks[t].base, r.tasks[t].rows, e);
  }

  /** The event session `a` publishes once every row but the last is read. */
  lemma PublishFirst(s: State, x: State, t: Task, a: SessionId, b: SessionId) returns (y: State, e: Event)
    requires After(s, x) && Poised(x, t, a, b) && x.tasks[t].todo == {b}
    ensures After(s, y) && Reading(y, t) && y.tasks[t] == x.tasks[t] && y.listed == x.listed
    ensures GateFree(y) && MayStamp(y, b) && e in y.log && e.id == a && x.clock <= e.revision < y.clock
  {
    hide Kept, Reaches, MayAnnounce, MayStamp;
    y := AnnounceSoon(s, x, t, a);
    OnlyReader(x, y, t, a);
    OnlyChances(x, y, a, b);
    e :| e in y.log && e.id == a && x.clock <= e.revision < y.clock;
  }

  lemma StampLast(s: State, y: State, t: Task, b: SessionId, e: Event) returns (z: State)
    requires After(s, y) && Reading(y, t) && GateFree(y) && MayStamp(y, b) && e in y.log
    ensures After(s, z) && Reading(z, t) && z.tasks[t] == y.tasks[t] && z.listed == y.listed && e in z.log
    ensures b in z.sessions && SessionFree(z, b) && y.clock <= z.sessions[b].revision
  {
    hide Kept, Reaches, MayStamp;
    z := StampSoon(s, y, t, b);
    OnlyReader(y, z, t, b);
  }

  /** Where one session can outrun another, some continuation's list misses an event of a session still listed. */
  lemma OutrunMisses(s: State, t: Task, a: SessionId, b: SessionId) returns (r: State)
    requires Kept(s) && Begun(s, t) && Outruns(s, t, a, b)
    ensures Reaches(s, r) && Misses(r, t)
  {
    hide Kept, Reaches, Outruns, Misses;
    ReachesSelf(s);
    BeginPoised(s, t, a, b);
    var x := ReadAllBut(s, s, t, a, b);
    LastUnread(x, t, a, b);
    var y, e := PublishFirst(s, x, t, a, b);
    var z := StampLast(s, y, t, b, e);
    r := LastRow(s, z, t, a, b, e);
  }

  lemma BeginPoised(s: State, t: Task, a: SessionId, b: SessionId)
    requires Begun(s, t) && Outruns(s, t, a, b)
    ensures Poised(s, t, a, b)
  {
  }

  lemma LastUnread(x: State, t: Task, a: SessionId, b: SessionId)
    requires Poised(x, t, a, b) && x.tasks[t].todo == {b}
    ensures a in x.tasks[t].rows && a != b
  {
  }

  /**
   * When the rows begin to be read, the raised revision will cover every event in every continuation exactly
   * when no session can outrun another.
   */
  lemma RaisedMissesIff(states: seq<State>, steps: seq<Step>, t: Task)
    requires IsRun(states, steps) && Begun(states[|steps|], t)
    ensures (exists r :: Reaches(states[|steps|], r) && Misses(r, t))
            <==> exists a, b :: Outruns(states[|steps|], t, a, b)
  {
    var s := states[|steps|];
    RunKept(states, steps, |steps|);
    if a, b :| Outruns(s, t, a, b) {
      var r := OutrunMisses(s, t, a, b);
    } else {
      forall r | Reaches(s, r) ensures !Misses(r, t) {
        RaisedCovers(s, r, t);
      }
    }
  }

  /** Live, or ended with the end not yet stamped on the row. */
  ghost predicate Unsettled(s: State, id: SessionId) {
    && id in s.sessions
    && (s.sessions[id].Live()
        || exists u :: u in s.tasks && (Holding(s.tasks[u], id) || s.tasks[u] == StartFailed(id)))
  }

  lemma StampersUnsettled(s: State, k: SessionId)
    requires MayStamp(s, k)
    ensures Unsettled(s, k)
  {
    var state := s.sessions[k].state;
    if state.IsTerminal() {
      if MayAnnounce(s, k) {
        var u :| u in s.tasks && Announces(s.tasks[u], k, state);
        assert Holding(s.tasks[u], k);
      } else {
        var u :| u in s.tasks && FailsStart(s.tasks[u], k, state);
        assert s.tasks[u] == StartFailed(k);
      }
    }
  }

  /**
   * So with at most one listed session unsettled when the rows begin to be read, a finished list shows every
   * event at or below its raised revision, unless the session is no longer listed.
   */
  lemma SettledListCovers(states: seq<State>, steps: seq<Step>, i: nat, j: nat, t: Task, e: Event)
    requires IsRun(states, steps) && i <= j < |states| && Begun(states[i], t)
    requires forall a, b ::
               a in states[i].listed && b in states[i].listed && Unsettled(states[i], a) && Unsettled(states[i], b) ==> a == b
    requires t in states[j].tasks && states[j].tasks[t].Listed? && e in states[j].log
    requires BelowRaised(states[j].tasks[t].base, states[j].tasks[t].rows, e.revision)
    ensures var rows := states[j].tasks[t].rows;
            if e.id in rows then Reflects(rows[e.id].revision, rows[e.id].state, e) else e.id !in states[j].listed
  {
    var s := states[i];
    RunKept(states, steps, i);
    forall a, b ensures !Outruns(s, t, a, b) {
      if Outruns(s, t, a, b) {
        StampersUnsettled(s, a);
        StampersUnsettled(s, b);
      }
    }
    RunReaches(states, steps, i, j);
    RaisedCovers(s, states[j], t);
    assert !Missed(states[j], states[j].tasks[t].base, states[j].tasks[t].rows, e);
  }

  // --- a run that misses --------------------------------------------------------------------

  const OPENING := State(map[], {}, "dev", 0, 1, [], false, map[])
  const WEB := Pod("uid-web", "web", 80)
  const API := Pod("uid-api", "api", 90)

  function StartingAt(target: Target, revision: nat): Session {
    Session("dev", target, None, Starting, revision, 0, false)
  }

  /** Two starts are resolving their targets. */
  const TWO_STARTS := State(
    map[0 := StartingAt(WEB, 1), 1 := StartingAt(API, 2)], {0, 1}, "dev", 0, 3,
    [Event(1, 0, Starting), Event(2, 1, Starting)], false,
    map[0 := StartResolve(0, "dev", 0), 1 := StartResolve(1, "dev", 0)])

  const ONE_START := State(
    map[0 := StartingAt(WEB, 1)], {0}, "dev", 0, 2, [Event(1, 0, Starting)], false, map[0 := StartResolve(0, "dev", 0)])

  // The steps of the run, each kind once.

  lemma Spawned(s: State, x: State, t: Task, entry: Pc)
    requires After(s, x) && CanDirectly(x, Spawn(t, entry))
    ensures After(s, At(x, t, entry))
  {
    Go(s, x, Spawn(t, entry));
  }

  lemma Locked(s: State, x: State, t: Task)
    requires After(s, x) && CanAcquire(x, t)
    ensures After(s, Acquired(x, t))
  {
    Go(s, x, Acquire(t));
  }

  lemma FellThrough(s: State, x: State, t: Task)
    requires After(s, x) && CanMove(x, t, Proceed)
    ensures After(s, Proceeded(x, t).value)
  {
    Go(s, x, Move(t, Proceed));
  }

  lemma Looked(s: State, x: State, t: Task, id: SessionId)
    requires After(s, x) && CanInspect(x, t, id)
    ensures After(s, Inspected(x, t, id))
  {
    Go(s, x, Inspect(t, id));
  }

  lemma Placed(s: State, x: State, t: Task, id: SessionId)
    requires After(s, x) && CanInsert(x, t, id)
    ensures After(s, Inserted(x, t, id))
  {
    Go(s, x, Insert(t, id));
  }

  lemma Opens()
    ensures After(OPENING, OPENING)
  {
    ReachesSelf(OPENING);
    InitInv(OPENING);
  }

  lemma FirstStart()
    ensures After(OPENING, ONE_START)
  {
    hide After;
    Opens();
    var x := At(OPENING, 0, StartIdle("dev", WEB));
    Spawned(OPENING, OPENING, 0, StartIdle("dev", WEB));
    Locked(OPENING, x, 0);
    var y := At(x, 0, StartScan("dev", WEB, {}));
    assert Acquired(x, 0) == y;
    Placed(OPENING, y, 0, 0);
    assert Inserted(y, 0, 0) == ONE_START;
  }

  lemma SecondStart()
    ensures After(OPENING, TWO_STARTS)
  {
    hide After;
    FirstStart();
    var x := At(ONE_START, 1, StartIdle("dev", API));
    Spawned(OPENING, ONE_START, 1, StartIdle("dev", API));
    Locked(OPENING, x, 1);
    var y := At(x, 1, StartScan("dev", API, {0}));
    assert Acquired(x, 1) == y;
    SecondInserted(y);
  }

  lemma SecondInserted(y: State)
    requires y == At(ONE_START, 1, StartScan("dev", API, {0})) && After(OPENING, y)
    ensures After(OPENING, TWO_STARTS)
  {
    hide Kept, Reaches;
    Looked(OPENING, y, 1, 0);
    var z := At(y, 1, StartScan("dev", API, {}));
    assert WEB.remotePort != API.remotePort && {0} - {0} == {};
    assert Inspected(y, 1, 0) == z;
    Placed(OPENING, z, 1, 1);
    assert Inserted(z, 1, 1) == TWO_STARTS;
  }

  /** A stop of the first session has found it, and a list is about to read both rows. */
  const READING := At(At(TWO_STARTS, 2, StopWait(0)), 3, ListRead(2, {0, 1}, map[]))

  lemma StopFinds()
    ensures After(OPENING, At(TWO_STARTS, 2, StopWait(0)))
  {
    hide After;
    SecondStart();
    var x := At(TWO_STARTS, 2, StopLookup(0));
    Spawned(OPENING, TWO_STARTS, 2, StopLookup(0));
    Locked(OPENING, x, 2);
    assert Acquired(x, 2) == At(TWO_STARTS, 2, StopWait(0));
  }

  lemma ListWaits()
    ensures After(OPENING, At(At(TWO_STARTS, 2, StopWait(0)), 3, ListWait(2)))
  {
    hide After;
    StopFinds();
    var s := At(TWO_STARTS, 2, StopWait(0));
    Spawned(OPENING, s, 3, ListIdle);
    FellThrough(OPENING, At(s, 3, ListIdle), 3);
    assert Proceeded(At(s, 3, ListIdle), 3).value == At(s, 3, ListWait(2));
  }

  lemma ListPrunes()
    ensures After(OPENING, At(At(TWO_STARTS, 2, StopWait(0)), 3, ListPrune(2)))
  {
    hide After;
    ListWaits();
    var s := At(TWO_STARTS, 2, StopWait(0));
    Locked(OPENING, At(s, 3, ListWait(2)), 3);
    assert Acquired(At(s, 3, ListWait(2)), 3) == At(s, 3, ListPrune(2));
  }

  lemma ListBegins()
    ensures After(OPENING, READING)
  {
    hide After;
    ListPrunes();
    var s := At(TWO_STARTS, 2, StopWait(0));
    FellThrough(OPENING, At(s, 3, ListPrune(2)), 3);
    assert Proceeded(At(s, 3, ListPrune(2)), 3).value == READING;
  }

  lemma StopOutrunsStart()
    ensures Begun(READING, 3) && Outruns(READING, 3, 0, 1)
  {
    var u: Task, v: Task := 2, 1;
    assert Announces(READING.tasks[u], 0, Starting);
    assert FailsStart(READING.tasks[v], 1, Starting);
  }

  /**
   * A run from the start whose list misses an event: the first session is stopped after its row is read, and the
   * second start fails to resolve its target before its own row is.
   */
  lemma RaisedWatermarkMisses()
    ensures exists states, steps :: IsRun(states, steps) && Misses(states[|steps|], 3)
  {
    ListBegins();
    StopOutrunsStart();
    var r := OutrunMisses(READING, 3, 0, 1);
    assert IsRun([OPENING], []);
    ReachesOn(OPENING, READING, r);
    RunExtends([OPENING], [], r);
  }

  lemma ReachesOn(s: State, x: State, r: State)
    requires Reaches(s, x) && Reaches(x, r)
    ensures Reaches(s, r)
  {
    var a, b :| IsPath(a, b, s, x);
    var c, d :| IsPath(c, d, x, r);
    var states, steps := a + c[1..], b + d;
    forall i | 0 <= i < |steps| ensures Enabled(states[i], steps[i]) && states[i + 1] == Exec(states[i], steps[i]) {
      if i < |b| {
        assert states[i] == a[i] && states[i + 1] == a[i + 1] && steps[i] == b[i];
      } else {
        var k := i - |b|;
        assert states[i] == c[k] && states[i + 1] == c[k + 1] && steps[i] == d[k];
      }
    }
    assert states[|steps|] == c[|d|];
    assert IsPath(states, steps, s, r);
  }
}
