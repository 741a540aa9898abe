/** A watcher that misses nothing holds exactly the rows its selector matches, on every run. */
module WatchConvergence {
  import opened Wrappers
  import opened Text
  import opened Identity
  import opened Watch
  import opened Store
  import opened StoreInvariants

  type View = map<ResourceRef, Record>

  /** What a watcher holds after one event: snapshots replace, deltas patch. */
  function Receive(view: View, e: Event): View {
    match e
    case Snapshot(rows, _) => ByReference(rows)
    case Changed(row) => view[row.reference := row]
    case Gone(r, _) => view - {r}
  }

  function ByReference(rows: seq<Record>): View {
    if |rows| == 0 then map[]
    else ByReference(rows[..|rows| - 1])[rows[|rows| - 1].reference := rows[|rows| - 1]]
  }

  /** What a watcher holds after a whole log. */
  function Replica(log: seq<Event>): View {
    if |log| == 0 then map[] else Receive(Replica(log[..|log| - 1]), log[|log| - 1])
  }

  /** The view holds the matching rows of the store and nothing else. */
  ghost predicate Holds(view: View, records: seq<Record>, selector: Selector) {
    && (forall i :: 0 <= i < |records| && selector.Matches(records[i].reference) ==>
          records[i].reference in view && view[records[i].reference] == records[i])
    && (forall r :: r in view ==>
          selector.Matches(r) && exists i :: 0 <= i < |records| && records[i].reference == r)
  }

  /** No two rows are the same object. */
  ghost predicate UniqueReferences(records: seq<Record>) {
    forall i, j :: 0 <= i < j < |records| ==> records[i].reference != records[j].reference
  }

  ghost predicate Unused(records: seq<Record>, r: ResourceRef) {
    forall i :: 0 <= i < |records| ==> records[i].reference != r
  }

  /** The watch with this id, while live, holds what its selector matches. */
  ghost predicate Converged(s: State, id: nat) {
    forall w :: w in s.watches && w.id == id && w.live ==> Holds(Replica(w.log), s.records, w.selector)
  }

  // --- one row change -----------------------------------------------------------------------

  /** What one row change tells its watchers. */
  function Notice(s: State, m: Mutation): (ResourceRef, Event)
    requires Applicable(s, m) && !m.Keep?
  {
    match m
    case Put(_, row) => (row.reference, Changed(row))
    case Push(row) => (row.reference, Changed(row))
    case Drop(i) => (s.records[i].reference, Gone(s.records[i].reference, s.revision + 1))
  }

  ghost predicate Collides(s: State, m: Mutation) {
    m.Push? && !Unused(s.records, m.row.reference)
  }

  lemma UniqueAfter(s: State, m: Mutation)
    requires Applicable(s, m) && UniqueReferences(s.records) && !Collides(s, m)
    ensures UniqueReferences(Commit(s, m).records)
  {
    var t := Commit(s, m);
    match m {
      case Keep =>
      case Put(i, row) => assert forall j :: 0 <= j < |s.records| ==> t.records[j].reference == s.records[j].reference;
      case Push(row) =>
      case Drop(i) =>
    }
  }

  lemma PutPatches(view: View, records: seq<Record>, selector: Selector, i: nat, row: Record)
    requires Holds(view, records, selector) && UniqueReferences(records)
    requires i < |records| && records[i].reference == row.reference
    ensures Holds(if selector.Matches(row.reference) then view[row.reference := row] else view,
                  records[i := row], selector)
  {
    var after := if selector.Matches(row.reference) then view[row.reference := row] else view;
    var rows := records[i := row];
    assert forall j :: 0 <= j < |records| ==> rows[j].reference == records[j].reference;
    forall r | r in after ensures exists j :: 0 <= j < |rows| && rows[j].reference == r {
      if r == row.reference {
        assert rows[i].reference == r;
      } else {
        var j :| 0 <= j < |records| && records[j].reference == r;
        assert rows[j].reference == r;
      }
    }
  }

  lemma PushPatches(view: View, records: seq<Record>, selector: Selector, row: Record)
    requires Holds(view, records, selector) && Unused(records, row.reference)
    ensures Holds(if selector.Matches(row.reference) then view[row.reference := row] else view,
                  records + [row], selector)
  {
    var after := if selector.Matches(row.reference) then view[row.reference := row] else view;
    var rows := records + [row];
    forall r | r in after ensures exists j :: 0 <= j < |rows| && rows[j].reference == r {
      if r == row.reference {
        assert rows[|records|].reference == r;
      } else {
        var j :| 0 <= j < |records| && records[j].reference == r;
        assert rows[j].reference == r;
      }
    }
  }

  lemma RowsAfterDrop(records: seq<Record>, i: nat)
    requires i < |records|
    ensures var rows := records[..i] + records[i + 1..];
            |rows| == |records| - 1 && forall j :: 0 <= j < |rows| ==> rows[j] == records[if j < i then j else j + 1]
  {
  }

  /** Rows without one that had its reference to itself. */
  lemma OthersRemain(records: seq<Record>, rows: seq<Record>, i: nat, r: ResourceRef)
    requires i < |records| && |rows| == |records| - 1 && r != records[i].reference
    requires forall j :: 0 <= j < |rows| ==> rows[j] == records[if j < i then j else j + 1]
    requires exists j :: 0 <= j < |records| && records[j].reference == r
    ensures exists j :: 0 <= j < |rows| && rows[j].reference == r
  {
    var j :| 0 <= j < |records| && records[j].reference == r;
    assert rows[if j < i then j else j - 1].reference == r;
  }

  lemma DropPatches(view: View, records: seq<Record>, selector: Selector, i: nat)
    requires Holds(view, records, selector) && UniqueReferences(records) && i < |records|
    ensures Holds(if selector.Matches(records[i].reference) then view - {records[i].reference} else view,
                  records[..i] + records[i + 1..], selector)
  {
    var gone := records[i].reference;
    var after := if selector.Matches(gone) then view - {gone} else view;
    var rows := records[..i] + records[i + 1..];
    RowsAfterDrop(records, i);
    forall r | r in after ensures exists j :: 0 <= j < |rows| && rows[j].reference == r {
      OthersRemain(records, rows, i, r);
    }
  }

  /** A delivered delta patches a watcher's view exactly as the store changed. */
  lemma ReplicaGrows(log: seq<Event>, e: Event)
    ensures Replica(log + [e]) == Receive(Replica(log), e)
  {
    var grown := log + [e];
    assert grown[..|grown| - 1] == log && grown[|grown| - 1] == e;
  }

  /** What one watcher holds after a change and its delta. */
  ghost predicate DeltaHolds(s: State, m: Mutation, w: RegisteredWatch)
    requires Applicable(s, m) && !m.Keep?
  {
    var (r, e) := Notice(s, m);
    Holds(Replica(Delivered(w, r, e).log), Commit(s, m).records, w.selector)
  }

  lemma PutDelta(s: State, i: nat, row: Record, w: RegisteredWatch)
    requires Applicable(s, Put(i, row)) && UniqueReferences(s.records)
    requires Holds(Replica(w.log), s.records, w.selector)
    ensures DeltaHolds(s, Put(i, row), w)
  {
    ReplicaGrows(w.log, Notice(s, Put(i, row)).1);
    PutPatches(Replica(w.log), s.records, w.selector, i, row);
  }

  lemma PushDelta(s: State, row: Record, w: RegisteredWatch)
    requires Applicable(s, Push(row)) && UniqueReferences(s.records) && !Collides(s, Push(row))
    requires Holds(Replica(w.log), s.records, w.selector)
    ensures DeltaHolds(s, Push(row), w)
  {
    ReplicaGrows(w.log, Notice(s, Push(row)).1);
    PushPatches(Replica(w.log), s.records, w.selector, row);
  }

  lemma DropDelta(s: State, i: nat, w: RegisteredWatch)
    requires Applicable(s, Drop(i)) && UniqueReferences(s.records)
    requires Holds(Replica(w.log), s.records, w.selector)
    ensures DeltaHolds(s, Drop(i), w)
  {
    ReplicaGrows(w.log, Notice(s, Drop(i)).1);
    DropPatches(Replica(w.log), s.records, w.selector, i);
  }

  lemma DeltaConverges(s: State, m: Mutation, w: RegisteredWatch)
    requires Applicable(s, m) && !m.Keep? && UniqueReferences(s.records) && !Collides(s, m)
    requires Holds(Replica(w.log), s.records, w.selector)
    ensures var (r, e) := Notice(s, m);
            Holds(Replica(Delivered(w, r, e).log), Commit(s, m).records, w.selector)
  {
    match m {
      case Put(i, row) => PutDelta(s, i, row, w);
      case Push(row) => PushDelta(s, row, w);
      case Drop(i) => DropDelta(s, i, w);
    }
    assert DeltaHolds(s, m, w);
  }

  lemma CommitConverges(s: State, m: Mutation, id: nat)
    requires Applicable(s, m) && UniqueReferences(s.records) && !Collides(s, m)
    requires Converged(s, id)
    ensures Converged(Commit(s, m), id)
  {
    if !m.Keep? {
      var t := Commit(s, m);
      var (r, e) := Notice(s, m);
      forall w | w in t.watches && w.id == id && w.live ensures Holds(Replica(w.log), t.records, w.selector) {
        BroadcastReaches(s.watches, r, e, w);
        var v :| v in s.watches && v.live && w == Delivered(v, r, e);
        DeltaConverges(s, m, v);
      }
    }
  }

  // --- the snapshot -------------------------------------------------------------------------

  /** Every row the snapshot shows also passes the registered selector. */
  ghost predicate SnapshotAgrees(records: seq<Record>, q: WatchRequest) {
    forall i :: 0 <= i < |records| && InSnapshot(q, records[i].reference) ==>
      SelectorOf(q).Matches(records[i].reference)
  }

  lemma {:induction false} ByReferenceHolds(rows: seq<Record>)
    requires UniqueReferences(rows)
    ensures forall i :: 0 <= i < |rows| ==> rows[i].reference in ByReference(rows) && ByReference(rows)[rows[i].reference] == rows[i]
    ensures forall r :: r in ByReference(rows) ==> exists i :: 0 <= i < |rows| && rows[i].reference == r
  {
    if |rows| == 0 {
    } else {
      var rest := rows[..|rows| - 1];
      ByReferenceHolds(rest);
      assert forall i :: 0 <= i < |rest| ==> rest[i] == rows[i];
      forall r | r in ByReference(rows) ensures exists i :: 0 <= i < |rows| && rows[i].reference == r {
        if r != rows[|rows| - 1].reference {
          var i :| 0 <= i < |rest| && rest[i].reference == r;
          assert rows[i].reference == r;
        }
      }
    }
  }

  lemma {:induction false} SnapshotUnique(records: seq<Record>, q: WatchRequest)
    requires UniqueReferences(records)
    ensures UniqueReferences(SnapshotRows(records, q))
  {
    if |records| == 0 {
    } else {
      assert UniqueReferences(records[1..]);
      SnapshotUnique(records[1..], q);
      var rest := SnapshotRows(records[1..], q);
      forall i | 0 <= i < |rest| ensures rest[i].reference != records[0].reference {
        assert rest[i] in records[1..];
        var j :| 0 <= j < |records[1..]| && records[1..][j] == rest[i];
        assert records[j + 1] == rest[i];
      }
    }
  }

  /** The first view is right exactly when the snapshot filter and the selector agree on the rows. */
  lemma SnapshotConvergesIff(records: seq<Record>, q: WatchRequest, asOf: nat)
    requires UniqueReferences(records)
    ensures Holds(Replica([Snapshot(SnapshotRows(records, q), asOf)]), records, SelectorOf(q))
            <==> SnapshotAgrees(records, q)
  {
    var rows, selector := SnapshotRows(records, q), SelectorOf(q);
    var log := [Snapshot(rows, asOf)];
    assert log[..|log| - 1] == [];
    var view := Replica(log);
    assert view == ByReference(rows);
    SnapshotUnique(records, q);
    ByReferenceHolds(rows);
    forall i | 0 <= i < |records| && InSnapshot(q, records[i].reference)
      ensures records[i].reference in view && view[records[i].reference] == records[i]
    {
      assert records[i] in rows;
      var j :| 0 <= j < |rows| && rows[j] == records[i];
    }
    forall r | r in view ensures exists i :: 0 <= i < |records| && records[i].reference == r && InSnapshot(q, r) {
      var j :| 0 <= j < |rows| && rows[j].reference == r;
      assert rows[j] in rows;
      var i :| 0 <= i < |records| && records[i] == rows[j];
    }
  }

  /** The one way filter and selector part: an identity sent without its object's namespace. */
  lemma SelectorAgreement(q: WatchRequest, r: ResourceRef)
    ensures SelectorOf(q).Matches(r) <==>
            InSnapshot(q, r) && (q.identity.Some? && q.namespace.None? ==> r.namespace.None?)
  {
  }

  /** So a snapshot agrees unless it shows a namespaced object to an identity sent without a namespace. */
  lemma AgreesUnlessNameless(records: seq<Record>, q: WatchRequest)
    ensures SnapshotAgrees(records, q) <==>
            (q.identity.Some? && q.namespace.None? ==>
               forall i :: 0 <= i < |records| && InSnapshot(q, records[i].reference) ==> records[i].reference.namespace.None?)
  {
    forall i | 0 <= i < |records| {
      SelectorAgreement(q, records[i].reference);
    }
  }

  /** A request agrees on every store exactly when it sends no identity, or a namespace with it. */
  lemma RequestAgreesIff(q: WatchRequest)
    ensures (forall records: seq<Record> :: SnapshotAgrees(records, q)) <==> q.identity.None? || q.namespace.Some?
  {
    forall records: seq<Record> {
      AgreesUnlessNameless(records, q);
    }
    if q.identity.Some? && q.namespace.None? {
      var named := ResourceRef(q.context, q.gvk, Some(""), q.identity.value.0, q.identity.value.1);
      var records := [NewRow(named, 0, "")];
      assert InSnapshot(q, records[0].reference);
      assert !SnapshotAgrees(records, q);
    }
  }

  // --- whole runs ---------------------------------------------------------------------------

  /** A step's generated object, if it makes one, has a reference no row uses. */
  ghost predicate FreshJob(s: State, step: Step) {
    step.DoSubmit? && step.command.CreateJob? && Opens(s, step.key, step.command) ==>
      Unused(s.records, JobReference(s, step.command.target))
  }

  lemma LookupUnused(records: seq<Record>, r: ResourceRef)
    requires FindIndex(records, PlaceOf(r)) == |records|
    ensures Unused(records, r)
  {
  }

  /** The row change behind a step, if it makes one. */
  function StepMutation(s: State, step: Step): (m: Mutation)
    ensures Applicable(s, m)
  {
    match step
    case DoSubmit(key, c) => if Opens(s, key, c) then MutationOf(s, c) else Keep
    case DoTouch(p) =>
      var i := FindIndex(s.records, p);
      if i < |s.records| then Put(i, Stamped(s, s.records[i])) else Keep
    case DoRemove(p) =>
      var i := FindIndex(s.records, p);
      if i < |s.records| then Drop(i) else Keep
    case _ => Keep
  }

  lemma StepAddsFresh(s: State, step: Step)
    requires FreshJob(s, step)
    ensures !Collides(s, StepMutation(s, step))
  {
    if step.DoSubmit? && Opens(s, step.key, step.command) && step.command.Apply? {
      var target := step.command.target;
      if FindIndex(s.records, PlaceOf(target)) == |s.records| {
        LookupUnused(s.records, target);
      }
    }
  }

  /** A row change reads only the rows, the revision and the watches. */
  lemma CommitDepends(s: State, t: State, m: Mutation)
    requires s.records == t.records && s.revision == t.revision
    requires s.watches == t.watches && s.nextWatch == t.nextWatch
    requires Applicable(s, m) && Applicable(t, m)
    ensures var x, y := Commit(s, m), Commit(t, m);
            x.records == y.records && x.watches == y.watches && x.nextWatch == y.nextWatch && x.revision == y.revision
  {
  }

  /** Rows and deliveries after a submission are those of its row change alone. */
  lemma SubmitCommits(s: State, key: string, c: Command)
    requires WellFormed(s) && Opens(s, key, c)
    ensures var t := Opened(s, key, c); var d := Commit(s, MutationOf(s, c));
            t.records == d.records && t.watches == d.watches && t.nextWatch == d.nextWatch && t.revision == d.revision
  {
    PreparedKeeps(s, key, c);
    CommitDepends(s, Prepared(s, key, c), MutationOf(s, c));
  }

  /** The outcome has the rows and deliveries of the row change. */
  ghost predicate SameRows(t: State, d: State) {
    t.records == d.records && t.watches == d.watches && d.nextWatch <= t.nextWatch
  }

  lemma TickRows(s: State)
    requires WellFormed(s)
    ensures SameRows(Tick(s), s)
  {
    TickAllBounded(s, InProgress(s, s.operationOrder));
  }

  lemma SubmitRows(s: State, key: string, c: Command)
    requires WellFormed(s)
    ensures SameRows(Exec(s, DoSubmit(key, c)), Commit(s, StepMutation(s, DoSubmit(key, c))))
  {
    hide WellFormed;
    if Opens(s, key, c) {
      SubmitCommits(s, key, c);
    }
  }

  /** A step is its row change, except that two kinds also edit the registry. */
  ghost predicate RecordsFollow(s: State, step: Step) {
    && Exec(s, step).records == Commit(s, StepMutation(s, step)).records && s.nextWatch <= Exec(s, step).nextWatch
    && (!step.DoSubscribe? && !step.DoDisconnect? ==> SameRows(Exec(s, step), Commit(s, StepMutation(s, step))))
  }

  lemma SubmitFollowsRows(s: State, key: string, c: Command)
    requires WellFormed(s)
    ensures RecordsFollow(s, DoSubmit(key, c))
  {
    hide Exec, WellFormed;
    SubmitRows(s, key, c);
  }

  lemma TickFollowsRows(s: State, step: Step)
    requires WellFormed(s) && step.DoTick?
    ensures RecordsFollow(s, step)
  {
    TickRows(s);
  }

  lemma OtherFollowsRows(s: State, step: Step)
    requires !step.DoSubmit? && !step.DoTick?
    ensures RecordsFollow(s, step)
  {
  }

  lemma StepRecords(s: State, step: Step)
    requires WellFormed(s)
    ensures RecordsFollow(s, step)
  {
    if step.DoSubmit? {
      SubmitFollowsRows(s, step.key, step.command);
    } else if step.DoTick? {
      TickFollowsRows(s, step);
    } else {
      OtherFollowsRows(s, step);
    }
  }

  lemma DisconnectConverges(s: State, other: nat, id: nat)
    requires Converged(s, id)
    ensures Converged(Exec(s, DoDisconnect(other)), id)
  {
    var t := Exec(s, DoDisconnect(other));
    forall w | w in t.watches && w.id == id && w.live ensures Holds(Replica(w.log), t.records, w.selector) {
      var i :| 0 <= i < |t.watches| && t.watches[i] == w;
      assert s.watches[i] in s.watches;
    }
  }

  lemma StepConverges(s: State, step: Step, id: nat)
    requires WellFormed(s) && UniqueReferences(s.records) && FreshJob(s, step)
    requires Converged(s, id) && id < s.nextWatch
    ensures Converged(Exec(s, step), id) && UniqueReferences(Exec(s, step).records)
    ensures id < Exec(s, step).nextWatch
  {
    StepAddsFresh(s, step);
    var m := StepMutation(s, step);
    UniqueAfter(s, m);
    StepRecords(s, step);
    if step.DoDisconnect? {
      DisconnectConverges(s, step.watch, id);
    } else if !step.DoSubscribe? {
      CommitConverges(s, m, id);
    }
  }

  /**
   * Watch convergence: on every run, from the moment a request whose filter agrees with its
   * selector is registered, its live watcher holds exactly the rows the selector matches.
   */
  lemma {:induction false} WatchConverges(
    states: seq<State>, steps: seq<Step>, k: nat, q: WatchRequest, n: nat)
    requires IsRun(states, steps) && WellFormed(states[0]) && UniqueReferences(states[0].records)
    requires forall i :: 0 <= i < |steps| ==> FreshJob(states[i], steps[i])
    requires k < n <= |steps| && steps[k] == DoSubscribe(q) && q.context in states[k].contexts
    requires SnapshotAgrees(states[k].records, q)
    ensures Converged(states[n], states[k].nextWatch)
    ensures states[k].nextWatch < states[n].nextWatch && UniqueReferences(states[n].records)
  {
    hide WellFormed;
    RunKeeps(states, steps, n - 1);
    if n == k + 1 {
      UniqueAlways(states, steps, k);
      SubscribeConverges(states[k], q);
    } else {
      WatchConverges(states, steps, k, q, n - 1);
      StepConverges(states[n - 1], steps[n - 1], states[k].nextWatch);
    }
  }

  lemma SubscribeConverges(s: State, q: WatchRequest)
    requires WellFormed(s) && UniqueReferences(s.records) && q.context in s.contexts
    ensures Converged(Subscribe(s, q), s.nextWatch) <==> SnapshotAgrees(s.records, q)
  {
    SnapshotConvergesIff(s.records, q, s.revision);
    var w := RegisteredWatch(s.nextWatch, SelectorOf(q), true, [Snapshot(SnapshotRows(s.records, q), s.revision)]);
    var t := Subscribe(s, q);
    assert t.watches == s.watches + [w];
    assert w in t.watches;
    assert forall v :: v in s.watches ==> v.id < s.nextWatch;
    assert forall v :: v in t.watches && v.id == s.nextWatch ==> v == w;
  }

  lemma {:induction false} UniqueAlways(states: seq<State>, steps: seq<Step>, n: nat)
    requires IsRun(states, steps) && WellFormed(states[0]) && UniqueReferences(states[0].records) && n <= |steps|
    requires forall i :: 0 <= i < |steps| ==> FreshJob(states[i], steps[i])
    ensures UniqueReferences(states[n].records)
  {
    hide Exec, WellFormed;
    if n == 0 {
    } else {
      UniqueAlways(states, steps, n - 1);
      RunKeeps(states, steps, n - 1);
      StepAddsFresh(states[n - 1], steps[n - 1]);
      UniqueAfter(states[n - 1], StepMutation(states[n - 1], steps[n - 1]));
      StepRecords(states[n - 1], steps[n - 1]);
    }
  }

  /** Convergence is lost on a created job exactly when its generated reference is already in use. */
  lemma CollidingJobDiverges(s: State, key: string, source: ResourceRef, w: RegisteredWatch)
    requires WellFormed(s) && UniqueReferences(s.records)
    requires Opens(s, key, CreateJob(source)) && w in s.watches && w.live
    requires Holds(Replica(w.log), s.records, w.selector) && w.selector.Matches(JobReference(s, source))
    ensures Converged(Opened(s, key, CreateJob(source)), w.id) <==> Unused(s.records, JobReference(s, source))
  {
    var c := CreateJob(source);
    var m, t := MutationOf(s, c), Opened(s, key, c);
    SubmitCommits(s, key, c);
    var (r, e) := Notice(s, m);
    var v := Delivered(w, r, e);
    BroadcastReaches(s.watches, r, e, v);
    if Unused(s.records, r) {
      DeltaConvergesForId(s, m, w.id, w);
    } else {
      TwoRowsDiverge(s, t, r, v);
    }
  }

  /** Two rows under one reference are not one view. */
  lemma TwoRowsDiverge(s: State, t: State, r: ResourceRef, v: RegisteredWatch)
    requires Stamps(s) && !Unused(s.records, r) && |t.records| == |s.records| + 1 && t.records[..|s.records|] == s.records
    requires t.records[|s.records|].reference == r && t.records[|s.records|].revision > s.revision
    requires v in t.watches && v.live && v.selector.Matches(r)
    ensures !Converged(t, v.id)
  {
    var i :| 0 <= i < |s.records| && s.records[i].reference == r;
    assert t.records[i] == t.records[..|s.records|][i] == s.records[i];
    assert t.records[i].revision < t.records[|s.records|].revision;
  }

  lemma DeltaConvergesForId(s: State, m: Mutation, id: nat, w: RegisteredWatch)
    requires WellFormed(s) && UniqueReferences(s.records) && Applicable(s, m) && !Collides(s, m)
    requires w in s.watches && w.id == id && Holds(Replica(w.log), s.records, w.selector)
    ensures Converged(Commit(s, m), id)
  {
    assert Converged(s, id) by {
      forall v | v in s.watches && v.id == id && v.live ensures v == w {
        var i :| 0 <= i < |s.watches| && s.watches[i] == v;
        var j :| 0 <= j < |s.watches| && s.watches[j] == w;
      }
    }
    CommitConverges(s, m, id);
  }

  /** A registered watch stays registered until its receiver is dropped. */
  ghost predicate Registered(s: State, id: nat, selector: Selector) {
    exists w :: w in s.watches && w.id == id && w.live && w.selector == selector
  }

  lemma CommitRegistered(s: State, m: Mutation, id: nat, selector: Selector)
    requires Applicable(s, m) && Registered(s, id, selector)
    ensures Registered(Commit(s, m), id, selector)
  {
    if !m.Keep? {
      var (r, e) := Notice(s, m);
      var w :| w in s.watches && w.id == id && w.live && w.selector == selector;
      BroadcastReaches(s.watches, r, e, Delivered(w, r, e));
    }
  }

  lemma StepRegistered(s: State, step: Step, id: nat, selector: Selector)
    requires WellFormed(s) && Registered(s, id, selector) && step != DoDisconnect(id)
    ensures Registered(Exec(s, step), id, selector)
  {
    var w :| w in s.watches && w.id == id && w.live && w.selector == selector;
    if step.DoDisconnect? {
      var i :| 0 <= i < |s.watches| && s.watches[i] == w;
      assert Exec(s, step).watches[i] == w;
    } else if step.DoSubscribe? {
      assert w in Exec(s, step).watches;
    } else {
      CommitRegistered(s, StepMutation(s, step), id, selector);
      StepRecords(s, step);
    }
  }

  /** Only a dropped receiver ends a watch: pruning never removes a live one. */
  lemma {:induction false} WatchStays(states: seq<State>, steps: seq<Step>, k: nat, q: WatchRequest, n: nat)
    requires IsRun(states, steps) && WellFormed(states[0])
    requires k < n <= |steps| && steps[k] == DoSubscribe(q) && q.context in states[k].contexts
    requires forall i :: k < i < n ==> steps[i] != DoDisconnect(states[k].nextWatch)
    ensures Registered(states[n], states[k].nextWatch, SelectorOf(q))
  {
    if n == k + 1 {
      var s, t := states[k], states[n];
      assert t.watches[|s.watches|].id == s.nextWatch;
    } else {
      WatchStays(states, steps, k, q, n - 1);
      RunKeeps(states, steps, n - 1);
      StepRegistered(states[n - 1], steps[n - 1], states[k].nextWatch, SelectorOf(q));
    }
  }

  // --- watches that never converge ----------------------------------------------------------

  function About(e: Event): Option<ResourceRef> {
    match e
    case Snapshot(_, _) => None
    case Changed(row) => Some(row.reference)
    case Gone(r, _) => Some(r)
  }

  /** A watcher that shows `stray`, which its selector does not match, and was never told of it since. */
  ghost predicate Deaf(w: RegisteredWatch, stray: ResourceRef) {
    && stray in Replica(w.log) && !w.selector.Matches(stray)
    && forall i :: 1 <= i < |w.log| ==> About(w.log[i]).Some? && About(w.log[i]) != Some(stray)
  }

  ghost predicate DeafWatch(s: State, id: nat, selector: Selector, stray: ResourceRef) {
    exists w :: w in s.watches && w.id == id && w.live && w.selector == selector && Deaf(w, stray)
  }

  lemma DeliveredDeaf(w: RegisteredWatch, r: ResourceRef, e: Event, stray: ResourceRef)
    requires Deaf(w, stray) && About(e) == Some(r)
    ensures Deaf(Delivered(w, r, e), stray)
  {
    ReplicaGrows(w.log, e);
  }

  lemma CommitDeaf(s: State, m: Mutation, id: nat, selector: Selector, stray: ResourceRef)
    requires Applicable(s, m) && DeafWatch(s, id, selector, stray)
    ensures DeafWatch(Commit(s, m), id, selector, stray)
  {
    if !m.Keep? {
      var (r, e) := Notice(s, m);
      var w :| w in s.watches && w.id == id && w.live && w.selector == selector && Deaf(w, stray);
      DeliveredDeaf(w, r, e, stray);
      BroadcastReaches(s.watches, r, e, Delivered(w, r, e));
    }
  }

  lemma StepDeaf(s: State, step: Step, id: nat, selector: Selector, stray: ResourceRef)
    requires WellFormed(s) && DeafWatch(s, id, selector, stray) && step != DoDisconnect(id)
    ensures DeafWatch(Exec(s, step), id, selector, stray)
  {
    hide Deaf, WellFormed;
    if step.DoDisconnect? {
      var w :| w in s.watches && w.id == id && w.live && w.selector == selector && Deaf(w, stray);
      var i :| 0 <= i < |s.watches| && s.watches[i] == w;
      assert Exec(s, step).watches[i] == w;
    } else if step.DoSubscribe? {
      var w :| w in s.watches && w.id == id && w.live && w.selector == selector && Deaf(w, stray);
      assert w in Exec(s, step).watches;
    } else {
      CommitDeaf(s, StepMutation(s, step), id, selector, stray);
      StepRecords(s, step);
    }
  }

  lemma FirstView(rows: seq<Record>, asOf: nat)
    ensures Replica([Snapshot(rows, asOf)]) == ByReference(rows)
  {
    ReplicaGrows([], Snapshot(rows, asOf));
    assert [] + [Snapshot(rows, asOf)] == [Snapshot(rows, asOf)];
  }

  lemma SubscribeDeaf(s: State, q: WatchRequest, i: nat)
    requires UniqueReferences(s.records) && q.context in s.contexts && i < |s.records|
    requires InSnapshot(q, s.records[i].reference) && !SelectorOf(q).Matches(s.records[i].reference)
    ensures DeafWatch(Subscribe(s, q), s.nextWatch, SelectorOf(q), s.records[i].reference)
  {
    hide Replica, ByReference, SelectorOf, InSnapshot;
    var rows := SnapshotRows(s.records, q);
    var w := RegisteredWatch(s.nextWatch, SelectorOf(q), true, [Snapshot(rows, s.revision)]);
    SnapshotUnique(s.records, q);
    ByReferenceHolds(rows);
    assert s.records[i] in rows;
    var j :| 0 <= j < |rows| && rows[j] == s.records[i];
    FirstView(rows, s.revision);
    assert w in Subscribe(s, q).watches;
  }

  /** What an identity watch lists without its object's namespace it goes on showing, and never hears of again. */
  lemma {:induction false} DeafForGood(
    states: seq<State>, steps: seq<Step>, k: nat, q: WatchRequest, n: nat, i: nat)
    requires IsRun(states, steps) && WellFormed(states[0])
    requires k < n <= |steps| && UniqueReferences(states[k].records) && steps[k] == DoSubscribe(q) && q.context in states[k].contexts
    requires forall j :: k < j < n ==> steps[j] != DoDisconnect(states[k].nextWatch)
    requires i < |states[k].records| && InSnapshot(q, states[k].records[i].reference)
    requires !SelectorOf(q).Matches(states[k].records[i].reference)
    ensures DeafWatch(states[n], states[k].nextWatch, SelectorOf(q), states[k].records[i].reference)
  {
    if n == k + 1 {
      SubscribeDeaf(states[k], q, i);
    } else {
      DeafForGood(states, steps, k, q, n - 1, i);
      RunKeeps(states, steps, n - 1);
      StepDeaf(states[n - 1], steps[n - 1], states[k].nextWatch, SelectorOf(q), states[k].records[i].reference);
    }
  }

  lemma DeafDiverges(s: State, id: nat, selector: Selector, stray: ResourceRef)
    requires DeafWatch(s, id, selector, stray)
    ensures !Converged(s, id)
  {
  }

  /**
   * On every run, at any time a watch is registered and live, its watcher holds the matching rows exactly when the
   * snapshot it began with agreed with its selector.
   */
  lemma WatchConvergesIff(states: seq<State>, steps: seq<Step>, k: nat, q: WatchRequest, n: nat)
    requires IsRun(states, steps) && WellFormed(states[0]) && UniqueReferences(states[0].records)
    requires forall i :: 0 <= i < |steps| ==> FreshJob(states[i], steps[i])
    requires k < n <= |steps| && steps[k] == DoSubscribe(q) && q.context in states[k].contexts
    requires forall i :: k < i < n ==> steps[i] != DoDisconnect(states[k].nextWatch)
    ensures Converged(states[n], states[k].nextWatch) <==> SnapshotAgrees(states[k].records, q)
  {
    if SnapshotAgrees(states[k].records, q) {
      WatchConverges(states, steps, k, q, n);
    } else {
      UniqueAlways(states, steps, k);
      var i :| 0 <= i < |states[k].records| && InSnapshot(q, states[k].records[i].reference)
               && !SelectorOf(q).Matches(states[k].records[i].reference);
      DeafForGood(states, steps, k, q, n, i);
      DeafDiverges(states[n], states[k].nextWatch, SelectorOf(q), states[k].records[i].reference);
    }
  }

  // --- a job under a used name --------------------------------------------------------------

  /** The name a job of `source` will get once one more revision has passed. */
  function NextButOne(s: State, source: ResourceRef): string {
    source.name + "-run-" + Decimal(s.revision + 2)
  }

  /** The reference a job of `source` will then get. */
  function NextReference(s: State, source: ResourceRef): ResourceRef {
    var name := NextButOne(s, source);
    ResourceRef(source.context, JOB, source.namespace, name, Uid(source.context, "Job", source.namespace, name))
  }

  function TakeName(s: State, source: ResourceRef, hash: string): Command {
    Apply(source.context, hash, s.nextTicket, hash, NextReference(s, source))
  }

  /** A validation, an apply that takes the name, and the job that then gets it too. */
  function CollidingSteps(s: State, source: ResourceRef, hash: string, first: string, second: string): seq<Step> {
    [DoValidate(source.context, hash, Some(Manifest(JOB, source.namespace, NextButOne(s, source)))),
     DoSubmit(first, TakeName(s, source, hash)), DoSubmit(second, CreateJob(source))]
  }

  /** A store with a job or cron job whose next name but one is free. */
  predicate CanCollide(s: State, source: ResourceRef) {
    && source.context in s.contexts && source.context != READONLY_CONTEXT
    && (source.gvk.kind == "Job" || source.gvk.kind == "CronJob")
    && FindIndex(s.records, PlaceOf(source)) < |s.records|
    && s.records[FindIndex(s.records, PlaceOf(source))].reference == source
    && FindIndex(s.records, PlaceOf(NextReference(s, source))) == |s.records|
  }

  /** The ticket of that validation is there, and nothing else has moved. */
  ghost predicate NameTicketed(s: State, a: State, source: ResourceRef, hash: string) {
    && WellFormed(a) && s.nextTicket in a.tickets && a.records == s.records && a.revision == s.revision
    && a.contexts == s.contexts
    && a.tickets[s.nextTicket] == Ticket(NextReference(s, source), s.revision, s.revision, hash)
  }

  lemma NameValidated(s: State, source: ResourceRef, hash: string)
    requires WellFormed(s) && CanCollide(s, source)
    ensures var a := Validate(s, source.context, hash, Some(Manifest(JOB, source.namespace, NextButOne(s, source))));
            NameTicketed(s, a, source, hash) && a.idempotency == s.idempotency
  {
    var m := Manifest(JOB, source.namespace, NextButOne(s, source));
    ValidateKeeps(s, source.context, hash, Some(m));
    IssuedTickets(s.tickets, s.ticketOrder, s.nextTicket, TicketFor(s, source.context, hash, m));
    TicketForName(s, source, hash);
  }

  lemma TicketForName(s: State, source: ResourceRef, hash: string)
    requires CanCollide(s, source)
    ensures TicketFor(s, source.context, hash, Manifest(JOB, source.namespace, NextButOne(s, source)))
            == Ticket(NextReference(s, source), s.revision, s.revision, hash)
  {
    hide Uid, FindIndex;
  }

  lemma NameOpens(s: State, a: State, source: ResourceRef, hash: string, first: string)
    requires CanCollide(s, source) && NameTicketed(s, a, source, hash) && first != "" && first !in a.idempotency
    ensures Opens(a, first, TakeName(s, source, hash))
  {
    hide Uid, Fingerprint, FindIndex, WellFormed;
    assert Lookup(a, PlaceOf(NextReference(s, source))).None?;
  }

  lemma NamePushed(s: State, a: State, source: ResourceRef, hash: string)
    requires CanCollide(s, source) && NameTicketed(s, a, source, hash) && Admit(a, TakeName(s, source, hash)).Ok?
    ensures MutationOf(a, TakeName(s, source, hash)) == Push(NewRow(NextReference(s, source), s.revision + 1, "Applied"))
  {
    hide Uid, FindIndex, WellFormed;
  }

  lemma NameApplied(s: State, a: State, source: ResourceRef, hash: string, first: string)
    requires CanCollide(s, source) && NameTicketed(s, a, source, hash) && Opens(a, first, TakeName(s, source, hash))
    ensures var b := Opened(a, first, TakeName(s, source, hash));
            && b.records == s.records + [NewRow(NextReference(s, source), s.revision + 1, "Applied")]
            && b.revision == s.revision + 1 && b.contexts == s.contexts
            && forall key :: key in b.idempotency ==> key == first || key in a.idempotency
  {
    hide Uid, FindIndex, Fingerprint, NextReference, WellFormed;
    var c := TakeName(s, source, hash);
    SubmitCommits(a, first, c);
    NamePushed(s, a, source, hash);
    OpenedKeys(a, first, c);
  }

  lemma OpenedKeys(s: State, key: string, c: Command)
    requires WellFormed(s) && Opens(s, key, c)
    ensures Opened(s, key, c).contexts == s.contexts
    ensures forall k :: k in Opened(s, key, c).idempotency ==> k == key || k in s.idempotency
  {
    hide Begin, MutationOf;
    ConsumeBounded(s, c);
    BeginBounded(Consume(s, c), key, Fingerprint(c));
    PreparedRest(s, key, c);
    CommitBounded(Prepared(s, key, c), MutationOf(s, c));
  }

  lemma FindIndexAppend(records: seq<Record>, row: Record, p: Place)
    requires FindIndex(records, p) < |records|
    ensures FindIndex(records + [row], p) == FindIndex(records, p)
  {
    hide FindIndex;
    var i, j := FindIndex(records, p), FindIndex(records + [row], p);
    assert forall k :: 0 <= k <= i ==> (records + [row])[k] == records[k];
  }

  lemma NameCollides(s: State, b: State, source: ResourceRef, second: string)
    requires CanCollide(s, source) && second != "" && second !in b.idempotency
    requires b.records == s.records + [NewRow(NextReference(s, source), s.revision + 1, "Applied")]
    requires b.revision == s.revision + 1 && b.contexts == s.contexts
    ensures Opens(b, second, CreateJob(source)) && !Unused(b.records, JobReference(b, source))
  {
    FindIndexAppend(s.records, NewRow(NextReference(s, source), s.revision + 1, "Applied"), PlaceOf(source));
    assert b.records[|s.records|].reference == JobReference(b, source);
  }

  /**
   * So a generated name can be in use: from any store with a job or cron job and the name free, two commands
   * under fresh keys make two rows of one reference.
   */
  lemma ApplyTakesJobName(s: State, source: ResourceRef, hash: string, first: string, second: string)
    returns (states: seq<State>)
    requires WellFormed(s) && CanCollide(s, source)
    requires first != "" && second != "" && first != second && first !in s.idempotency && second !in s.idempotency
    ensures IsRun(states, CollidingSteps(s, source, hash, first, second)) && states[0] == s
    ensures Opens(states[2], second, CreateJob(source)) && !FreshJob(states[2], DoSubmit(second, CreateJob(source)))
  {
    hide WellFormed, CanCollide, NameTicketed, TakeName, Opens, Opened, Unused;
    var steps := CollidingSteps(s, source, hash, first, second);
    var a := Exec(s, steps[0]);
    NameValidated(s, source, hash);
    NameOpens(s, a, source, hash, first);
    NameApplied(s, a, source, hash, first);
    var b := Opened(a, first, TakeName(s, source, hash));
    SubmitOpens(a, first, TakeName(s, source, hash));
    NameCollides(s, b, source, second);
    states := [s, a, b, Exec(b, steps[2])];
  }

  lemma SubmitOpens(s: State, key: string, c: Command)
    requires Opens(s, key, c)
    ensures Exec(s, DoSubmit(key, c)) == Opened(s, key, c)
  {
  }
}
