/** An apply that opens an operation is a compare-and-swap against its validation, on every run. */
module GuardedApply {
  import opened Wrappers
  import opened Identity
  import opened Watch
  import opened Store
  import opened StoreInvariants
  import opened WatchConvergence

  /** A step that uses a ticket up. */
  predicate Redeems(s: State, step: Step, id: nat) {
    step.DoSubmit? && step.command.Apply? && step.command.ticket == id && Opens(s, step.key, step.command)
  }

  /** The ticket a step issues, if it issues one. */
  predicate Issues(s: State, step: Step) {
    step.DoValidate? && step.context in s.contexts && step.manifest.Some?
  }

  // --- where a ticket comes from ------------------------------------------------------------

  lemma SubmitTickets(s: State, key: string, c: Command)
    requires Opens(s, key, c)
    ensures Opened(s, key, c).tickets == Consume(s, c).tickets && Opened(s, key, c).nextTicket == s.nextTicket
  {
    CommitBounded(Prepared(s, key, c), MutationOf(s, c));
  }

  /** Every retained ticket was retained before, unredeemed, or has just been issued. */
  ghost predicate TicketsFollow(s: State, step: Step, t: State) {
    && s.nextTicket <= t.nextTicket
    && forall id :: id in t.tickets ==>
         || (id in s.tickets && t.tickets[id] == s.tickets[id] && !Redeems(s, step, id))
         || (Issues(s, step) && id == s.nextTicket
             && t.tickets[id] == TicketFor(s, step.context, step.hash, step.manifest.value))
  }

  lemma SubmitFollows(s: State, key: string, c: Command)
    ensures TicketsFollow(s, DoSubmit(key, c), Submit(s, key, c).0)
  {
    if Opens(s, key, c) {
      SubmitTickets(s, key, c);
    }
  }

  lemma ValidateFollows(s: State, context: string, hash: string, m: Option<Manifest>)
    requires WellFormed(s)
    ensures TicketsFollow(s, DoValidate(context, hash, m), Validate(s, context, hash, m))
  {
    if context in s.contexts && m.Some? {
      IssuedTickets(s.tickets, s.ticketOrder, s.nextTicket, TicketFor(s, context, hash, m.value));
    }
  }

  lemma StepTickets(s: State, step: Step)
    requires WellFormed(s)
    ensures TicketsFollow(s, step, Exec(s, step))
  {
    if step.DoSubmit? {
      SubmitFollows(s, step.key, step.command);
    } else if step.DoValidate? {
      ValidateFollows(s, step.context, step.hash, step.manifest);
    } else if step.DoTick? {
      TickAllBounded(s, InProgress(s, s.operationOrder));
    } else {
      OtherTickets(s, step);
    }
  }

  lemma OtherTickets(s: State, step: Step)
    requires !step.DoSubmit? && !step.DoValidate? && !step.DoTick?
    ensures Exec(s, step).tickets == s.tickets && Exec(s, step).nextTicket == s.nextTicket
  {
    hide Broadcast;
  }

  /** A retained ticket was issued once, by a validation, and has been retained ever since. */
  lemma {:induction false} TicketOrigin(states: seq<State>, steps: seq<Step>, n: nat, id: nat) returns (j: nat)
    requires IsRun(states, steps) && WellFormed(states[0]) && states[0].tickets == map[]
    requires n <= |steps| && id in states[n].tickets
    ensures j < n && Issues(states[j], steps[j]) && id == states[j].nextTicket
    ensures states[n].tickets[id] == TicketFor(states[j], steps[j].context, steps[j].hash, steps[j].manifest.value)
  {
    RunKeeps(states, steps, n - 1);
    StepTickets(states[n - 1], steps[n - 1]);
    if id in states[n - 1].tickets && !Redeems(states[n - 1], steps[n - 1], id)
       && states[n].tickets[id] == states[n - 1].tickets[id] {
      j := TicketOrigin(states, steps, n - 1, id);
    } else {
      j := n - 1;
    }
  }

  /** A ticket that has left the store never comes back. */
  lemma {:induction false} RedeemedStaysOut(states: seq<State>, steps: seq<Step>, m: nat, n: nat, id: nat)
    requires IsRun(states, steps) && WellFormed(states[0]) && m <= n <= |steps|
    requires id !in states[m].tickets && id < states[m].nextTicket
    ensures id !in states[n].tickets && id < states[n].nextTicket
  {
    hide Exec, WellFormed;
    if m == n {
    } else {
      RedeemedStaysOut(states, steps, m, n - 1, id);
      RunKeeps(states, steps, n - 1);
      StepTickets(states[n - 1], steps[n - 1]);
    }
  }

  /** No ticket is redeemed twice in a run. */
  lemma SingleUse(states: seq<State>, steps: seq<Step>, m: nat, n: nat, id: nat)
    requires IsRun(states, steps) && WellFormed(states[0])
    requires m < n < |steps| && Redeems(states[n], steps[n], id)
    ensures !Redeems(states[m], steps[m], id)
  {
    if Redeems(states[m], steps[m], id) {
      RunKeeps(states, steps, m);
      StepTickets(states[m], steps[m]);
      SubmitTickets(states[m], steps[m].key, steps[m].command);
      RedeemedStaysOut(states, steps, m + 1, n, id);
    }
  }

  // --- what happens at a place --------------------------------------------------------------

  /** The world moved on: the revision passed `base` and no row at the place carries `stamp`. */
  ghost predicate Overtaken(s: State, p: Place, base: nat, stamp: nat) {
    && s.revision > base
    && forall i :: 0 <= i < |s.records| && PlaceOf(s.records[i].reference) == p ==> s.records[i].revision != stamp
  }

  /** What a validation saw at a place, and the revision it bound. */
  ghost predicate Observed(seen: Option<Record>, base: nat, stamp: nat) {
    stamp <= base && stamp == (if seen.Some? then seen.value.revision else base)
  }

  lemma FindUnchanged(before: seq<Record>, after: seq<Record>, p: Place, i: nat, j: nat)
    requires i == FindIndex(before, p) < |before|
    requires j < |after| && after[j] == before[i]
    requires forall k :: 0 <= k < j ==> PlaceOf(after[k].reference) != p
    ensures FindIndex(after, p) == j
  {
  }

  lemma PutAtPlace(s: State, k: nat, row: Record, p: Place, base: nat, stamp: nat)
    requires Stamps(s) && Applicable(s, Put(k, row)) && base <= s.revision && Observed(Lookup(s, p), base, stamp)
    ensures Lookup(Commit(s, Put(k, row)), p) == Lookup(s, p) || Overtaken(Commit(s, Put(k, row)), p, base, stamp)
  {
    var t := Commit(s, Put(k, row));
    var i := FindIndex(s.records, p);
    assert forall j :: 0 <= j < |s.records| && j != k ==> t.records[j] == s.records[j];
    if i < |s.records| && k != i {
      FindUnchanged(s.records, t.records, p, i, i);
    }
  }

  lemma PushAtPlace(s: State, row: Record, p: Place, base: nat, stamp: nat)
    requires Stamps(s) && Applicable(s, Push(row)) && base <= s.revision && Observed(Lookup(s, p), base, stamp)
    ensures Lookup(Commit(s, Push(row)), p) == Lookup(s, p) || Overtaken(Commit(s, Push(row)), p, base, stamp)
  {
    var t := Commit(s, Push(row));
    var i := FindIndex(s.records, p);
    assert forall j :: 0 <= j < |s.records| ==> t.records[j] == s.records[j];
    if i < |s.records| {
      FindUnchanged(s.records, t.records, p, i, i);
    }
  }

  lemma AfterDrop(records: seq<Record>, k: nat, j: nat)
    requires k < |records| && j < |records| - 1
    ensures (records[..k] + records[k + 1..])[j] == records[if j < k then j else j + 1]
  {
  }

  function Dropped(records: seq<Record>, k: nat): seq<Record>
    requires k < |records|
  {
    records[..k] + records[k + 1..]
  }

  lemma DropElsewhere(records: seq<Record>, k: nat, p: Place)
    requires k < |records| && FindIndex(records, p) < |records| && k != FindIndex(records, p)
    ensures var j := FindIndex(Dropped(records, k), p);
            j < |records| - 1 && Dropped(records, k)[j] == records[FindIndex(records, p)]
  {
    var i, rows := FindIndex(records, p), Dropped(records, k);
    forall j | 0 <= j < |rows| ensures rows[j] == records[if j < k then j else j + 1] {
      AfterDrop(records, k, j);
    }
    FindUnchanged(records, rows, p, i, if k < i then i - 1 else i);
  }

  /** With the row of a place gone, or none there, no row of that place carries the stamp seen. */
  lemma DropHere(records: seq<Record>, revision: nat, k: nat, p: Place, stamp: nat)
    requires RowStamps(records, revision) && k < |records|
    requires FindIndex(records, p) == |records| || (k == FindIndex(records, p) && records[k].revision == stamp)
    ensures forall j :: 0 <= j < |records| - 1 && PlaceOf(Dropped(records, k)[j].reference) == p ==>
              Dropped(records, k)[j].revision != stamp
  {
    forall j | 0 <= j < |records| - 1 && PlaceOf(Dropped(records, k)[j].reference) == p
      ensures Dropped(records, k)[j].revision != stamp
    {
      AfterDrop(records, k, j);
    }
  }

  lemma DropAtPlace(s: State, k: nat, p: Place, base: nat, stamp: nat)
    requires Stamps(s) && Applicable(s, Drop(k)) && base <= s.revision && Observed(Lookup(s, p), base, stamp)
    ensures Lookup(Commit(s, Drop(k)), p) == Lookup(s, p) || Overtaken(Commit(s, Drop(k)), p, base, stamp)
  {
    hide RowStamps, FindIndex;
    var i := FindIndex(s.records, p);
    assert Commit(s, Drop(k)).records == Dropped(s.records, k);
    if i < |s.records| && k != i {
      DropElsewhere(s.records, k, p);
    } else {
      DropHere(s.records, s.revision, k, p, stamp);
    }
  }

  lemma CommitAtPlace(s: State, m: Mutation, p: Place, base: nat, stamp: nat)
    requires Stamps(s) && Applicable(s, m) && base <= s.revision && Observed(Lookup(s, p), base, stamp)
    ensures Lookup(Commit(s, m), p) == Lookup(s, p) || Overtaken(Commit(s, m), p, base, stamp)
  {
    match m {
      case Keep =>
      case Put(k, row) => PutAtPlace(s, k, row, p, base, stamp);
      case Push(row) => PushAtPlace(s, row, p, base, stamp);
      case Drop(k) => DropAtPlace(s, k, p, base, stamp);
    }
  }

  lemma CommitOvertaken(s: State, m: Mutation, p: Place, base: nat, stamp: nat)
    requires Applicable(s, m) && stamp <= base && Overtaken(s, p, base, stamp)
    ensures Overtaken(Commit(s, m), p, base, stamp)
  {
    var t := Commit(s, m);
    match m {
      case Keep =>
      case Put(k, row) => assert forall j :: 0 <= j < |s.records| && j != k ==> t.records[j] == s.records[j];
      case Push(row) => assert forall j :: 0 <= j < |s.records| ==> t.records[j] == s.records[j];
      case Drop(k) =>
        assert forall j :: 0 <= j < k ==> t.records[j] == s.records[j];
        assert forall j :: k <= j < |t.records| ==> t.records[j] == s.records[j + 1];
    }
  }

  lemma StepUntouched(s: State, step: Step, p: Place, base: nat, stamp: nat)
    requires WellFormed(s) && base <= s.revision && Observed(Lookup(s, p), base, stamp)
    ensures Lookup(Exec(s, step), p) == Lookup(s, p) || Overtaken(Exec(s, step), p, base, stamp)
    ensures base <= Exec(s, step).revision
  {
    StepRecords(s, step);
    StepKeeps(s, step);
    StepRevision(s, step);
    CommitAtPlace(s, StepMutation(s, step), p, base, stamp);
  }

  lemma StepOvertaken(s: State, step: Step, p: Place, base: nat, stamp: nat)
    requires WellFormed(s) && stamp <= base && Overtaken(s, p, base, stamp)
    ensures Overtaken(Exec(s, step), p, base, stamp)
  {
    StepRecords(s, step);
    StepRevision(s, step);
    CommitOvertaken(s, StepMutation(s, step), p, base, stamp);
  }

  lemma StepRevision(s: State, step: Step)
    requires WellFormed(s)
    ensures Commit(s, StepMutation(s, step)).revision <= Exec(s, step).revision
  {
    if step.DoSubmit? {
      if Opens(s, step.key, step.command) {
        SubmitCommits(s, step.key, step.command);
      }
    } else if step.DoTick? {
      TickKeeps(s);
    }
  }

  ghost predicate Undisturbed(states: seq<State>, j: nat, n: nat, p: Place)
    requires j <= n < |states|
  {
    forall m :: j <= m <= n ==> Lookup(states[m], p) == Lookup(states[j], p)
  }

  /** Between a validation and a later state a place is undisturbed, or visibly overtaken. */
  lemma {:induction false} PlaceHistory(states: seq<State>, steps: seq<Step>, j: nat, n: nat, p: Place, stamp: nat)
    requires IsRun(states, steps) && WellFormed(states[0]) && j <= n <= |steps|
    requires Observed(Lookup(states[j], p), states[j].revision, stamp)
    ensures states[j].revision <= states[n].revision
    ensures Overtaken(states[n], p, states[j].revision, stamp) || Undisturbed(states, j, n, p)
  {
    hide Exec, WellFormed;
    if j == n {
    } else {
      PlaceHistory(states, steps, j, n - 1, p, stamp);
      RunKeeps(states, steps, n - 1);
      var base := states[j].revision;
      if Undisturbed(states, j, n - 1, p) {
        StepUntouched(states[n - 1], steps[n - 1], p, base, stamp);
      } else {
        StepOvertaken(states[n - 1], steps[n - 1], p, base, stamp);
      }
    }
  }

  // --- the theorem --------------------------------------------------------------------------

  lemma ObservedAtIssue(s: State, context: string, hash: string, m: Manifest)
    requires WellFormed(s)
    ensures var t := TicketFor(s, context, hash, m);
            && PlaceOf(t.target) == Place(context, m.gvk, m.namespace, m.name)
            && Observed(Lookup(s, PlaceOf(t.target)), s.revision, t.resourceRevision)
            && (Lookup(s, PlaceOf(t.target)).Some? ==> Lookup(s, PlaceOf(t.target)).value.reference == t.target)
  {
  }

  lemma AdmittedNotOvertaken(s: State, c: Command, base: nat)
    requires c.Apply? && AdmitApply(s, c).Ok? && s.tickets[c.ticket].resourceRevision <= base
    ensures !Overtaken(s, PlaceOf(c.target), base, s.tickets[c.ticket].resourceRevision)
  {
  }

  /**
   * Guarded apply: the ticket was issued by an earlier validation of the same buffer hash and
   * target, nobody redeemed it before, and from that validation to this apply no step changed,
   * deleted or recreated what stands at the target's place.
   */
  lemma GuardedApply(states: seq<State>, steps: seq<Step>, n: nat, key: string, c: Command) returns (j: nat)
    requires IsRun(states, steps) && WellFormed(states[0]) && states[0].tickets == map[]
    requires n < |steps| && steps[n] == DoSubmit(key, c) && c.Apply? && Opens(states[n], key, c)
    ensures j < n && Issues(states[j], steps[j]) && states[j].nextTicket == c.ticket
    ensures steps[j].hash == c.bufferHash == c.yamlHash
    ensures var m := steps[j].manifest.value;
            PlaceOf(c.target) == Place(steps[j].context, m.gvk, m.namespace, m.name)
    ensures forall m :: 0 <= m < n ==> !Redeems(states[m], steps[m], c.ticket)
    ensures Undisturbed(states, j, n, PlaceOf(c.target))
    ensures Lookup(states[j], PlaceOf(c.target)).Some? ==> Lookup(states[j], PlaceOf(c.target)).value.reference == c.target
    ensures Lookup(states[j], PlaceOf(c.target)).None? ==> states[n].revision == states[j].revision
  {
    var s, p := states[n], PlaceOf(c.target);
    var ticket := s.tickets[c.ticket];
    j := TicketOrigin(states, steps, n, c.ticket);
    RunKeeps(states, steps, j);
    ObservedAtIssue(states[j], steps[j].context, steps[j].hash, steps[j].manifest.value);
    PlaceHistory(states, steps, j, n, p, ticket.resourceRevision);
    AdmittedNotOvertaken(s, c, states[j].revision);
    forall m | 0 <= m < n ensures !Redeems(states[m], steps[m], c.ticket) {
      SingleUse(states, steps, m, n, c.ticket);
    }
  }

  lemma PushLookup(s: State, row: Record)
    requires Lookup(s, PlaceOf(row.reference)).None? && Applicable(s, Push(row))
    ensures Lookup(Commit(s, Push(row)), PlaceOf(row.reference)) == Some(row)
  {
    var after := s.records + [row];
    assert after[|s.records|] == row;
    assert forall j :: 0 <= j < |s.records| ==> after[j] == s.records[j];
    assert FindIndex(after, PlaceOf(row.reference)) == |s.records|;
  }

  lemma UpdateIsPut(s: State, key: string, c: Command)
    requires c.Apply? && Opens(s, key, c) && Lookup(s, PlaceOf(c.target)).Some?
    ensures var i := FindIndex(s.records, PlaceOf(c.target));
            i < |s.records| && MutationOf(s, c) == Put(i, Stamped(s, s.records[i]))
  {
  }

  lemma UpdateRows(s: State, key: string, c: Command, i: nat)
    requires WellFormed(s) && c.Apply? && Opens(s, key, c) && i == FindIndex(s.records, PlaceOf(c.target)) < |s.records|
    requires MutationOf(s, c) == Put(i, Stamped(s, s.records[i]))
    ensures Opened(s, key, c).records == s.records[i := Stamped(s, s.records[i])]
    ensures Opened(s, key, c).revision == s.revision + 1
  {
    SubmitCommits(s, key, c);
  }

  /** The row at a place is restamped, and nothing else. */
  predicate Restamped(s: State, t: State, p: Place) {
    var i := FindIndex(s.records, p);
    && i < |s.records| && t.records == s.records[i := Stamped(s, s.records[i])] && t.revision == s.revision + 1
    && Lookup(t, p) == Some(Stamped(s, s.records[i]))
  }

  lemma LookupWritten(s: State, t: State, p: Place, i: nat)
    requires i == FindIndex(s.records, p) < |s.records| && t.revision == s.revision + 1
    requires t.records == s.records[i := Stamped(s, s.records[i])]
    ensures Restamped(s, t, p)
  {
    assert PlaceOf(t.records[i].reference) == p;
    assert forall j :: 0 <= j < i ==> t.records[j] == s.records[j];
    assert FindIndex(t.records, p) == i;
  }

  /** The swap, for an update ticket: the validated row is restamped in place. */
  lemma UpdateEffect(s: State, key: string, c: Command)
    requires WellFormed(s) && c.Apply? && Opens(s, key, c) && Lookup(s, PlaceOf(c.target)).Some?
    ensures Restamped(s, Opened(s, key, c), PlaceOf(c.target))
  {
    var i := FindIndex(s.records, PlaceOf(c.target));
    UpdateIsPut(s, key, c);
    UpdateRows(s, key, c, i);
    LookupWritten(s, Opened(s, key, c), PlaceOf(c.target), i);
  }

  /** The swap, for a create ticket: one row is added. */
  lemma CreateEffect(s: State, key: string, c: Command)
    requires WellFormed(s) && c.Apply? && Opens(s, key, c) && Lookup(s, PlaceOf(c.target)).None?
    ensures var t, row := Opened(s, key, c), NewRow(c.target, s.revision + 1, "Applied");
            && t.records == s.records + [row]
            && t.revision == s.revision + 1
            && Lookup(t, PlaceOf(c.target)) == Some(row)
  {
    SubmitCommits(s, key, c);
    PushLookup(s, NewRow(c.target, s.revision + 1, "Applied"));
  }

  /** Compare-and-swap, the other way round: a live ticket is refused only if something moved. */
  lemma LiveTicketAdmittedIff(states: seq<State>, steps: seq<Step>, j: nat, n: nat, c: Command)
    requires IsRun(states, steps) && WellFormed(states[0]) && j < n <= |steps| && Issues(states[j], steps[j])
    requires c.Apply? && c.ticket in states[n].tickets
    requires states[n].tickets[c.ticket] == TicketFor(states[j], steps[j].context, steps[j].hash, steps[j].manifest.value)
    requires c.target == states[n].tickets[c.ticket].target && c.bufferHash == steps[j].hash
    requires states[n].revision <= states[j].revision + TICKET_MAX_AGE_REVISIONS
    requires c.target.context in states[n].contexts
    ensures AdmitApply(states[n], c).Ok? <==>
            if Lookup(states[j], PlaceOf(c.target)).Some?
            then Lookup(states[n], PlaceOf(c.target)) == Lookup(states[j], PlaceOf(c.target))
            else states[n].revision == states[j].revision
  {
    hide Exec, WellFormed;
    var p := PlaceOf(c.target);
    RunKeeps(states, steps, j);
    RunKeeps(states, steps, n);
    var ticket := states[n].tickets[c.ticket];
    ObservedAtIssue(states[j], steps[j].context, steps[j].hash, steps[j].manifest.value);
    PlaceHistory(states, steps, j, n, p, ticket.resourceRevision);
    if AdmitApply(states[n], c).Ok? {
      AdmittedNotOvertaken(states[n], c, states[j].revision);
    }
  }
}
