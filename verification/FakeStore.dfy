/** The store object itself: fields updated in place, each operation tied to its transition. */
module FakeStore {
  import opened Wrappers
  import opened Text
  import opened Identity
  import opened Watch
  import opened BoundedFifo
  import opened Store
  import opened StoreInvariants

  /** What an admitted apply finds in the rows, and what it then writes. */
  lemma ApplyFinds(s: State, key: string, c: Command, ticket: Ticket, index: nat)
    requires c.Apply? && Opens(s, key, c)
    requires ticket == s.tickets[c.ticket] && index == FindIndex(s.records, PlaceOf(ticket.target))
    ensures if index < |s.records|
            then s.records[index].reference.uid == ticket.target.uid && s.records[index].revision == ticket.resourceRevision
            else s.revision == ticket.resourceRevision && ticket.target.context in s.contexts
    ensures MutationOf(s, c) == if index < |s.records| then Put(index, Stamped(s, s.records[index]))
                                else Push(NewRow(ticket.target, s.revision + 1, "Applied"))
  {
  }

  class FakeState {
    const contexts: seq<string>
    var records: seq<Record>
    var revision: nat
    var tickets: map<nat, Ticket>
    var ticketOrder: seq<nat>
    var nextTicket: nat
    var nextOperation: nat
    var operations: map<nat, Operation>
    var operationOrder: seq<nat>
    var armedFailures: map<nat, string>
    var idempotency: map<string, Submission>
    var idempotencyOrder: seq<string>
    const hub: WatchHub

    function Abs(): State
      reads this, hub
    {
      State(contexts, records, revision, tickets, ticketOrder, nextTicket, nextOperation, operations,
            operationOrder, armedFailures, idempotency, idempotencyOrder, hub.watches, hub.nextId)
    }

    ghost predicate Valid()
      reads this, hub
    {
      WellFormed(Abs())
    }

    constructor (contexts: seq<string>)
      ensures Valid() && fresh(hub)
      ensures Abs() == State(contexts, [], INITIAL_REVISION, map[], [], 1, 1, map[], [], map[], map[], [], [], 0)
    {
      this.contexts := contexts;
      records, revision := [], INITIAL_REVISION;
      tickets, ticketOrder, nextTicket := map[], [], 1;
      nextOperation, operations, operationOrder, armedFailures := 1, map[], [], map[];
      idempotency, idempotencyOrder := map[], [];
      hub := new WatchHub();
    }

    method AdvanceRevision() returns (stamp: nat)
      modifies this`revision
      ensures stamp == revision == old(revision) + 1
    {
      revision := revision + 1;
      stamp := revision;
    }

    /** Every retained key is still queued, which is what the eviction loops rely on to end. */
    ghost predicate Queued()
      reads this
    {
      && (forall id :: id in tickets ==> id in ticketOrder)
      && (forall id :: id in operations ==> id in operationOrder)
      && (forall key :: key in idempotency ==> key in idempotencyOrder)
    }

    method RecordOperation(id: nat)
      requires forall k :: k in operations ==> k in operationOrder
      modifies this`operations, this`operationOrder
      ensures var kept := Evicted(old(operationOrder) + [id], old(operations)[id := Operation(Pending, None, None)], OPERATION_CAPACITY);
              operationOrder == kept.0 && operations == kept.1
    {
      QueuedAppend(operationOrder, operations, id, Operation(Pending, None, None));
      operations := operations[id := Operation(Pending, None, None)];
      operationOrder := operationOrder + [id];
      operationOrder, operations := EvictOldest(operationOrder, operations, OPERATION_CAPACITY);
    }

    method RememberKey(key: string, entry: Submission)
      requires forall k :: k in idempotency ==> k in idempotencyOrder
      modifies this`idempotency, this`idempotencyOrder
      ensures var kept := Evicted(old(idempotencyOrder) + [key], old(idempotency)[key := entry], IDEMPOTENCY_CAPACITY);
              idempotencyOrder == kept.0 && idempotency == kept.1
    {
      QueuedAppend(idempotencyOrder, idempotency, key, entry);
      idempotency := idempotency[key := entry];
      idempotencyOrder := idempotencyOrder + [key];
      idempotencyOrder, idempotency := EvictOldest(idempotencyOrder, idempotency, IDEMPOTENCY_CAPACITY);
    }

    /** Open an operation under a key the caller has checked to be new. */
    method BeginOperation(key: string, fingerprint: string) returns (id: nat)
      requires Queued()
      modifies this`nextOperation, this`operations, this`operationOrder, this`idempotency, this`idempotencyOrder
      ensures Abs() == Begin(old(Abs()), key, fingerprint) && id == old(nextOperation)
    {
      hide Evicted;
      ghost var s := Abs();
      id := nextOperation;
      nextOperation := nextOperation + 1;
      RecordOperation(id);
      RememberKey(key, Submission(id, fingerprint));
      ghost var t := Begin(s, key, fingerprint);
      assert operations == t.operations && operationOrder == t.operationOrder;
      assert idempotency == t.idempotency && idempotencyOrder == t.idempotencyOrder;
    }

    /** Write one row back and tell the watchers. */
    method PutRow(index: nat, row: Record)
      requires index < |records| && records[index].reference == row.reference
      modifies this, hub
      ensures Abs() == Commit(old(Abs()), Put(index, row.(revision := old(revision) + 1)))
    {
      var stamp := AdvanceRevision();
      records := records[index := row.(revision := stamp)];
      hub.Deliver(row.reference, Changed(row.(revision := stamp)));
    }

    method PushRow(reference: ResourceRef, summary: string)
      modifies this, hub
      ensures Abs() == Commit(old(Abs()), Push(NewRow(reference, old(revision) + 1, summary)))
    {
      var stamp := AdvanceRevision();
      var row := NewRow(reference, stamp, summary);
      records := records + [row];
      hub.Deliver(reference, Changed(row));
    }

    method DropRow(index: nat)
      requires index < |records|
      modifies this, hub
      ensures Abs() == Commit(old(Abs()), Drop(index))
    {
      var gone := records[index].reference;
      records := records[..index] + records[index + 1..];
      var stamp := AdvanceRevision();
      hub.Deliver(gone, Gone(gone, stamp));
    }

    method TouchResource(p: Place) returns (stamp: Option<nat>)
      modifies this, hub
      ensures Abs() == Touch(old(Abs()), p)
      ensures stamp == if Lookup(old(Abs()), p).Some? then Some(old(revision) + 1) else None
    {
      var index := FindIndex(records, p);
      if index == |records| {
        return None;
      }
      PutRow(index, records[index]);
      stamp := Some(revision);
    }

    method DeleteResource(p: Place) returns (existed: bool)
      modifies this, hub
      ensures Abs() == Remove(old(Abs()), p)
      ensures existed == Lookup(old(Abs()), p).Some?
    {
      var index := FindIndex(records, p);
      if index == |records| {
        return false;
      }
      DropRow(index);
      existed := true;
    }

    /** The operation a key already stands for, when it is retained for the same request. */
    method ReplayOperation(key: string, fingerprint: string) returns (r: Result<Option<nat>, BackendError>)
      ensures r == Replay(Abs(), key, fingerprint)
    {
      if key == "" {
        return Err(Conflict("key required"));
      }
      if key in idempotency {
        var existing := idempotency[key];
        if existing.fingerprint != fingerprint {
          return Err(Conflict("key reused"));
        }
        return Ok(Some(existing.operation));
      }
      r := Ok(None);
    }

    /** The checks of an apply against its ticket and the current rows; nothing changes. */
    method CheckTicket(c: Command) returns (r: Result<(), BackendError>)
      requires c.Apply?
      ensures r == AdmitApply(Abs(), c)
    {
      if c.ticket !in tickets {
        return Err(Conflict("ticket unknown"));
      }
      var ticket := tickets[c.ticket];
      if c.target != ticket.target {
        return Err(Conflict("ticket target"));
      }
      if ticket.bufferHash != c.bufferHash {
        return Err(Conflict("ticket buffer"));
      }
      if revision > ticket.issuedRevision + TICKET_MAX_AGE_REVISIONS {
        return Err(Conflict("ticket expired"));
      }
      var index := FindIndex(records, PlaceOf(ticket.target));
      if index < |records| {
        if records[index].reference.uid != ticket.target.uid {
          return Err(Conflict("target recreated"));
        }
        if records[index].revision != ticket.resourceRevision {
          return Err(Conflict("target changed"));
        }
      } else {
        if revision != ticket.resourceRevision {
          return Err(Conflict("cluster changed"));
        }
        if ticket.target.context !in contexts {
          return Err(NotFound);
        }
      }
      r := Ok(());
    }

    method ConsumeTicket(c: Command)
      requires Queued() && c.Apply?
      modifies this`tickets, this`ticketOrder
      ensures Abs() == Consume(old(Abs()), c) && Queued()
    {
      tickets := tickets - {c.ticket};
      ticketOrder := Without(ticketOrder, c.ticket);
    }

    /** The checks are repeated once the operation is open; none of them can fail now. */
    method WriteApplied(ghost s: State, key: string, c: Command, ticket: Ticket, index: nat)
      requires c.Apply? && Opens(s, key, c) && Abs() == Prepared(s, key, c)
      requires ticket == s.tickets[c.ticket] && index == FindIndex(s.records, PlaceOf(ticket.target))
      modifies this, hub
      ensures Abs() == Opened(s, key, c)
    {
      hide Begin, Fingerprint, Opens, MutationOf;
      ApplyFinds(s, key, c, ticket, index);
      PreparedRest(s, key, c);
      if index < |records| {
        if records[index].reference.uid != ticket.target.uid || records[index].revision != ticket.resourceRevision {
          assert false;
        }
        PutRow(index, records[index]);
      } else {
        if revision != ticket.resourceRevision || ticket.target.context !in contexts {
          assert false;
        }
        PushRow(ticket.target, "Applied");
      }
    }

    /** Use the ticket up, open the operation, and only then change the rows. */
    method PerformApply(key: string, c: Command) returns (id: nat)
      requires Queued() && c.Apply? && Opens(Abs(), key, c)
      modifies this, hub
      ensures Abs() == Opened(old(Abs()), key, c) && id == old(nextOperation)
    {
      hide Begin, Fingerprint, Uid;
      ghost var s := Abs();
      var ticket := tickets[c.ticket];
      var index := FindIndex(records, PlaceOf(ticket.target));
      ConsumeTicket(c);
      id := BeginOperation(key, Fingerprint(c));
      WriteApplied(s, key, c, ticket, index);
    }

    /** Apply a validated buffer through its single-use ticket. */
    method ApplyYaml(key: string, c: Command) returns (r: Result<nat, BackendError>)
      requires Queued() && c.Apply?
      modifies this, hub
      ensures (Abs(), r) == Submit(old(Abs()), key, c)
      ensures r.Err? ==> Abs() == old(Abs())
    {
      if c.context != c.target.context {
        return Err(Conflict("declared context"));
      }
      if c.yamlHash != c.bufferHash {
        return Err(Conflict("edited buffer"));
      }
      var replayed := ReplayOperation(key, Fingerprint(c));
      if replayed.Err? {
        return Err(replayed.error);
      }
      if replayed.value.Some? {
        return Ok(replayed.value.value);
      }
      var checked := CheckTicket(c);
      if checked.Err? {
        return Err(checked.error);
      }
      var id := PerformApply(key, c);
      r := Ok(id);
    }

    /** The checks shared by every command on an existing object; on success the row's index. */
    method Resolve(target: ResourceRef) returns (r: Result<nat, BackendError>)
      ensures r.Err? <==> AdmitTarget(Abs(), target).Err?
      ensures r.Err? ==> r.error == AdmitTarget(Abs(), target).error
      ensures r.Ok? ==> r.value == FindIndex(records, PlaceOf(target)) < |records|
    {
      if target.context == READONLY_CONTEXT {
        return Err(Forbidden);
      }
      var index := FindIndex(records, PlaceOf(target));
      if index == |records| {
        return Err(NotFound);
      }
      if records[index].reference.uid != target.uid {
        return Err(Conflict("target recreated"));
      }
      r := Ok(index);
    }

    /** The desired count shows up wherever the row carries one. */
    method RescaleRow(row: Record, replicas: nat) returns (next: Record)
      ensures next == Scaled(row, replicas)
    {
      next := row;
      var summary := ScaledSummary(row.summary, replicas);
      if summary.Some? {
        next := next.(summary := summary.value);
      }
      if next.projection.Deployment? {
        next := next.(projection := Deployment(Some(replicas)));
      }
    }

    /** Open the operation and rewrite the resolved row. */
    method PerformScale(key: string, c: Command, index: nat) returns (id: nat)
      requires Queued() && c.Scale? && Opens(Abs(), key, c) && index == FindIndex(records, PlaceOf(c.target)) < |records|
      modifies this, hub
      ensures Abs() == Opened(old(Abs()), key, c) && id == old(nextOperation)
    {
      hide Begin, Fingerprint, Uid;
      id := BeginOperation(key, Fingerprint(c));
      var row := RescaleRow(records[index], c.replicas);
      PutRow(index, row);
    }

    method ScaleWorkload(key: string, c: Command) returns (r: Result<nat, BackendError>)
      requires Queued() && c.Scale?
      modifies this, hub
      ensures (Abs(), r) == Submit(old(Abs()), key, c)
    {
      var replayed := ReplayOperation(key, Fingerprint(c));
      if replayed.Err? {
        return Err(replayed.error);
      }
      if replayed.value.Some? {
        return Ok(replayed.value.value);
      }
      if c.target.context !in contexts {
        return Err(NotFound);
      }
      var resolved := Resolve(c.target);
      if resolved.Err? {
        return Err(resolved.error);
      }
      var id := PerformScale(key, c, resolved.value);
      r := Ok(id);
    }

    method DeleteObject(key: string, c: Command) returns (r: Result<nat, BackendError>)
      requires Queued() && c.Delete?
      modifies this, hub
      ensures (Abs(), r) == Submit(old(Abs()), key, c)
    {
      var replayed := ReplayOperation(key, Fingerprint(c));
      if replayed.Err? {
        return Err(replayed.error);
      }
      if replayed.value.Some? {
        return Ok(replayed.value.value);
      }
      if c.target.context !in contexts {
        return Err(NotFound);
      }
      var resolved := Resolve(c.target);
      if resolved.Err? {
        return Err(resolved.error);
      }
      if Decimal(records[resolved.value].revision) != c.resourceVersion {
        return Err(Conflict("target changed"));
      }
      var id := BeginOperation(key, Fingerprint(c));
      DropRow(resolved.value);
      r := Ok(id);
    }

    method RestartWorkload(key: string, c: Command) returns (r: Result<nat, BackendError>)
      requires Queued() && c.Restart?
      modifies this, hub
      ensures (Abs(), r) == Submit(old(Abs()), key, c)
    {
      var replayed := ReplayOperation(key, Fingerprint(c));
      if replayed.Err? {
        return Err(replayed.error);
      }
      if replayed.value.Some? {
        return Ok(replayed.value.value);
      }
      var resolved := Resolve(c.target);
      if resolved.Err? {
        return Err(resolved.error);
      }
      var id := BeginOperation(key, Fingerprint(c));
      r := Ok(id);
    }

    method CreateJobFrom(key: string, c: Command) returns (r: Result<nat, BackendError>)
      requires Queued() && c.CreateJob?
      modifies this, hub
      ensures (Abs(), r) == Submit(old(Abs()), key, c)
    {
      hide Begin, Fingerprint, Uid, Decimal;
      var replayed := ReplayOperation(key, Fingerprint(c));
      if replayed.Err? {
        return Err(replayed.error);
      }
      if replayed.value.Some? {
        return Ok(replayed.value.value);
      }
      var kind := c.target.gvk.kind;
      if kind != "Job" && kind != "CronJob" {
        return Err(Unsupported("job.create"));
      }
      var resolved := Resolve(c.target);
      if resolved.Err? {
        return Err(resolved.error);
      }
      var id := BeginOperation(key, Fingerprint(c));
      var source := c.target;
      var name := source.name + "-run-" + Decimal(revision + 1);
      var uid := Uid(source.context, "Job", source.namespace, name);
      PushRow(ResourceRef(source.context, JOB, source.namespace, name, uid), "Running");
      r := Ok(id);
    }

    method SetCronJobSuspended(key: string, c: Command) returns (r: Result<nat, BackendError>)
      requires Queued() && c.SetSuspended?
      modifies this, hub
      ensures (Abs(), r) == Submit(old(Abs()), key, c)
    {
      hide Begin, Fingerprint, Uid, Decimal;
      var replayed := ReplayOperation(key, Fingerprint(c));
      if replayed.Err? {
        return Err(replayed.error);
      }
      if replayed.value.Some? {
        return Ok(replayed.value.value);
      }
      if c.target.gvk != CRON_JOB {
        return Err(Unsupported("cronjob.suspend"));
      }
      var resolved := Resolve(c.target);
      if resolved.Err? {
        return Err(resolved.error);
      }
      var id := BeginOperation(key, Fingerprint(c));
      var row := records[resolved.value];
      row := row.(summary := if c.suspended then "Suspended" else "Running");
      // The watchers are told about the requested target, which is the row's own reference.
      assert c.target == row.reference;
      PutRow(resolved.value, row);
      r := Ok(id);
    }

    /** Carry out one keyed command. */
    method Run(key: string, c: Command) returns (r: Result<nat, BackendError>)
      requires Valid()
      modifies this, hub
      ensures (Abs(), r) == Submit(old(Abs()), key, c) && Valid()
    {
      SubmitKeeps(Abs(), key, c);
      assert Queued();
      match c {
        case Apply(_, _, _, _, _) => r := ApplyYaml(key, c);
        case Scale(_, _) => r := ScaleWorkload(key, c);
        case Delete(_, _, _) => r := DeleteObject(key, c);
        case Restart(_) => r := RestartWorkload(key, c);
        case CreateJob(_) => r := CreateJobFrom(key, c);
        case SetSuspended(_, _) => r := SetCronJobSuspended(key, c);
      }
    }

    /** Dry-run a resolved manifest and issue its ticket; absent when the request is refused. */
    method ValidateApply(context: string, hash: string, m: Option<Manifest>) returns (id: Option<nat>)
      requires Queued()
      modifies this`nextTicket, this`tickets, this`ticketOrder
      ensures Abs() == Validate(old(Abs()), context, hash, m)
      ensures id == if context in contexts && m.Some? then Some(old(nextTicket)) else None
    {
      if context !in contexts || m.None? {
        return None;
      }
      var place := Place(context, m.value.gvk, m.value.namespace, m.value.name);
      var index := FindIndex(records, place);
      var ticket;
      if index < |records| {
        ticket := Ticket(records[index].reference, records[index].revision, revision, hash);
      } else {
        var uid := Uid(context, m.value.gvk.kind, m.value.namespace, m.value.name);
        var reference := ResourceRef(context, m.value.gvk, m.value.namespace, m.value.name, uid);
        ticket := Ticket(reference, revision, revision, hash);
      }
      assert ticket == TicketFor(Abs(), context, hash, m.value);
      id := Some(nextTicket);
      nextTicket := nextTicket + 1;
      QueuedAppend(ticketOrder, tickets, id.value, ticket);
      ticketOrder, tickets := EvictOldest(ticketOrder + [id.value], tickets[id.value := ticket], TICKET_CAPACITY);
    }

    method FailNextOperation(reason: string)
      modifies this`armedFailures
      ensures Abs() == FailNext(old(Abs()), reason)
    {
      armedFailures := armedFailures[nextOperation := reason];
    }

    /** Advance every unfinished operation one step. */
    method TickOperations()
      modifies this
      ensures Abs() == Tick(old(Abs()))
    {
      ghost var s := Abs();
      var ids := InProgress(Abs(), operationOrder);
      var i := 0;
      while i < |ids|
        invariant 0 <= i <= |ids|
        invariant forall id :: id in ids ==> id in operations
        invariant contexts == s.contexts && hub.watches == s.watches
        invariant TickAll(Abs(), ids[i..]) == Tick(s)
      {
        TickOperation(ids[i]);
        assert ids[i..][1..] == ids[i + 1..];
        i := i + 1;
      }
      assert ids[i..] == [];
    }

    method TickOperation(id: nat)
      requires id in operations
      modifies this
      ensures Abs() == TickOne(old(Abs()), id)
    {
      hide KeysOf, WithoutAll;
      var operation := operations[id];
      var armed := None;
      if TerminalStep(operation) {
        if id in armedFailures {
          armed := Some(armedFailures[id]);
        }
        armedFailures := armedFailures - {id};
      }
      match operation.state {
        case Pending =>
          operations := operations[id := operation.(state := Running, progress := Some(1))];
        case Running =>
          var completed := (if operation.progress.Some? then operation.progress.value else 1) + 1;
          if completed < OPERATION_TOTAL_STEPS {
            operations := operations[id := operation.(progress := Some(completed))];
          } else if armed.Some? {
            operations := operations[id := Operation(Failed, None, armed)];
            var released := KeysOf(idempotency, id);
            idempotency := idempotency - released;
            idempotencyOrder := WithoutAll(idempotencyOrder, released);
          } else {
            operations := operations[id := operation.(state := Succeeded, progress := None)];
          }
        case _ => operations := operations[id := operation];
      }
    }

    /** The rows a watch request sees now, in store order. */
    method CollectRows(q: WatchRequest) returns (rows: seq<Record>)
      ensures rows == SnapshotRows(records, q)
    {
      rows := [];
      var i := 0;
      while i < |records|
        invariant 0 <= i <= |records|
        invariant rows + SnapshotRows(records[i..], q) == SnapshotRows(records, q)
      {
        assert records[i..][1..] == records[i + 1..];
        if InSnapshot(q, records[i].reference) {
          rows := rows + [records[i]];
        }
        i := i + 1;
      }
    }

    /** Register a watch whose first event is the snapshot taken under the same lock. */
    method SubscribeWatch(q: WatchRequest) returns (r: Result<nat, BackendError>)
      modifies hub
      ensures Abs() == Subscribe(old(Abs()), q)
      ensures r == if q.context in contexts then Ok(old(hub.nextId)) else Err(NotFound)
    {
      if q.context !in contexts {
        return Err(NotFound);
      }
      var rows := CollectRows(q);
      var id := hub.Register(SelectorOf(q), Snapshot(rows, revision));
      r := Ok(id);
    }
  }
}
