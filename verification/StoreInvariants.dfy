/** What every store step keeps: mirrored bounded queues, fresh stamps, distinct watch ids. */
module StoreInvariants {
  import opened Wrappers
  import opened Identity
  import opened Watch
  import opened BoundedFifo
  import opened Store
  import opened Sets

  /** Keys queued in the order of the operations they were submitted for. */
  ghost predicate ByOperation(keys: map<string, Submission>, order: seq<string>) {
    && (forall i :: 0 <= i < |order| ==> order[i] in keys)
    && (forall i, j :: 0 <= i < j < |order| ==> keys[order[i]].operation < keys[order[j]].operation)
  }

  ghost predicate TicketStore(tickets: map<nat, Ticket>, order: seq<nat>, next: nat) {
    Retained(order, tickets, TICKET_CAPACITY) && Ascending(order) && forall id :: id in tickets ==> id < next
  }

  ghost predicate OperationStore(operations: map<nat, Operation>, order: seq<nat>, next: nat) {
    Retained(order, operations, OPERATION_CAPACITY) && Ascending(order) && forall id :: id in operations ==> id < next
  }

  ghost predicate KeyStore(keys: map<string, Submission>, order: seq<string>, next: nat) {
    && Retained(order, keys, IDEMPOTENCY_CAPACITY) && ByOperation(keys, order)
    && "" !in keys
    && forall key :: key in keys ==> keys[key].operation < next
  }

  /** Tickets, operations and idempotency keys are bounded queues, in the order their ids were handed out. */
  ghost predicate BoundedStores(s: State) {
    && TicketStore(s.tickets, s.ticketOrder, s.nextTicket)
    && OperationStore(s.operations, s.operationOrder, s.nextOperation)
    && KeyStore(s.idempotency, s.idempotencyOrder, s.nextOperation)
  }

  /** No stamp lies in the future, and two rows at one place never carry the same stamp. */
  ghost predicate Stamps(s: State) {
    && RowStamps(s.records, s.revision)
    && (forall id :: id in s.tickets ==>
          s.tickets[id].resourceRevision <= s.tickets[id].issuedRevision <= s.revision)
  }

  ghost predicate WatchIds(watches: seq<RegisteredWatch>, next: nat) {
    && (forall w :: w in watches ==> w.id < next)
    && (forall i, j :: 0 <= i < j < |watches| ==> watches[i].id != watches[j].id)
  }

  ghost predicate WellFormed(s: State) {
    BoundedStores(s) && Stamps(s) && WatchIds(s.watches, s.nextWatch)
  }

  // --- bounded stores -----------------------------------------------------------------------

  lemma BeginOperation(operations: map<nat, Operation>, order: seq<nat>, next: nat)
    requires OperationStore(operations, order, next)
    ensures var (o, n) := Evicted(order + [next], operations[next := Operation(Pending, None, None)], OPERATION_CAPACITY);
            OperationStore(n, o, next + 1) && next in n && n[next] == Operation(Pending, None, None)
  {
    InsertMirrors(order, operations, next, Operation(Pending, None, None), OPERATION_CAPACITY);
    InsertAscends(order, operations, next, Operation(Pending, None, None), OPERATION_CAPACITY);
  }

  /** A key for the newest operation goes to the back, with or without the front. */
  lemma NewestKeyLast(keys: map<string, Submission>, order: seq<string>, key: string, entry: Submission)
    requires ByOperation(keys, order) && key !in keys && NoDuplicates(order)
    requires forall k :: k in keys ==> keys[k].operation < entry.operation
    ensures ByOperation(keys[key := entry], order + [key])
    ensures |order| > 0 ==> ByOperation(keys[key := entry] - {order[0]}, order[1..] + [key])
  {
    if |order| > 0 {
      assert forall i :: 0 <= i < |order[1..]| ==> order[1..][i] == order[i + 1];
    }
  }

  lemma BeginKey(keys: map<string, Submission>, order: seq<string>, next: nat, key: string, entry: Submission)
    requires KeyStore(keys, order, next) && key !in keys && key != "" && entry.operation == next
    ensures var (o, n) := Evicted(order + [key], keys[key := entry], IDEMPOTENCY_CAPACITY);
            KeyStore(n, o, next + 1) && key in n && n[key] == entry
            && forall k :: k in n ==> k == key || (k in keys && n[k] == keys[k])
  {
    InsertMirrors(order, keys, key, entry, IDEMPOTENCY_CAPACITY);
    MirrorsLength(order, keys);
    NewestKeyLast(keys, order, key, entry);
  }

  lemma BeginBounded(s: State, key: string, fingerprint: string)
    requires BoundedStores(s) && key !in s.idempotency && key != ""
    ensures BoundedStores(Begin(s, key, fingerprint))
    ensures var t := Begin(s, key, fingerprint);
            && key in t.idempotency && t.idempotency[key] == Submission(s.nextOperation, fingerprint)
            && s.nextOperation in t.operations
            && t.operations[s.nextOperation] == Operation(Pending, None, None)
            && forall k :: k in t.idempotency ==> k == key || (k in s.idempotency && t.idempotency[k] == s.idempotency[k])
  {
    BeginOperation(s.operations, s.operationOrder, s.nextOperation);
    BeginKey(s.idempotency, s.idempotencyOrder, s.nextOperation, key, Submission(s.nextOperation, fingerprint));
  }

  lemma ConsumeBounded(s: State, c: Command)
    requires BoundedStores(s) && (c.Apply? ==> c.ticket in s.tickets)
    ensures BoundedStores(Consume(s, c))
  {
    if c.Apply? {
      RemoveMirrors(s.ticketOrder, s.tickets, c.ticket);
      WithoutAscending(s.ticketOrder, c.ticket);
      MirrorsLength(s.ticketOrder, s.tickets);
      assert s.tickets.Keys == (s.tickets - {c.ticket}).Keys + {c.ticket};
    }
  }

  lemma {:induction false} WithoutAllNoDuplicates(order: seq<string>, keys: set<string>)
    requires NoDuplicates(order)
    ensures NoDuplicates(WithoutAll(order, keys))
  {
    if |order| == 0 {
    } else {
      assert NoDuplicates(order[1..]);
      WithoutAllNoDuplicates(order[1..], keys);
      assert order[0] !in order[1..];
    }
  }

  lemma {:induction false} ReleaseOrder(order: seq<string>, m: map<string, Submission>, keys: set<string>)
    requires ByOperation(m, order)
    ensures ByOperation(m - keys, WithoutAll(order, keys))
  {
    if |order| == 0 {
    } else {
      ReleaseOrder(order[1..], m, keys);
      var rest := WithoutAll(order[1..], keys);
      forall j | 0 <= j < |rest| ensures rest[j] in m && m[order[0]].operation < m[rest[j]].operation {
        assert rest[j] in order[1..];
        var k :| 0 <= k < |order[1..]| && order[1..][k] == rest[j];
        assert order[k + 1] == rest[j];
      }
      assert order[0] !in keys ==> WithoutAll(order, keys) == [order[0]] + rest;
    }
  }

  lemma ReleaseMirrors(order: seq<string>, m: map<string, Submission>, keys: set<string>)
    requires Mirrors(order, m)
    ensures Mirrors(WithoutAll(order, keys), m - keys) && |m - keys| <= |m|
  {
    WithoutAllNoDuplicates(order, keys);
    SubsetSize((m - keys).Keys, m.Keys);
  }

  lemma UpdateMirrors(order: seq<nat>, m: map<nat, Operation>, id: nat, o: Operation)
    requires Mirrors(order, m) && id in m
    ensures Mirrors(order, m[id := o]) && |m[id := o]| == |m|
  {
    assert m[id := o].Keys == m.Keys;
  }

  lemma TickOneBounded(s: State, id: nat)
    requires BoundedStores(s) && id in s.operations
    ensures BoundedStores(TickOne(s, id))
    ensures forall key :: key in TickOne(s, id).idempotency ==>
              key in s.idempotency && TickOne(s, id).idempotency[key] == s.idempotency[key]
  {
    var t := TickOne(s, id);
    UpdateMirrors(s.operationOrder, s.operations, id, t.operations[id]);
    ReleaseMirrors(s.idempotencyOrder, s.idempotency, KeysOf(s.idempotency, id));
    ReleaseOrder(s.idempotencyOrder, s.idempotency, KeysOf(s.idempotency, id));
  }

  lemma {:induction false} TickAllBounded(s: State, ids: seq<nat>)
    requires BoundedStores(s) && forall id :: id in ids ==> id in s.operations
    ensures var t := TickAll(s, ids);
            && BoundedStores(t)
            && t.(operations := s.operations, armedFailures := s.armedFailures,
                  idempotency := s.idempotency, idempotencyOrder := s.idempotencyOrder) == s
            && (forall key :: key in t.idempotency ==>
                  key in s.idempotency && t.idempotency[key] == s.idempotency[key])
    decreases |ids|
  {
    if |ids| == 0 {
    } else {
      TickOneBounded(s, ids[0]);
      TickAllBounded(TickOne(s, ids[0]), ids[1..]);
    }
  }

  // --- stamps -------------------------------------------------------------------------------

  /** Rows whose stamps are past, and distinct at any one place. */
  ghost predicate RowStamps(records: seq<Record>, revision: nat) {
    && (forall i :: 0 <= i < |records| ==> records[i].revision <= revision)
    && (forall i, j :: 0 <= i < j < |records| && PlaceOf(records[i].reference) == PlaceOf(records[j].reference)
          ==> records[i].revision != records[j].revision)
  }

  lemma PutStamps(records: seq<Record>, revision: nat, i: nat, row: Record)
    requires RowStamps(records, revision) && i < |records| && row.revision == revision + 1
    ensures RowStamps(records[i := row], revision + 1)
  {
    assert forall j :: 0 <= j < |records| && j != i ==> records[i := row][j] == records[j];
  }

  lemma PushStamps(records: seq<Record>, revision: nat, row: Record)
    requires RowStamps(records, revision) && row.revision == revision + 1
    ensures RowStamps(records + [row], revision + 1)
  {
    assert forall j :: 0 <= j < |records| ==> (records + [row])[j] == records[j];
  }

  lemma DropStamps(records: seq<Record>, revision: nat, i: nat)
    requires RowStamps(records, revision) && i < |records|
    ensures RowStamps(records[..i] + records[i + 1..], revision + 1)
  {
    var rows := records[..i] + records[i + 1..];
    assert forall j :: 0 <= j < |rows| ==> rows[j] == records[if j < i then j else j + 1];
  }

  lemma CommitStamps(s: State, m: Mutation)
    requires Stamps(s) && Applicable(s, m)
    ensures Stamps(Commit(s, m)) && s.revision <= Commit(s, m).revision
  {
    hide RowStamps;
    match m {
      case Keep =>
      case Put(i, row) => PutStamps(s.records, s.revision, i, row);
      case Push(row) => PushStamps(s.records, s.revision, row);
      case Drop(i) => DropStamps(s.records, s.revision, i);
    }
  }

  lemma TicketForStamps(s: State, context: string, hash: string, m: Manifest)
    requires Stamps(s)
    ensures TicketFor(s, context, hash, m).resourceRevision <= TicketFor(s, context, hash, m).issuedRevision
    ensures TicketFor(s, context, hash, m).issuedRevision == s.revision
  {
  }

  lemma IssuedTickets(tickets: map<nat, Ticket>, order: seq<nat>, next: nat, ticket: Ticket)
    requires TicketStore(tickets, order, next)
    ensures var (o, n) := Evicted(order + [next], tickets[next := ticket], TICKET_CAPACITY);
            TicketStore(n, o, next + 1) && next in n && n[next] == ticket
            && forall id :: id in n ==> id == next || (id in tickets && n[id] == tickets[id])
  {
    InsertMirrors(order, tickets, next, ticket, TICKET_CAPACITY);
    InsertAscends(order, tickets, next, ticket, TICKET_CAPACITY);
  }

  lemma ValidateKeeps(s: State, context: string, hash: string, m: Option<Manifest>)
    requires WellFormed(s)
    ensures WellFormed(Validate(s, context, hash, m)) && Validate(s, context, hash, m).revision == s.revision
  {
    hide Retained;
    if context in s.contexts && m.Some? {
      TicketForStamps(s, context, hash, m.value);
      IssuedTickets(s.tickets, s.ticketOrder, s.nextTicket, TicketFor(s, context, hash, m.value));
    }
  }

  // --- watch ids ----------------------------------------------------------------------------

  /** A watch left by a broadcast has the id of one that was there. */
  lemma BroadcastId(watches: seq<RegisteredWatch>, r: ResourceRef, e: Event, w: RegisteredWatch)
    requires w in Broadcast(watches, r, e)
    ensures exists k :: 0 <= k < |watches| && watches[k].id == w.id
  {
    BroadcastReaches(watches, r, e, w);
    var v :| v in watches && v.live && w == Delivered(v, r, e);
  }

  lemma {:induction false} BroadcastIds(watches: seq<RegisteredWatch>, r: ResourceRef, e: Event, next: nat)
    requires WatchIds(watches, next)
    ensures WatchIds(Broadcast(watches, r, e), next)
  {
    if |watches| == 0 {
    } else {
      var rest := Broadcast(watches[1..], r, e);
      assert forall w :: w in watches[1..] ==> w in watches;
      BroadcastIds(watches[1..], r, e, next);
      forall w | w in rest ensures w.id != watches[0].id {
        BroadcastId(watches[1..], r, e, w);
        var k :| 0 <= k < |watches[1..]| && watches[1..][k].id == w.id;
        assert watches[k + 1].id == w.id;
      }
      HeadApart(watches[0], rest, r, e, next);
    }
  }

  lemma HeadApart(head: RegisteredWatch, rest: seq<RegisteredWatch>, r: ResourceRef, e: Event, next: nat)
    requires WatchIds(rest, next) && head.id < next && forall w :: w in rest ==> w.id != head.id
    ensures WatchIds([Delivered(head, r, e)] + rest, next)
  {
  }

  lemma CommitIds(s: State, m: Mutation)
    requires WatchIds(s.watches, s.nextWatch) && Applicable(s, m)
    ensures WatchIds(Commit(s, m).watches, s.nextWatch) && Commit(s, m).nextWatch == s.nextWatch
  {
    match m {
      case Keep =>
      case Put(_, row) => BroadcastIds(s.watches, row.reference, Changed(row), s.nextWatch);
      case Push(row) => BroadcastIds(s.watches, row.reference, Changed(row), s.nextWatch);
      case Drop(i) =>
        var gone := s.records[i].reference;
        BroadcastIds(s.watches, gone, Gone(gone, s.revision + 1), s.nextWatch);
    }
  }

  // --- the invariant ------------------------------------------------------------------------

  lemma CommitBounded(s: State, m: Mutation)
    requires Applicable(s, m)
    ensures Commit(s, m) == s.(revision := Commit(s, m).revision, records := Commit(s, m).records,
                               watches := Commit(s, m).watches)
  {
  }

  /** The part of a submission before its row change. */
  function Prepared(s: State, key: string, c: Command): State {
    Begin(Consume(s, c), key, Fingerprint(c))
  }

  lemma PreparedBounded(s: State, key: string, c: Command)
    requires BoundedStores(s) && Opens(s, key, c)
    ensures BoundedStores(Prepared(s, key, c))
  {
    hide BoundedStores, Begin;
    ConsumeBounded(s, c);
    BeginBounded(Consume(s, c), key, Fingerprint(c));
  }

  /** Opening and consuming leave rows, revision and watches alone, and add no ticket. */
  lemma PreparedRest(s: State, key: string, c: Command)
    ensures var t := Prepared(s, key, c);
            && t.records == s.records && t.revision == s.revision && t.watches == s.watches && t.nextWatch == s.nextWatch
            && t.contexts == s.contexts
            && forall id :: id in t.tickets ==> id in s.tickets && t.tickets[id] == s.tickets[id]
  {
    hide Evicted, Without;
  }

  lemma PreparedKeeps(s: State, key: string, c: Command)
    requires WellFormed(s) && Opens(s, key, c)
    ensures WellFormed(Prepared(s, key, c)) && Applicable(Prepared(s, key, c), MutationOf(s, c))
    ensures Prepared(s, key, c).records == s.records && Prepared(s, key, c).revision == s.revision
    ensures Prepared(s, key, c).watches == s.watches && Prepared(s, key, c).nextWatch == s.nextWatch
  {
    hide Prepared, BoundedStores, RowStamps, MutationOf;
    PreparedBounded(s, key, c);
    PreparedRest(s, key, c);
  }

  lemma SubmitKeeps(s: State, key: string, c: Command)
    requires WellFormed(s)
    ensures WellFormed(Submit(s, key, c).0) && s.revision <= Submit(s, key, c).0.revision
  {
    if Opens(s, key, c) {
      PreparedKeeps(s, key, c);
      CommitKeeps(Prepared(s, key, c), MutationOf(s, c));
    }
  }

  lemma CommitKeeps(s: State, m: Mutation)
    requires WellFormed(s) && Applicable(s, m)
    ensures WellFormed(Commit(s, m)) && s.revision <= Commit(s, m).revision
  {
    CommitStamps(s, m);
    CommitIds(s, m);
    CommitBounded(s, m);
  }

  lemma TouchKeeps(s: State, p: Place)
    requires WellFormed(s)
    ensures WellFormed(Touch(s, p)) && s.revision <= Touch(s, p).revision
  {
    var i := FindIndex(s.records, p);
    if i < |s.records| {
      CommitKeeps(s, Put(i, Stamped(s, s.records[i])));
    }
  }

  lemma RemoveKeeps(s: State, p: Place)
    requires WellFormed(s)
    ensures WellFormed(Remove(s, p)) && s.revision <= Remove(s, p).revision
  {
    var i := FindIndex(s.records, p);
    if i < |s.records| {
      CommitKeeps(s, Drop(i));
    }
  }

  lemma TickKeeps(s: State)
    requires WellFormed(s)
    ensures WellFormed(Tick(s)) && Tick(s).revision == s.revision
  {
    TickAllBounded(s, InProgress(s, s.operationOrder));
  }

  lemma SubscribeKeeps(s: State, q: WatchRequest)
    requires WellFormed(s)
    ensures WellFormed(Subscribe(s, q)) && Subscribe(s, q).revision == s.revision
  {
    if q.context in s.contexts {
      var w := RegisteredWatch(s.nextWatch, SelectorOf(q), true, [Snapshot(SnapshotRows(s.records, q), s.revision)]);
      AppendIds(s.watches, w, s.nextWatch);
    }
  }

  lemma AppendIds(watches: seq<RegisteredWatch>, w: RegisteredWatch, next: nat)
    requires WatchIds(watches, next) && w.id == next
    ensures WatchIds(watches + [w], next + 1)
  {
    assert forall i :: 0 <= i < |watches| ==> watches[i] in watches;
  }

  lemma DisconnectIds(watches: seq<RegisteredWatch>, id: nat, next: nat)
    requires WatchIds(watches, next)
    ensures WatchIds(Disconnect(watches, id), next)
  {
    var after := Disconnect(watches, id);
    assert forall i :: 0 <= i < |after| ==> after[i].id == watches[i].id && watches[i] in watches;
  }

  /** Every step of every kind keeps the store well formed and never lowers its revision. */
  lemma StepKeeps(s: State, step: Step)
    requires WellFormed(s)
    ensures WellFormed(Exec(s, step)) && s.revision <= Exec(s, step).revision
  {
    match step {
      case DoSubmit(key, c) => SubmitKeeps(s, key, c);
      case DoTouch(p) => TouchKeeps(s, p);
      case DoRemove(p) => RemoveKeeps(s, p);
      case DoValidate(context, hash, m) => ValidateKeeps(s, context, hash, m);
      case DoTick => TickKeeps(s);
      case DoFailNext(_) =>
      case DoSubscribe(q) => SubscribeKeeps(s, q);
      case DoDisconnect(id) => DisconnectIds(s.watches, id, s.nextWatch);
      case DoBumpRevision =>
    }
  }

  /** Every reachable state is well formed. */
  lemma {:induction false} RunKeeps(states: seq<State>, steps: seq<Step>, n: nat)
    requires IsRun(states, steps) && n <= |steps| && WellFormed(states[0])
    ensures WellFormed(states[n])
  {
    if n == 0 {
    } else {
      RunKeeps(states, steps, n - 1);
      StepKeeps(states[n - 1], steps[n - 1]);
    }
  }

  lemma RunStep(states: seq<State>, steps: seq<Step>, n: nat)
    requires IsRun(states, steps) && n < |steps|
    ensures states[n + 1] == Exec(states[n], steps[n])
  {
  }

  // --- what gives way -----------------------------------------------------------------------

  /** A new ticket pushes out the oldest retained one exactly when 32 are retained. */
  lemma TicketsEvictOldest(s: State, context: string, hash: string, m: Manifest, id: nat)
    requires BoundedStores(s) && context in s.contexts && id in s.tickets
    ensures id !in Validate(s, context, hash, Some(m)).tickets <==>
            |s.tickets| == TICKET_CAPACITY && forall other :: other in s.tickets ==> id <= other
  {
    InsertEvictsFront(s.ticketOrder, s.tickets, s.nextTicket, TicketFor(s, context, hash, m), TICKET_CAPACITY, id);
    FrontIsOldest(s.ticketOrder, s.tickets, id);
  }

  /** A new operation pushes out the oldest retained one exactly when 64 are retained. */
  lemma OperationsEvictOldest(s: State, key: string, fingerprint: string, id: nat)
    requires BoundedStores(s) && id in s.operations
    ensures id !in Begin(s, key, fingerprint).operations <==>
            |s.operations| == OPERATION_CAPACITY && forall other :: other in s.operations ==> id <= other
  {
    var o := Operation(Pending, None, None);
    InsertEvictsFront(s.operationOrder, s.operations, s.nextOperation, o, OPERATION_CAPACITY, id);
    FrontIsOldest(s.operationOrder, s.operations, id);
  }

  lemma FirstKeyIsOldest(keys: map<string, Submission>, order: seq<string>, key: string)
    requires Mirrors(order, keys) && ByOperation(keys, order) && key in keys && |order| > 0
    ensures key == order[0] <==> forall other :: other in keys ==> keys[key].operation <= keys[other].operation
  {
    var i :| 0 <= i < |order| && order[i] == key;
    assert order[0] in keys;
    forall other | other in keys ensures keys[order[0]].operation <= keys[other].operation {
      var j :| 0 <= j < |order| && order[j] == other;
    }
  }

  /** A new key pushes out the one of the oldest operation exactly when 32 are retained. */
  lemma KeysEvictOldest(s: State, added: string, fingerprint: string, key: string)
    requires BoundedStores(s) && added !in s.idempotency && key in s.idempotency
    ensures key !in Begin(s, added, fingerprint).idempotency <==>
            |s.idempotency| == IDEMPOTENCY_CAPACITY
            && forall other :: other in s.idempotency ==> s.idempotency[key].operation <= s.idempotency[other].operation
  {
    var entry := Submission(s.nextOperation, fingerprint);
    InsertEvictsFront(s.idempotencyOrder, s.idempotency, added, entry, IDEMPOTENCY_CAPACITY, key);
    FirstKeyIsOldest(s.idempotency, s.idempotencyOrder, key);
  }
}
