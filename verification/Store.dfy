/** The resource store as a transition system on values: one function per locked operation. */
module Store {
  import opened Wrappers
  import opened Text
  import opened Identity
  import opened Watch
  import opened BoundedFifo
  import Timestamp

  const READONLY_CONTEXT := "prod-readonly"
  const INITIAL_REVISION: nat := 1000
  const TICKET_CAPACITY: nat := 32
  const TICKET_MAX_AGE_REVISIONS: nat := 128
  const OPERATION_CAPACITY: nat := 64
  const IDEMPOTENCY_CAPACITY: nat := 32
  const OPERATION_TOTAL_STEPS: nat := 3
  const U32_MAX: nat := 0xFFFF_FFFF
  const JOB := Gvk("batch", "v1", "Job")
  const CRON_JOB := Gvk("batch", "v1", "CronJob")

  datatype BackendError = NotFound | Forbidden | Conflict(reason: string) | Unsupported(operation: string)

  datatype Ticket = Ticket(
    target: ResourceRef, resourceRevision: nat, issuedRevision: nat, bufferHash: string)

  datatype OperationState = Pending | Running | Succeeded | Failed | Cancelled | OutcomeUnknown {
    predicate IsTerminal() { this in {Succeeded, Failed, Cancelled} }
  }

  datatype Operation = Operation(
    state: OperationState, progress: Option<nat>, detail: Option<string>)

  datatype Submission = Submission(operation: nat, fingerprint: string)

  datatype State = State(
    contexts: seq<string>,
    records: seq<Record>,
    revision: nat,
    tickets: map<nat, Ticket>,
    ticketOrder: seq<nat>,
    nextTicket: nat,
    nextOperation: nat,
    operations: map<nat, Operation>,
    operationOrder: seq<nat>,
    armedFailures: map<nat, string>,
    idempotency: map<string, Submission>,
    idempotencyOrder: seq<string>,
    watches: seq<RegisteredWatch>,
    nextWatch: nat)

  // --- lookup -------------------------------------------------------------------------------

  /** An object's place in the store: its identity without the UID. */
  datatype Place = Place(context: string, gvk: Gvk, namespace: Option<string>, name: string)

  function PlaceOf(r: ResourceRef): Place {
    Place(r.context, r.gvk, r.namespace, r.name)
  }

  /** Index of the first record at a place, or the number of records. */
  function FindIndex(records: seq<Record>, p: Place): (i: nat)
    ensures i <= |records|
    ensures i < |records| ==> PlaceOf(records[i].reference) == p
    ensures forall j :: 0 <= j < i ==> PlaceOf(records[j].reference) != p
  {
    if |records| == 0 || PlaceOf(records[0].reference) == p then 0
    else
      var i := FindIndex(records[1..], p);
      assert forall j :: 1 <= j < i + 1 ==> records[j] == records[1..][j - 1];
      i + 1
  }

  function Lookup(s: State, p: Place): Option<Record> {
    var i := FindIndex(s.records, p);
    if i < |s.records| then Some(s.records[i]) else None
  }

  // --- row changes --------------------------------------------------------------------------

  /** The single row change a store operation makes. */
  datatype Mutation = Keep | Put(index: nat, row: Record) | Push(row: Record) | Drop(index: nat)

  ghost predicate Applicable(s: State, m: Mutation) {
    match m
    case Keep => true
    case Put(i, row) => i < |s.records| && s.records[i].reference == row.reference
                        && row.revision == s.revision + 1
    case Push(row) => row.revision == s.revision + 1
    case Drop(i) => i < |s.records|
  }

  /** Carry out a change under one fresh revision and notify the matching watches. */
  function Commit(s: State, m: Mutation): State
    requires Applicable(s, m)
  {
    match m
    case Keep => s
    case Put(i, row) =>
      s.(revision := s.revision + 1, records := s.records[i := row],
         watches := Broadcast(s.watches, row.reference, Changed(row)))
    case Push(row) =>
      s.(revision := s.revision + 1, records := s.records + [row],
         watches := Broadcast(s.watches, row.reference, Changed(row)))
    case Drop(i) =>
      var gone := s.records[i].reference;
      s.(revision := s.revision + 1, records := s.records[..i] + s.records[i + 1..],
         watches := Broadcast(s.watches, gone, Gone(gone, s.revision + 1)))
  }

  /** A row under a fresh revision. */
  function Stamped(s: State, row: Record): Record {
    row.(revision := s.revision + 1)
  }

  function Touch(s: State, p: Place): State {
    var i := FindIndex(s.records, p);
    if i == |s.records| then s else Commit(s, Put(i, Stamped(s, s.records[i])))
  }

  function Remove(s: State, p: Place): State {
    var i := FindIndex(s.records, p);
    if i == |s.records| then s else Commit(s, Drop(i))
  }

  // --- scaled summaries ---------------------------------------------------------------------

  function IndexOf(s: string, c: char): (i: nat)
    ensures i <= |s| && c !in s[..i] && (i < |s| ==> s[i] == c)
  {
    if |s| == 0 || s[0] == c then 0
    else
      var i := IndexOf(s[1..], c);
      assert s[..i + 1] == [s[0]] + s[1..][..i];
      i + 1
  }

  function SplitOnce(s: string, c: char): Option<(string, string)> {
    var i := IndexOf(s, c);
    if i < |s| then Some((s[..i], s[i + 1..])) else None
  }

  /** What `str::parse::<u32>` accepts: an optional plus sign, digits, and no overflow. */
  predicate ParsesAsU32(s: string) {
    var digits := if |s| > 1 && s[0] == '+' then s[1..] else s;
    |digits| > 0 && AllDigits(digits) && DecimalValue(digits) <= U32_MAX
  }

  /** The `ready/desired suffix` summary with its desired count replaced, when it has that shape. */
  function ScaledSummary(summary: string, replicas: nat): Option<string> {
    match SplitOnce(summary, '/')
    case None => None
    case Some((ready, rest)) =>
      if !ParsesAsU32(ready) then None else
      match SplitOnce(rest, ' ')
      case None => None
      case Some((desired, suffix)) =>
        if !ParsesAsU32(desired) then None
        else Some(ready + ['/'] + (Decimal(replicas) + [' '] + suffix))
  }

  function Scaled(row: Record, replicas: nat): Record {
    var summary := ScaledSummary(row.summary, replicas);
    row.(summary := if summary.Some? then summary.value else row.summary,
         projection := if row.projection.Deployment? then Deployment(Some(replicas)) else row.projection)
  }

  // --- keyed submissions --------------------------------------------------------------------

  /** The operation a retained key already stands for, if the request is the same. */
  function Replay(s: State, key: string, fingerprint: string): Result<Option<nat>, BackendError> {
    if key == "" then Err(Conflict("key required"))
    else if key !in s.idempotency then Ok(None)
    else if s.idempotency[key].fingerprint != fingerprint then Err(Conflict("key reused"))
    else Ok(Some(s.idempotency[key].operation))
  }

  /** Open an operation and remember the key it was submitted under. */
  function Begin(s: State, key: string, fingerprint: string): State {
    var id := s.nextOperation;
    var begun :=
      Evicted(s.operationOrder + [id], s.operations[id := Operation(Pending, None, None)], OPERATION_CAPACITY);
    var keyed :=
      Evicted(s.idempotencyOrder + [key], s.idempotency[key := Submission(id, fingerprint)], IDEMPOTENCY_CAPACITY);
    s.(nextOperation := id + 1, operationOrder := begun.0, operations := begun.1,
       idempotencyOrder := keyed.0, idempotency := keyed.1)
  }

  /** The checks a new apply must pass against its ticket and the current rows. */
  function AdmitApply(s: State, c: Command): Result<(), BackendError>
    requires c.Apply?
  {
    if c.ticket !in s.tickets then Err(Conflict("ticket unknown"))
    else
      var ticket := s.tickets[c.ticket];
      if c.target != ticket.target then Err(Conflict("ticket target"))
      else if ticket.bufferHash != c.bufferHash then Err(Conflict("ticket buffer"))
      else if s.revision > ticket.issuedRevision + TICKET_MAX_AGE_REVISIONS then Err(Conflict("ticket expired"))
      else
        match Lookup(s, PlaceOf(ticket.target))
        case Some(row) =>
          if row.reference.uid != ticket.target.uid then Err(Conflict("target recreated"))
          else if row.revision != ticket.resourceRevision then Err(Conflict("target changed"))
          else Ok(())
        case None =>
          if s.revision != ticket.resourceRevision then Err(Conflict("cluster changed"))
          else if ticket.target.context !in s.contexts then Err(NotFound)
          else Ok(())
  }

  /** The existence, UID and policy checks of a command on an existing object. */
  function AdmitTarget(s: State, target: ResourceRef): Result<(), BackendError> {
    if target.context == READONLY_CONTEXT then Err(Forbidden)
    else
      match Lookup(s, PlaceOf(target))
      case None => Err(NotFound)
      case Some(row) =>
        if row.reference.uid != target.uid then Err(Conflict("target recreated")) else Ok(())
  }

  function Admit(s: State, c: Command): Result<(), BackendError> {
    match c
    case Apply(_, _, _, _, _) => AdmitApply(s, c)
    case Scale(target, _) =>
      if target.context !in s.contexts then Err(NotFound) else AdmitTarget(s, target)
    case Delete(target, _, version) =>
      if target.context !in s.contexts then Err(NotFound)
      else
        var admitted := AdmitTarget(s, target);
        if admitted.Err? then admitted
        else if Decimal(Lookup(s, PlaceOf(target)).value.revision) != version then
          Err(Conflict("target changed"))
        else admitted
    case Restart(target) => AdmitTarget(s, target)
    case CreateJob(source) =>
      if source.gvk.kind != "Job" && source.gvk.kind != "CronJob" then Err(Unsupported("job.create"))
      else AdmitTarget(s, source)
    case SetSuspended(target, _) =>
      if target.gvk != CRON_JOB then Err(Unsupported("cronjob.suspend"))
      else AdmitTarget(s, target)
  }

  /** The deterministic UID of a created object; kinds are ASCII names. */
  function Uid(context: string, kind: string, namespace: Option<string>, name: string): string {
    "uid-" + context + "-" + seq(|kind|, i requires 0 <= i < |kind| => LowerChar(kind[i])) + "-"
    + (if namespace.Some? then namespace.value else "cluster") + "-" + name
  }

  function NewRow(reference: ResourceRef, revision: nat, summary: string): Record {
    Record(reference, revision, map[], summary, Timestamp.EPOCH_TEXT, [], NoProjection)
  }

  /** The reference `create_job` generates for a job created at the next revision. */
  function JobReference(s: State, source: ResourceRef): ResourceRef {
    var name := source.name + "-run-" + Decimal(s.revision + 1);
    ResourceRef(source.context, JOB, source.namespace, name, Uid(source.context, "Job", source.namespace, name))
  }

  /** The row change an admitted command makes. */
  function MutationOf(s: State, c: Command): (m: Mutation)
    requires Admit(s, c).Ok?
    ensures Applicable(s, m)
  {
    var i := FindIndex(s.records, PlaceOf(c.target));
    match c
    case Apply(_, _, _, _, target) =>
      if i < |s.records| then Put(i, Stamped(s, s.records[i]))
      else Push(NewRow(target, s.revision + 1, "Applied"))
    case Scale(_, replicas) => Put(i, Stamped(s, Scaled(s.records[i], replicas)))
    case Delete(_, _, _) => Drop(i)
    case Restart(_) => Keep
    case CreateJob(source) => Push(NewRow(JobReference(s, source), s.revision + 1, "Running"))
    case SetSuspended(_, suspended) =>
      Put(i, Stamped(s, s.records[i].(summary := if suspended then "Suspended" else "Running")))
  }

  /** An apply uses its ticket up. */
  function Consume(s: State, c: Command): State {
    if c.Apply? then
      s.(tickets := s.tickets - {c.ticket}, ticketOrder := Without(s.ticketOrder, c.ticket))
    else s
  }

  /** The checks that precede the store lock. */
  function Precheck(c: Command): Result<(), BackendError> {
    if c.Apply? && c.context != c.target.context then Err(Conflict("declared context"))
    else if c.Apply? && c.yamlHash != c.bufferHash then Err(Conflict("edited buffer"))
    else Ok(())
  }

  /** Whether a submission opens a new operation rather than failing or replaying. */
  predicate Opens(s: State, key: string, c: Command) {
    Precheck(c).Ok? && Replay(s, key, Fingerprint(c)) == Ok(None) && Admit(s, c).Ok?
  }

  function Opened(s: State, key: string, c: Command): State
    requires Opens(s, key, c)
  {
    Commit(Begin(Consume(s, c), key, Fingerprint(c)), MutationOf(s, c))
  }

  /** One keyed command: the new state and what the caller is told. */
  function Submit(s: State, key: string, c: Command): (State, Result<nat, BackendError>) {
    if Precheck(c).Err? then (s, Err(Precheck(c).error)) else
    match Replay(s, key, Fingerprint(c))
    case Err(e) => (s, Err(e))
    case Ok(Some(id)) => (s, Ok(id))
    case Ok(None) =>
      match Admit(s, c)
      case Err(e) => (s, Err(e))
      case Ok(_) => (Opened(s, key, c), Ok(s.nextOperation))
  }

  // --- validation tickets -------------------------------------------------------------------

  /** A manifest as the parser resolved it. */
  datatype Manifest = Manifest(gvk: Gvk, namespace: Option<string>, name: string)

  function TicketFor(s: State, context: string, hash: string, m: Manifest): Ticket {
    match Lookup(s, Place(context, m.gvk, m.namespace, m.name))
    case Some(row) => Ticket(row.reference, row.revision, s.revision, hash)
    case None =>
      var uid := Uid(context, m.gvk.kind, m.namespace, m.name);
      Ticket(ResourceRef(context, m.gvk, m.namespace, m.name, uid), s.revision, s.revision, hash)
  }

  /** Dry-run a manifest and issue a single-use ticket for it. */
  function Validate(s: State, context: string, hash: string, m: Option<Manifest>): State {
    if context !in s.contexts || m.None? then s else
    var id := s.nextTicket;
    var issued :=
      Evicted(s.ticketOrder + [id], s.tickets[id := TicketFor(s, context, hash, m.value)], TICKET_CAPACITY);
    s.(nextTicket := id + 1, ticketOrder := issued.0, tickets := issued.1)
  }

  // --- operation lifecycle ------------------------------------------------------------------

  function Advance(o: Operation, armed: Option<string>): Operation {
    match o.state
    case Pending => o.(state := Running, progress := Some(1))
    case Running =>
      var completed := (if o.progress.Some? then o.progress.value else 1) + 1;
      if completed < OPERATION_TOTAL_STEPS then o.(progress := Some(completed))
      else if armed.Some? then Operation(Failed, None, armed)
      else o.(state := Succeeded, progress := None)
    case _ => o
  }

  /** Whether this tick takes the operation to its terminal step. */
  predicate TerminalStep(o: Operation) {
    o.state == Running && (o.progress.Some? ==> o.progress.value + 1 >= OPERATION_TOTAL_STEPS)
  }

  function ArmedFor(s: State, id: nat): Option<string> {
    if id in s.armedFailures then Some(s.armedFailures[id]) else None
  }

  function KeysOf(idempotency: map<string, Submission>, id: nat): set<string> {
    set key | key in idempotency && idempotency[key].operation == id
  }

  function WithoutAll(order: seq<string>, keys: set<string>): (rest: seq<string>)
    ensures forall k :: k in rest <==> k in order && k !in keys
  {
    if |order| == 0 then []
    else if order[0] in keys then WithoutAll(order[1..], keys)
    else [order[0]] + WithoutAll(order[1..], keys)
  }

  /** Advance one operation; a failure releases the keys it was submitted under. */
  function TickOne(s: State, id: nat): State
    requires id in s.operations
  {
    var armed := if TerminalStep(s.operations[id]) then ArmedFor(s, id) else None;
    var next := Advance(s.operations[id], armed);
    var t := s.(operations := s.operations[id := next],
                armedFailures := if TerminalStep(s.operations[id]) then s.armedFailures - {id} else s.armedFailures);
    if next.state == Failed && s.operations[id].state != Failed then
      var released := KeysOf(s.idempotency, id);
      t.(idempotency := s.idempotency - released,
         idempotencyOrder := WithoutAll(s.idempotencyOrder, released))
    else t
  }

  function TickAll(s: State, ids: seq<nat>): (t: State)
    requires forall id :: id in ids ==> id in s.operations
    ensures t.operations.Keys == s.operations.Keys
    decreases |ids|
  {
    if |ids| == 0 then s
    else
      var t := TickOne(s, ids[0]);
      assert t.operations.Keys == s.operations.Keys;
      TickAll(t, ids[1..])
  }

  /** The operations still in progress, oldest first. */
  function InProgress(s: State, order: seq<nat>): (ids: seq<nat>)
    ensures forall id :: id in ids <==> id in order && id in s.operations && !s.operations[id].state.IsTerminal()
  {
    if |order| == 0 then []
    else if order[0] in s.operations && !s.operations[order[0]].state.IsTerminal() then
      [order[0]] + InProgress(s, order[1..])
    else InProgress(s, order[1..])
  }

  function Tick(s: State): State {
    TickAll(s, InProgress(s, s.operationOrder))
  }

  function FailNext(s: State, reason: string): State {
    s.(armedFailures := s.armedFailures[s.nextOperation := reason])
  }

  // --- watches ------------------------------------------------------------------------------

  /** A watch request; an identity contributes only its name and UID. */
  datatype WatchRequest = WatchRequest(
    context: string, gvk: Gvk, namespace: Option<string>, identity: Option<(string, string)>)

  /** The filter behind the initial snapshot. */
  predicate InSnapshot(q: WatchRequest, r: ResourceRef) {
    && r.context == q.context && r.gvk == q.gvk
    && (q.namespace.Some? ==> q.namespace == r.namespace)
    && (q.identity.Some? ==> q.identity.value == (r.name, r.uid))
  }

  /** The selector registered for later deltas. */
  function SelectorOf(q: WatchRequest): Selector {
    Selector(q.context, q.gvk, q.namespace,
             if q.identity.None? then None
             else Some(ResourceRef(q.context, q.gvk, q.namespace, q.identity.value.0, q.identity.value.1)))
  }

  function SnapshotRows(records: seq<Record>, q: WatchRequest): (rows: seq<Record>)
    ensures forall row :: row in rows <==> row in records && InSnapshot(q, row.reference)
  {
    if |records| == 0 then []
    else if InSnapshot(q, records[0].reference) then [records[0]] + SnapshotRows(records[1..], q)
    else SnapshotRows(records[1..], q)
  }

  function Subscribe(s: State, q: WatchRequest): State {
    if q.context !in s.contexts then s
    else
      var first := Snapshot(SnapshotRows(s.records, q), s.revision);
      s.(watches := s.watches + [RegisteredWatch(s.nextWatch, SelectorOf(q), true, [first])],
         nextWatch := s.nextWatch + 1)
  }

  function Disconnect(watches: seq<RegisteredWatch>, id: nat): seq<RegisteredWatch> {
    seq(|watches|, i requires 0 <= i < |watches| =>
      if watches[i].id == id then watches[i].(live := false) else watches[i])
  }

  // --- runs ---------------------------------------------------------------------------------

  datatype Step =
    | DoSubmit(key: string, command: Command)
    | DoTouch(place: Place)
    | DoRemove(place: Place)
    | DoValidate(context: string, hash: string, manifest: Option<Manifest>)
    | DoTick
    | DoFailNext(reason: string)
    | DoSubscribe(request: WatchRequest)
    | DoDisconnect(watch: nat)
    /** A relations query or a metrics switch: only the revision moves. */
    | DoBumpRevision

  function Exec(s: State, step: Step): State {
    match step
    case DoSubmit(key, c) => Submit(s, key, c).0
    case DoTouch(p) => Touch(s, p)
    case DoRemove(p) => Remove(s, p)
    case DoValidate(context, hash, m) => Validate(s, context, hash, m)
    case DoTick => Tick(s)
    case DoFailNext(reason) => FailNext(s, reason)
    case DoSubscribe(q) => Subscribe(s, q)
    case DoDisconnect(id) => s.(watches := Disconnect(s.watches, id))
    case DoBumpRevision => s.(revision := s.revision + 1)
  }

  /** A run lists its states around its steps. */
  ghost predicate IsRun(states: seq<State>, steps: seq<Step>) {
    && |states| == |steps| + 1
    && forall i :: 0 <= i < |steps| ==> states[i + 1] == Exec(states[i], steps[i])
  }
}
